/** The LoRa receiver of the solar surveillance demo: it keeps the latest
    message from every device in a table, reports the alert a message carries,
    and in its demo loop produces one of three canned readings chosen by the
    clock. */
module LoraReceiver {
  import SensorNode

  datatype Option<T> = None | Some(value: T)

  /** One LoRa message, with the fields its senders fill in. `timestamp` is in
      milliseconds since the epoch; `alertType` is the sender's integer code. */
  datatype Reading = Reading(
    deviceId: int,
    timestamp: int,
    temperature: real,
    batteryVoltage: real,
    emergencyPressed: bool,
    alertActive: bool,
    alertType: int)

  /** The kind of alert message the receiver reports, with the value the
      message quotes. */
  datatype AlertNotice =
    | TooHot(temperature: real)
    | TooCold(temperature: real)
    | EmergencyTriggered
    | BatteryLow(voltage: real)
    | UnknownAlert

  /** The alert message for `data`'s alert code; codes other than 1 to 4 give
      the fallback "Unknown alert". In this receiver 3 is the emergency and 4
      the low battery. */
  function HandleAlert(data: Reading): (n: AlertNotice)
    ensures data.alertType == 1 <==> n == TooHot(data.temperature)
    ensures data.alertType == 2 <==> n == TooCold(data.temperature)
    ensures data.alertType == 3 <==> n == EmergencyTriggered
    ensures data.alertType == 4 <==> n == BatteryLow(data.batteryVoltage)
    ensures n == UnknownAlert <==> !(1 <= data.alertType <= 4)
  {
    match data.alertType
    case 1 => TooHot(data.temperature)
    case 2 => TooCold(data.temperature)
    case 3 => EmergencyTriggered
    case 4 => BatteryLow(data.batteryVoltage)
    case _ => UnknownAlert
  }

  /** The demo's reading for clock second `seconds`, stamped `timestampMs`:
      the first ten seconds of every half minute a normal reading, the next
      ten a hot one, the last ten a cold one. One clock value decides both
      tests. */
  function SimulatedReading(seconds: int, timestampMs: int): (r: Reading)
    ensures r.deviceId == 1 && r.timestamp == timestampMs && !r.emergencyPressed
    ensures r.alertActive <==> r.alertType != 0
    ensures seconds % 30 < 10 <==> r.alertType == 0
    ensures 10 <= seconds % 30 < 20 <==> r.alertType == 1
    ensures 20 <= seconds % 30 <==> r.alertType == 2
    ensures r.alertType == 0 ==> r.temperature == 4.2 && r.batteryVoltage == 3.8
    ensures r.alertType == 1 ==> r.temperature == 9.1 && r.batteryVoltage == 3.7
    ensures r.alertType == 2 ==> r.temperature == 1.5 && r.batteryVoltage == 3.6
  {
    var phase := seconds % 30;
    if phase < 10 then Reading(1, timestampMs, 4.2, 3.8, false, false, 0)
    else if phase < 20 then Reading(1, timestampMs, 9.1, 3.7, false, true, 1)
    else Reading(1, timestampMs, 1.5, 3.6, false, true, 2)
  }

  /** The canned readings repeat every thirty seconds. */
  lemma SimulatedReadingPeriodic(seconds: int, timestampMs: int)
    ensures SimulatedReading(seconds + 30, timestampMs) == SimulatedReading(seconds, timestampMs)
  {
    assert (seconds + 30) % 30 == seconds % 30;
  }

  /** The canned readings carry the alert the sensor node's own thresholds
      would raise for their temperature and voltage, and the receiver reports
      exactly that alert. */
  lemma SimulatedReadingMatchesThresholds(seconds: int, timestampMs: int)
    ensures var r := SimulatedReading(seconds, timestampMs);
            var alerts := SensorNode.CheckThresholds(r.temperature, r.batteryVoltage);
            && (r.alertType == 0 <==> alerts == [])
            && (r.alertType == 1 <==> alerts == [SensorNode.Alert(SensorNode.TemperatureHot, r.temperature)])
            && (r.alertType == 2 <==> alerts == [SensorNode.Alert(SensorNode.TemperatureCold, r.temperature)])
            && (r.alertActive ==> HandleAlert(r) != UnknownAlert)
  {
    var r := SimulatedReading(seconds, timestampMs);
    var alerts := SensorNode.CheckThresholds(r.temperature, r.batteryVoltage);
    assert r.batteryVoltage >= SensorNode.BatteryLowVoltage;
    assert |alerts| <= 1;
  }

  /** The device table after processing `messages` in order, starting empty. */
  function Table(messages: seq<Reading>): (t: map<int, Reading>)
    ensures messages != [] ==>
              var last := messages[|messages| - 1];
              last.deviceId in t && t[last.deviceId] == last
    decreases |messages|
  {
    if messages == [] then map[]
    else
      var last := messages[|messages| - 1];
      Table(messages[..|messages| - 1])[last.deviceId := last]
  }

  /** The ids of the devices heard from. */
  function DeviceIds(messages: seq<Reading>): (ids: set<int>)
    ensures forall k :: 0 <= k < |messages| ==> messages[k].deviceId in ids
  {
    set k | 0 <= k < |messages| :: messages[k].deviceId
  }

  /** The table holds exactly the devices heard from. */
  lemma {:induction false} TableKeys(messages: seq<Reading>)
    ensures Table(messages).Keys == DeviceIds(messages)
    decreases |messages|
  {
    if messages != [] {
      var n := |messages|;
      var init := messages[..n - 1];
      TableKeys(init);
      assert DeviceIds(messages) == DeviceIds(init) + {messages[n - 1].deviceId} by {
        forall id | id in DeviceIds(messages) ensures id in DeviceIds(init) + {messages[n - 1].deviceId} {
          var k :| 0 <= k < n && messages[k].deviceId == id;
          if k < n - 1 {
            assert init[k] == messages[k];
          }
        }
        forall id | id in DeviceIds(init) ensures id in DeviceIds(messages) {
          var k :| 0 <= k < n - 1 && init[k].deviceId == id;
          assert messages[k] == init[k];
        }
      }
    }
  }

  /** Each device's entry is its last message: one with its id after which no
      message of that device arrived. */
  lemma {:induction false} TableHoldsLatest(messages: seq<Reading>, id: int)
    requires id in Table(messages)
    ensures exists k :: 0 <= k < |messages| && messages[k] == Table(messages)[id] && messages[k].deviceId == id &&
                        forall j :: k < j < |messages| ==> messages[j].deviceId != id
    decreases |messages|
  {
    var n := |messages|;
    var last := messages[n - 1];
    var init := messages[..n - 1];
    if last.deviceId != id {
      TableHoldsLatest(init, id);
      var k :| 0 <= k < n - 1 && init[k] == Table(init)[id] && init[k].deviceId == id &&
               forall j :: k < j < n - 1 ==> init[j].deviceId != id;
      assert Table(messages)[id] == Table(init)[id];
      assert messages[k] == init[k];
      forall j | k < j < n
        ensures messages[j].deviceId != id
      {
        if j < n - 1 {
          assert messages[j] == init[j];
        }
      }
    } else {
      assert messages[n - 1] == Table(messages)[id];
    }
  }

  /** One clock reading of the demo loop: the whole second that chooses the
      scenario and the millisecond timestamp the message carries. */
  datatype ClockSample = ClockSample(seconds: int, millis: int)

  /** The receiver's state; `processed` records, for the proof, every message
      processed so far. */
  class LoRaReceiver {
    var devices: map<int, Reading>
    var running: bool
    ghost var processed: seq<Reading>

    ghost predicate Valid()
      reads this
    {
      devices == Table(processed)
    }

    constructor ()
      ensures Valid() && devices == map[] && processed == [] && running
    {
      devices := map[];
      running := true;
      processed := [];
    }

    /** Stores `data` as its device's latest message, then reports its alert
        exactly when the message says one is active. */
    method ProcessMessage(data: Reading) returns (notice: Option<AlertNotice>)
      requires Valid()
      modifies this`devices, this`processed
      ensures Valid()
      ensures processed == old(processed) + [data]
      ensures devices == old(devices)[data.deviceId := data]
      ensures notice == if data.alertActive then Some(HandleAlert(data)) else None
    {
      processed := processed + [data];
      assert processed[..|processed| - 1] == old(processed);
      devices := devices[data.deviceId := data];
      notice := None;
      if data.alertActive {
        notice := Some(HandleAlert(data));
      }
    }

    /** The demo loop over a finite run of clock readings: each one chooses a
        canned reading and processes it. */
    method SimulateLoraReception(clock: seq<ClockSample>) returns (notices: seq<Option<AlertNotice>>)
      requires Valid()
      modifies this`devices, this`processed
      ensures Valid()
      ensures |processed| == |old(processed)| + |clock| && processed[..|old(processed)|] == old(processed)
      ensures forall k :: 0 <= k < |clock| ==>
                processed[|old(processed)| + k] == SimulatedReading(clock[k].seconds, clock[k].millis)
      ensures |notices| == |clock|
      ensures forall k :: 0 <= k < |clock| ==>
                var r := SimulatedReading(clock[k].seconds, clock[k].millis);
                notices[k] == if r.alertActive then Some(HandleAlert(r)) else None
      ensures devices.Keys == old(devices).Keys + (if clock == [] then {} else {1})
    {
      notices := [];
      var i := 0;
      while i < |clock|
        invariant 0 <= i <= |clock| && Valid()
        invariant |processed| == |old(processed)| + i && processed[..|old(processed)|] == old(processed)
        invariant forall k :: 0 <= k < i ==>
                    processed[|old(processed)| + k] == SimulatedReading(clock[k].seconds, clock[k].millis)
        invariant |notices| == i
        invariant forall k :: 0 <= k < i ==>
                    var r := SimulatedReading(clock[k].seconds, clock[k].millis);
                    notices[k] == if r.alertActive then Some(HandleAlert(r)) else None
        invariant devices.Keys == old(devices).Keys + (if i == 0 then {} else {1})
      {
        var data := SimulatedReading(clock[i].seconds, clock[i].millis);
        var notice := ProcessMessage(data);
        notices := notices + [notice];
        i := i + 1;
      }
    }
  }
}
