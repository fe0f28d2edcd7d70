/** The SMS sensor node: an Arduino-with-GSM simulation that classifies a
    temperature reading and the stored battery voltage against the vaccine
    storage thresholds, and sends one SMS per alert. Every "too hot" SMS is
    held back while the alert flag is up; any sent alert or the emergency
    button raises the flag, and only a pass with no alerts clears it.

    Temperatures are degrees Celsius and voltages are volts, both as `real`:
    the node only ever compares them. */
module SensorNode {

  /** Safe storage range, set by the node's constructor and never changed. */
  const TempMin: real := 2.0
  const TempMax: real := 8.0
  /** Below this voltage the node raises a battery alert. */
  const BatteryLowVoltage: real := 3.3
  /** The battery estimate is never reported below this voltage. */
  const BatteryFloor: real := 3.0
  /** Voltage of a freshly constructed node. */
  const InitialBatteryVoltage: real := 3.8

  datatype AlertType = TemperatureHot | TemperatureCold | BatteryLow

  /** One alert; `value` is the temperature or the voltage its message quotes. */
  datatype Alert = Alert(kind: AlertType, value: real)

  /** What the GSM module is asked to send. */
  datatype OutgoingSms = AlertSms(alert: Alert) | EmergencySms

  /** The alerts for one reading, in the order the node sends them: at most one
      temperature alert (hot and cold are exclusive), then the battery alert. */
  function CheckThresholds(temperature: real, batteryVoltage: real): (alerts: seq<Alert>)
    ensures |alerts| == (if temperature > TempMax || temperature < TempMin then 1 else 0) +
                        (if batteryVoltage < BatteryLowVoltage then 1 else 0)
    ensures temperature > TempMax <==> |alerts| > 0 && alerts[0] == Alert(TemperatureHot, temperature)
    ensures temperature < TempMin <==> |alerts| > 0 && alerts[0] == Alert(TemperatureCold, temperature)
    ensures batteryVoltage < BatteryLowVoltage <==>
              |alerts| > 0 && alerts[|alerts| - 1] == Alert(BatteryLow, batteryVoltage)
    ensures forall k :: 0 < k < |alerts| ==> alerts[k].kind == BatteryLow
    ensures alerts == [] <==>
              TempMin <= temperature <= TempMax && batteryVoltage >= BatteryLowVoltage
  {
    var temperatureAlerts :=
      if temperature > TempMax then [Alert(TemperatureHot, temperature)]
      else if temperature < TempMin then [Alert(TemperatureCold, temperature)]
      else [];
    var batteryAlerts :=
      if batteryVoltage < BatteryLowVoltage then [Alert(BatteryLow, batteryVoltage)] else [];
    temperatureAlerts + batteryAlerts
  }

  /** The clamp of `check_battery`: the stored voltage is the estimate, but
      never less than the floor. */
  function ClampBattery(estimate: real): (v: real)
    ensures v >= BatteryFloor && v >= estimate
    ensures v == estimate || v == BatteryFloor
  {
    if estimate < BatteryFloor then BatteryFloor else estimate
  }

  /** The effect of the alert loop: the alerts sent so far and the alert flag. */
  datatype Delivery = Delivery(sent: seq<Alert>, alertSent: bool)

  /** Runs the alert loop over `alerts`, starting with flag `alertSent`: an
      alert is sent unless it is a "too hot" alert while the flag is up, and
      every send raises the flag. */
  function Deliver(alertSent: bool, alerts: seq<Alert>): (d: Delivery)
    ensures d.alertSent == (alertSent || alerts != [])
    decreases |alerts|
  {
    if alerts == [] then Delivery([], alertSent)
    else
      var prior := Deliver(alertSent, alerts[..|alerts| - 1]);
      var a := alerts[|alerts| - 1];
      if !prior.alertSent || a.kind != TemperatureHot then Delivery(prior.sent + [a], true)
      else prior
  }

  /** The alerts of `alerts` that are not "too hot", in order. */
  function NotHot(alerts: seq<Alert>): (r: seq<Alert>)
    decreases |alerts|
  {
    if alerts == [] then []
    else
      var a := alerts[|alerts| - 1];
      NotHot(alerts[..|alerts| - 1]) + if a.kind == TemperatureHot then [] else [a]
  }

  /** Whatever the alerts, the loop ends with the flag up exactly when it
      started up or something was sent; with the flag up every "too hot"
      alert is suppressed and nothing else is; with the flag down the first
      alert always goes out and then the flag is up. */
  lemma {:induction false} DeliverSuppressesHotWhileFlagUp(alertSent: bool, alerts: seq<Alert>)
    ensures Deliver(alertSent, alerts).alertSent == (alertSent || Deliver(alertSent, alerts).sent != [])
    ensures alertSent || alerts == [] ==> Deliver(alertSent, alerts).sent == NotHot(alerts)
    ensures !alertSent && alerts != [] ==>
              Deliver(alertSent, alerts).sent == [alerts[0]] + NotHot(alerts[1..])
    decreases |alerts|
  {
    if alerts != [] {
      var n := |alerts|;
      var init := alerts[..n - 1];
      var a := alerts[n - 1];
      DeliverSuppressesHotWhileFlagUp(alertSent, init);
      if !alertSent && init != [] {
        assert init[1..] == alerts[1..][..n - 2];
        assert alerts[1..][n - 2] == a;
      } else if !alertSent {
        assert alerts == [a];
      }
    }
  }

  /** One more alert through the loop. */
  lemma DeliverSnoc(alertSent: bool, alerts: seq<Alert>, a: Alert)
    ensures var prior := Deliver(alertSent, alerts);
            Deliver(alertSent, alerts + [a]) ==
              if !prior.alertSent || a.kind != TemperatureHot then Delivery(prior.sent + [a], true) else prior
  {
    assert (alerts + [a])[..|alerts|] == alerts;
  }

  /** One pass of the alert loop over the alerts of a reading: the "too hot"
      alert is held back exactly when the flag was up, every other alert is
      always sent, and the flag ends up when it was up or the reading raised
      an alert. */
  lemma StepDelivery(alertSent: bool, temperature: real, batteryVoltage: real)
    ensures var alerts := CheckThresholds(temperature, batteryVoltage);
            var d := Deliver(alertSent, alerts);
            && d.sent == (if alertSent && temperature > TempMax then alerts[1..] else alerts)
            && d.alertSent == (alertSent || alerts != [])
            && (temperature > TempMax ==> (Alert(TemperatureHot, temperature) in d.sent <==> !alertSent))
  {
    var alerts := CheckThresholds(temperature, batteryVoltage);
    var first: seq<Alert> :=
      if temperature > TempMax then [Alert(TemperatureHot, temperature)]
      else if temperature < TempMin then [Alert(TemperatureCold, temperature)]
      else [];
    var battery := Alert(BatteryLow, batteryVoltage);
    if batteryVoltage < BatteryLowVoltage {
      assert alerts == first + [battery];
      DeliverSnoc(alertSent, first, battery);
      if first != [] {
        assert first == [] + [first[0]];
        DeliverSnoc(alertSent, [], first[0]);
      }
    } else {
      assert alerts == first;
      if first != [] {
        assert first == [] + [first[0]];
        DeliverSnoc(alertSent, [], first[0]);
      }
    }
  }

  /** Inputs of one pass of the sensor loop that the node does not decide
      itself: the temperature read, the battery estimate before the clamp and
      whether the emergency button was pressed. */
  datatype Cycle = Cycle(temperature: real, batteryEstimate: real, emergencyPressed: bool)

  function AsSms(alerts: seq<Alert>): (m: seq<OutgoingSms>)
    ensures |m| == |alerts|
    ensures forall k :: 0 <= k < |alerts| ==> m[k] == AlertSms(alerts[k])
    decreases |alerts|
  {
    if alerts == [] then [] else [AlertSms(alerts[0])] + AsSms(alerts[1..])
  }

  /** The SMS messages a pass or a run of the sensor loop sends, in order, and
      the flag it leaves. */
  datatype RunState = RunState(messages: seq<OutgoingSms>, alertSent: bool)

  /** One pass of the sensor loop from flag `alertSent`: the reading's
      alerts go out except a "too hot" one while the flag is up (the effect
      of the alert loop, StepDelivery), the flag then records whether the
      reading raised an alert, and the emergency button adds its SMS and
      raises the flag. */
  function CycleOutcome(alertSent: bool, c: Cycle): (r: RunState)
    ensures r.alertSent == Raises(c)
  {
    var alerts := CheckThresholds(c.temperature, ClampBattery(c.batteryEstimate));
    var sent := if alertSent && c.temperature > TempMax then alerts[1..] else alerts;
    RunState(AsSms(sent) + (if c.emergencyPressed then [EmergencySms] else []), alerts != [] || c.emergencyPressed)
  }

  /** A run of passes of the sensor loop from flag `alertSent`. */
  function Run(alertSent: bool, cycles: seq<Cycle>): (r: RunState)
    ensures cycles == [] ==> r.alertSent == alertSent
    ensures cycles != [] ==> r.alertSent == Raises(cycles[|cycles| - 1])
    decreases |cycles|
  {
    if cycles == [] then RunState([], alertSent)
    else
      var prior := Run(alertSent, cycles[..|cycles| - 1]);
      var last := CycleOutcome(prior.alertSent, cycles[|cycles| - 1]);
      RunState(prior.messages + last.messages, last.alertSent)
  }

  /** Whether a pass raises an alert or sees the emergency button. */
  predicate Raises(c: Cycle) {
    CheckThresholds(c.temperature, ClampBattery(c.batteryEstimate)) != [] || c.emergencyPressed
  }

  /** A reading inside all thresholds, without the button, sends nothing. */
  lemma QuietPassSendsNothing(alertSent: bool, c: Cycle)
    requires TempMin <= c.temperature <= TempMax && c.batteryEstimate >= BatteryLowVoltage && !c.emergencyPressed
    ensures CycleOutcome(alertSent, c).messages == [] && !CycleOutcome(alertSent, c).alertSent
  {
  }

  /** A hot reading right after a pass that raised any alert, or where the
      button was pressed, sends no "too hot" SMS; right after a quiet pass it
      does. */
  lemma HotAlertOnlyAfterQuietPass(alertSent: bool, previous: Cycle, c: Cycle)
    requires c.temperature > TempMax
    ensures var flag := CycleOutcome(alertSent, previous).alertSent;
            var hot := AlertSms(Alert(TemperatureHot, c.temperature));
            (hot in CycleOutcome(flag, c).messages <==> !flag) && (flag == Raises(previous))
  {
    var flag := CycleOutcome(alertSent, previous).alertSent;
    var alerts := CheckThresholds(c.temperature, ClampBattery(c.batteryEstimate));
    var hot := Alert(TemperatureHot, c.temperature);
    var sent := if flag then alerts[1..] else alerts;
    if hot in sent {
      var k :| 0 <= k < |sent| && sent[k] == hot;
      assert AsSms(sent)[k] == AlertSms(hot);
    }
    assert CycleOutcome(flag, c).messages == AsSms(sent) + (if c.emergencyPressed then [EmergencySms] else []);
  }

  /** The sensor node's mutable state. `transmitted` records, for the proof,
      every message handed to the GSM module. */
  class SensorNode {
    const deviceId: int
    const phoneNumber: string
    var batteryVoltage: real
    var alertSent: bool
    var smsCount: nat
    ghost var transmitted: seq<OutgoingSms>

    ghost predicate Valid()
      reads this
    {
      smsCount == |transmitted|
    }

    constructor (deviceId: int, phoneNumber: string)
      ensures Valid()
      ensures this.deviceId == deviceId && this.phoneNumber == phoneNumber
      ensures batteryVoltage == InitialBatteryVoltage && !alertSent && smsCount == 0
      ensures transmitted == []
    {
      this.deviceId := deviceId;
      this.phoneNumber := phoneNumber;
      batteryVoltage := InitialBatteryVoltage;
      alertSent := false;
      smsCount := 0;
      transmitted := [];
    }

    /** Stores the clamped battery estimate. */
    method CheckBattery(estimate: real)
      modifies this`batteryVoltage
      ensures batteryVoltage == ClampBattery(estimate)
      ensures batteryVoltage >= BatteryFloor
    {
      batteryVoltage := if BatteryFloor > estimate then BatteryFloor else estimate;
    }

    /** Hands one message to the GSM module and counts it. */
    method SendSms(message: OutgoingSms)
      requires Valid()
      modifies this`smsCount, this`transmitted
      ensures Valid()
      ensures smsCount == old(smsCount) + 1
      ensures transmitted == old(transmitted) + [message]
    {
      smsCount := smsCount + 1;
      transmitted := transmitted + [message];
    }

    /** Sends the emergency SMS and raises the alert flag. */
    method SimulateEmergencyButton()
      requires Valid()
      modifies this`smsCount, this`transmitted, this`alertSent
      ensures Valid()
      ensures smsCount == old(smsCount) + 1
      ensures transmitted == old(transmitted) + [EmergencySms]
      ensures alertSent
    {
      SendSms(EmergencySms);
      alertSent := true;
    }

    /** The alert loop and the flag reset of one pass of the sensor loop. */
    method SendAlerts(alerts: seq<Alert>) returns (sent: seq<Alert>)
      requires Valid()
      modifies this`smsCount, this`transmitted, this`alertSent
      ensures Valid()
      ensures sent == Deliver(old(alertSent), alerts).sent
      ensures alertSent == (alerts != [] && Deliver(old(alertSent), alerts).alertSent)
      ensures transmitted == old(transmitted) + AsSms(sent)
      ensures smsCount == old(smsCount) + |sent|
    {
      sent := [];
      for i := 0 to |alerts|
        invariant Valid()
        invariant Deliver(old(alertSent), alerts[..i]) == Delivery(sent, alertSent)
        invariant transmitted == old(transmitted) + AsSms(sent)
      {
        assert alerts[..i + 1][..i] == alerts[..i];
        var alert := alerts[i];
        if !alertSent || alert.kind != TemperatureHot {
          SendSms(AlertSms(alert));
          alertSent := true;
          AsSmsAppend(sent, alert);
          sent := sent + [alert];
        }
      }
      assert alerts[..|alerts|] == alerts;
      if alerts == [] {
        alertSent := false;
      }
    }

    /** The alert step of one pass of the sensor loop: read the battery,
        classify the temperature, send the alerts and reset the flag on a
        quiet reading. */
    method SensorStep(temperature: real, batteryEstimate: real) returns (sent: seq<Alert>)
      requires Valid()
      modifies this
      ensures Valid()
      ensures batteryVoltage == ClampBattery(batteryEstimate)
      ensures var alerts := CheckThresholds(temperature, batteryVoltage);
              && sent == (if old(alertSent) && temperature > TempMax then alerts[1..] else alerts)
              && alertSent == (alerts != [])
      ensures sent == Deliver(old(alertSent), CheckThresholds(temperature, batteryVoltage)).sent
      ensures transmitted == old(transmitted) + AsSms(sent)
      ensures smsCount == old(smsCount) + |sent|
    {
      CheckBattery(batteryEstimate);
      var alerts := CheckThresholds(temperature, batteryVoltage);
      StepDelivery(alertSent, temperature, batteryVoltage);
      sent := SendAlerts(alerts);
    }

    /** One pass of the sensor loop: the alert step, then the emergency
        button if it was pressed. */
    method SensorCycle(c: Cycle) returns (messages: seq<OutgoingSms>)
      requires Valid()
      modifies this
      ensures Valid()
      ensures batteryVoltage == ClampBattery(c.batteryEstimate)
      ensures RunState(messages, alertSent) == CycleOutcome(old(alertSent), c)
      ensures transmitted == old(transmitted) + messages
      ensures smsCount == old(smsCount) + |messages|
    {
      var sent := SensorStep(c.temperature, c.batteryEstimate);
      messages := AsSms(sent);
      if c.emergencyPressed {
        SimulateEmergencyButton();
        Associative(old(transmitted), messages, [EmergencySms]);
        messages := messages + [EmergencySms];
      }
    }

    /** The sensor loop over a finite run of passes. */
    method RunSensorLoop(cycles: seq<Cycle>) returns (messages: seq<OutgoingSms>)
      requires Valid()
      modifies this
      ensures Valid()
      ensures cycles == [] ==> batteryVoltage == old(batteryVoltage)
      ensures cycles != [] ==> batteryVoltage == ClampBattery(cycles[|cycles| - 1].batteryEstimate)
      ensures Run(old(alertSent), cycles) == RunState(messages, alertSent)
      ensures transmitted == old(transmitted) + messages
      ensures smsCount == old(smsCount) + |messages|
    {
      messages := [];
      for i := 0 to |cycles|
        invariant Valid()
        invariant transmitted == old(transmitted) + messages
        invariant Run(old(alertSent), cycles[..i]) == RunState(messages, alertSent)
        invariant i == 0 ==> batteryVoltage == old(batteryVoltage)
        invariant i > 0 ==> batteryVoltage == ClampBattery(cycles[i - 1].batteryEstimate)
      {
        assert cycles[..i + 1][..i] == cycles[..i];
        var m := SensorCycle(cycles[i]);
        Associative(old(transmitted), messages, m);
        messages := messages + m;
      }
      assert cycles[..|cycles|] == cycles;
    }
  }

  /** Concatenation regroups; stated once so that the loops above need not
      prove it element by element in their larger context. */
  lemma Associative(a: seq<OutgoingSms>, b: seq<OutgoingSms>, c: seq<OutgoingSms>)
    ensures (a + b) + c == a + (b + c)
  {
  }

  lemma AsSmsAppend(alerts: seq<Alert>, a: Alert)
    ensures AsSms(alerts + [a]) == AsSms(alerts) + [AlertSms(a)]
  {
  }
}
