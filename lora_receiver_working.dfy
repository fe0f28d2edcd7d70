/** The second LoRa receiver, which also serves the device table to dashboard
    connections: its demo loop chooses one of the same three canned readings
    and stores it under device 1, and it keeps the set of connected
    dashboards. */
module LoraReceiverWorking {
  import LoraReceiver

  type Reading = LoraReceiver.Reading

  /** A dashboard connection, known only by its identity. */
  type Connection = nat

  /** This receiver's own copy of the scenario choice: normal below second 10
      of each half minute, hot below 20, cold otherwise. */
  function SelectReading(seconds: int, timestampMs: int): (r: Reading)
    ensures r.deviceId == 1 && r.timestamp == timestampMs
    ensures r.alertActive <==> r.alertType != 0
    ensures r.alertType == 0 <==> seconds % 30 < 10
    ensures r.alertType == 1 <==> 10 <= seconds % 30 < 20
    ensures r.alertType == 2 <==> 20 <= seconds % 30
    ensures !r.emergencyPressed
    ensures r.alertType == 0 ==> r.temperature == 4.2 && r.batteryVoltage == 3.8
    ensures r.alertType == 1 ==> r.temperature == 9.1 && r.batteryVoltage == 3.7
    ensures r.alertType == 2 ==> r.temperature == 1.5 && r.batteryVoltage == 3.6
  {
    if seconds % 30 < 10 then
      LoraReceiver.Reading(1, timestampMs, 4.2, 3.8, false, false, 0)
    else if seconds % 30 < 20 then
      LoraReceiver.Reading(1, timestampMs, 9.1, 3.7, false, true, 1)
    else
      LoraReceiver.Reading(1, timestampMs, 1.5, 3.6, false, true, 2)
  }

  /** Both receivers produce the same reading for the same clock. */
  lemma SelectReadingAgrees(seconds: int, timestampMs: int)
    ensures SelectReading(seconds, timestampMs) == LoraReceiver.SimulatedReading(seconds, timestampMs)
  {
  }

  class LoRaReceiver {
    var devices: map<int, Reading>
    var running: bool
    var connectedClients: set<Connection>

    /** Only device 1 is ever written. */
    ghost predicate Valid()
      reads this
    {
      devices.Keys <= {1}
    }

    constructor ()
      ensures Valid() && devices == map[] && running && connectedClients == {}
    {
      devices := map[];
      running := true;
      connectedClients := {};
    }

    /** A dashboard connects. */
    method ClientConnected(client: Connection)
      modifies this`connectedClients
      ensures connectedClients == old(connectedClients) + {client}
    {
      connectedClients := connectedClients + {client};
    }

    /** A dashboard's connection closed; discarding an absent one is a no-op. */
    method ClientDisconnected(client: Connection)
      modifies this`connectedClients
      ensures connectedClients == old(connectedClients) - {client}
      ensures client !in old(connectedClients) ==> connectedClients == old(connectedClients)
    {
      connectedClients := connectedClients - {client};
    }

    /** The demo loop over a finite run of clock readings: each one overwrites
        device 1 with the reading it selects, so afterwards the table holds
        just the last one. */
    method SimulateLoraReception(clock: seq<LoraReceiver.ClockSample>)
      requires Valid()
      modifies this`devices
      ensures Valid()
      ensures clock == [] ==> devices == old(devices)
      ensures clock != [] ==>
                var last := clock[|clock| - 1];
                devices == map[1 := SelectReading(last.seconds, last.millis)]
    {
      var i := 0;
      while i < |clock|
        invariant 0 <= i <= |clock| && Valid()
        invariant i == 0 ==> devices == old(devices)
        invariant i > 0 ==> devices == map[1 := SelectReading(clock[i - 1].seconds, clock[i - 1].millis)]
      {
        var data := SelectReading(clock[i].seconds, clock[i].millis);
        devices := devices[1 := data];
        i := i + 1;
      }
    }
  }
}
