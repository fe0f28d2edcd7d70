# Solar-Surv cold-chain alerts: a verified model

Solar-Surv monitors vaccine refrigerators. This project models the deterministic parts of its demo programs in Dafny and proves properties about them:

- **Sensor node** (`sensor_node.dfy`, module `SensorNode`). The node checks a temperature and its stored battery voltage against the storage range 2.0–8.0 °C and the 3.3 V battery threshold, and gets back an ordered list of zero to two alerts. It sends one SMS per alert through its GSM module. A flag, `alert_sent`, holds back every "too hot" SMS while it is up. Any sent alert (hot, cold or battery) or the emergency button raises the flag, and only a pass with no alerts clears it. So a "too hot" SMS goes out only on a hot reading right after a quiet pass, or on the very first pass. The emergency button sends its own SMS. The stored battery voltage is never allowed below 3.0 V.
- **SMS receiver** (`sms_receiver.dfy`, module `SmsReceiver`). A button phone's inbox. Each record has a read flag, and a separate counter counts every alert ever received. The phone supports append on receive, bounds-checked mark-as-read and delete, and an inbox screen. The screen lists the last ten records with a 50-character preview and a NEW/READ label.
- **LoRa receiver** (`lora_receiver.dfy`, module `LoraReceiver`). It upserts each message into a device table keyed by device id. It maps a message's integer alert code to an alert message, with a fallback for unknown codes. Its demo loop picks one of three canned readings from the clock's seconds modulo 30.
- **Second LoRa receiver** (`lora_receiver_working.dfy`, module `LoraReceiverWorking`). It has its own copy of the scenario choice, which always writes device 1. It also tracks the set of connected dashboards.

Temperatures and voltages are `real`, because the code only compares them. Inputs that the programs take from randomness or the clock are parameters:

- the temperature read;
- the battery estimate before the clamp;
- whether the emergency button was pressed;
- the clock's seconds and milliseconds;
- the arrival time of an SMS.

The scenario choice reads the clock twice in the code but uses one clock value in the model. The sensor loop and both receivers' `simulate_lora_reception` loops become methods over a finite sequence of such inputs.

Classes whose fields the code updates in place carry ghost history to state their invariants:

- `SensorNode.transmitted` is every message handed to the GSM module. The invariant is `sms_count == |transmitted|`.
- `LoRaReceiver.processed` is every message processed. The invariant is `devices == Table(processed)`.

`SmsReceiver.Valid` states `len(received_sms) <= alert_count`, which every operation preserves.

`handle_alert` maps code 3 to the emergency and 4 to the low battery. The emergency button sends a separate SMS; it takes no priority over the other alerts.

## Model

| member | source | states |
|---|---|---|
| `SensorNode.CheckThresholds` | sms_system/sensor_node.py:58-81 | exactly one temperature alert when the temperature is out of range plus exactly one battery alert when the voltage is low, and nothing else; "too hot" first exactly when temperature > 8.0 (exactly 8.0 gives none); "too cold" first exactly when < 2.0; battery alert last exactly when voltage < 3.3; every alert after the first is the battery alert; no alerts exactly when 2.0 ≤ t ≤ 8.0 and voltage ≥ 3.3 |
| `SensorNode.ClampBattery` | sms_system/sensor_node.py:41 | the stored voltage is at least 3.0 and at least the estimate, and equals one of the two |
| `SensorNode.Deliver` | sms_system/sensor_node.py:110-113 | the alert loop over any list: afterwards the flag is up exactly when it was up before or the list was non-empty, since with the flag down the first alert always goes out |
| `SensorNode.DeliverSuppressesHotWhileFlagUp` | sms_system/sensor_node.py:110-113 | for any alert list: the flag ends up exactly when it started up or something was sent; with the flag up, every "too hot" alert is suppressed and all others are sent in order; with it down, the first alert is sent and then only "too hot" alerts are suppressed |
| `SensorNode.StepDelivery` | sms_system/sensor_node.py:107-113 | for a reading's alerts: the "too hot" alert is dropped exactly when the flag was up, every other alert is sent, and the flag is up after any alert |
| `SensorNode.CycleOutcome` | sms_system/sensor_node.py:103-127 | one pass of the loop: the reading's alerts minus a "too hot" one while the flag is up, then the emergency SMS if the button was pressed; the flag afterwards is up exactly when the reading raised an alert or the button was pressed (`Raises`) |
| `SensorNode.QuietPassSendsNothing` | sms_system/sensor_node.py:116-127 | a reading inside all thresholds, without the button, sends nothing and leaves the flag down |
| `SensorNode.HotAlertOnlyAfterQuietPass` | sms_system/sensor_node.py:110-117 | a hot reading sends its "too hot" SMS exactly when the previous pass neither raised an alert nor saw the button |
| `SensorNode.Run` | sms_system/sensor_node.py:100-129 | the loop over a run of passes, each from the flag the previous one left: an empty run keeps the flag, and after a non-empty run the flag depends only on the last pass |
| `SensorNode.SensorNode.constructor` | sms_system/sensor_node.py:13-21 | a new node holds 3.8 V, flag down, no SMS sent |
| `SensorNode.SensorNode.CheckBattery` | sms_system/sensor_node.py:38-42 | stores the clamped estimate, so the voltage is at least 3.0 afterwards |
| `SensorNode.SensorNode.SendSms` | sms_system/sensor_node.py:44-46 | the counter grows by exactly one and the message is appended to the transmitted log |
| `SensorNode.SensorNode.SimulateEmergencyButton` | sms_system/sensor_node.py:83-87 | exactly one SMS, the emergency message, and the flag is up |
| `SensorNode.SensorNode.SendAlerts` | sms_system/sensor_node.py:110-117 | sends exactly the alerts `Deliver` passes, one SMS each, and leaves the flag down after an empty list |
| `SensorNode.SensorNode.SensorStep` | sms_system/sensor_node.py:103-117 | stores the clamped voltage; sends what `Deliver` passes, which is the reading's alerts minus the "too hot" one when the flag was up; the flag afterwards is "this reading raised an alert" |
| `SensorNode.SensorNode.SensorCycle` | sms_system/sensor_node.py:103-127 | one pass, emergency included, sends exactly the messages of `CycleOutcome` (the reading's alerts, minus the "too hot" one while the flag is up, then the emergency SMS if the button was pressed) and leaves its flag; the stored voltage is the clamped estimate, so at least 3.0 V |
| `SensorNode.SensorNode.RunSensorLoop` | sms_system/sensor_node.py:100-129 | a run of passes sends exactly the messages of `Run`, in order, and leaves its flag; the SMS count grows by their number; the stored voltage is the last pass's clamped estimate (unchanged for an empty run) |
| `SmsReceiver.Preview` | sms_system/sms_receiver.py:60 | the preview is a prefix of the message, of length min(50, message length) |
| `SmsReceiver.ShowSmsInbox` | sms_system/sms_receiver.py:48-61 | "No messages" exactly for an empty inbox; otherwise min(10, n) lines, line k labelled k and showing the stored record at `ShownIndex` (the last ten, in stored order), NEW exactly when unread, with the record's time, sender and preview |
| `SmsReceiver.ShownIndex` | sms_system/sms_receiver.py:57 | a label shown on the screen names an index inside the inbox |
| `SmsReceiver.ShownIndexSelectsShownLine` | sms_system/sms_receiver.py:57-61 | line `number` shows the record at `ShownIndex`; with at most ten messages that is the index the prompt computes |
| `SmsReceiver.TypedIndex` | sms_system/sms_receiver.py:87 | the prompts' index is the typed number minus one, so labels 1 to 10 select among the first ten records of the whole list, whatever the screen shows |
| `SmsReceiver.TypedIndexMissesShownLine` | sms_system/sms_receiver.py:98 | with more than ten messages, typing a listed label selects an earlier record than the one shown, and typing 1 selects a record the screen does not list |
| `SmsReceiver.ReceivedIsListedLastAsNew` | sms_system/sms_receiver.py:17-28 | a message just received is the last line of the screen and is labelled NEW |
| `SmsReceiver.MarkedRead` | sms_system/sms_receiver.py:63-67 | same length; in range, only record `index` changes, and only its read flag; out of range, nothing changes |
| `SmsReceiver.MarkedReadIdempotent` | sms_system/sms_receiver.py:63-67 | marking twice equals marking once, and no record becomes unread |
| `SmsReceiver.Deleted` | sms_system/sms_receiver.py:99-100 | in range: one shorter, the same multiset minus that record, and the others kept in their relative order; out of range, unchanged |
| `SmsReceiver.SmsReceiver.constructor` | sms_system/sms_receiver.py:12-15 | empty inbox, zero alerts |
| `SmsReceiver.SmsReceiver.ReceiveSms` | sms_system/sms_receiver.py:17-28 | appends exactly one unread record at the end, earlier records unchanged, and the alert count grows by one |
| `SmsReceiver.SmsReceiver.MarkAsRead` | sms_system/sms_receiver.py:63-67 | the new inbox is `MarkedRead` of the old one; reports whether the index was in range |
| `SmsReceiver.SmsReceiver.DeleteMessage` | sms_system/sms_receiver.py:95-101 | the new inbox is `Deleted` of the old one; the alert count is untouched, so it stays at least the inbox size |
| `LoraReceiver.HandleAlert` | solar-surv/receiver/lora_receiver.py:78-88 | 1 is too hot, 2 too cold, 3 emergency, 4 battery low (each quoting its value), and every other code gives "Unknown alert" |
| `LoraReceiver.SimulatedReading` | solar-surv/receiver/lora_receiver.py:21-61 | device 1, the given timestamp, no button; s mod 30 below 10 gives 4.2 °C / 3.8 V with type 0, 10–19 gives 9.1 °C / 3.7 V with type 1, 20–29 gives 1.5 °C / 3.6 V with type 2; alert active exactly when the type is not 0 |
| `LoraReceiver.SimulatedReadingPeriodic` | solar-surv/receiver/lora_receiver.py:25-38 | the choice repeats every 30 seconds |
| `LoraReceiver.SimulatedReadingMatchesThresholds` | solar-surv/receiver/lora_receiver.py:24-61 | each canned reading's type is the alert the sensor node's thresholds give for its values, and an active one has a known alert message |
| `LoraReceiver.Table` | solar-surv/receiver/lora_receiver.py:67-68 | the table after processing messages in order; the last message is always stored under its own device id |
| `LoraReceiver.TableKeys` | solar-surv/receiver/lora_receiver.py:67-68 | after any sequence of messages, the table's keys are exactly the device ids seen |
| `LoraReceiver.TableHoldsLatest` | solar-surv/receiver/lora_receiver.py:67-68 | each device's entry is its last message in the sequence |
| `LoraReceiver.LoRaReceiver.constructor` | solar-surv/receiver/lora_receiver.py:12-15 | empty table, running |
| `LoraReceiver.LoRaReceiver.ProcessMessage` | solar-surv/receiver/lora_receiver.py:65-76 | `devices[deviceId]` becomes the message and no other key changes; an alert is reported exactly when `alertActive`, namely `HandleAlert` of the message |
| `LoraReceiver.LoRaReceiver.SimulateLoraReception` | solar-surv/receiver/lora_receiver.py:17-63 | each clock sample processes `SimulatedReading` of it, in order; alert notices exactly for the active ones; the table gains at most key 1 |
| `LoraReceiverWorking.SelectReading` | lora_receiver_working.py:36-66 | the same three fixed readings, with thresholds at 10 and 20 seconds; device 1; active exactly when the type is not 0 |
| `LoraReceiverWorking.SelectReadingAgrees` | lora_receiver_working.py:37-66 | this copy chooses exactly the reading of the first receiver |
| `LoraReceiverWorking.LoRaReceiver.constructor` | lora_receiver_working.py:10-13 | empty table, running, no clients |
| `LoraReceiverWorking.LoRaReceiver.ClientConnected` | lora_receiver_working.py:17 | the client is added to the connected set |
| `LoraReceiverWorking.LoRaReceiver.ClientDisconnected` | lora_receiver_working.py:26 | the client is removed; discarding an absent client changes nothing |
| `LoraReceiverWorking.LoRaReceiver.SimulateLoraReception` | lora_receiver_working.py:35-68 | keys stay within {1}; after a non-empty run, the table is exactly device 1 mapped to the last selected reading |

## Findings

| source | as written | input that shows it | evidently intended | confidence | as-written member | corrected member |
|---|---|---|---|---|---|---|
| sms_system/sms_receiver.py:87 and :98 | the screen labels lines 1–10 over the last ten records (`received_sms[-10:]` numbered from 1), but the read and delete prompts turn a typed label n into list index n − 1 | an inbox of 11 messages: line 1 shows record index 1, yet typing 1 reads or deletes record index 0, which is not listed | the typed label selects the record shown under it, the list index count − min(10, count) + n − 1 | medium, not executed | `SmsReceiver.TypedIndexMissesShownLine` | `SmsReceiver.ShownIndexSelectsShownLine` |

The as-written prompt mapping is `TypedIndex`; the screen's own numbering, which a corrected prompt would use, is `ShownIndex`. `DeleteMessage` and `MarkAsRead` take the list index that the menu's prompt computes (`TypedIndex`). `ShownIndex` is how the screen itself numbers its lines; a corrected prompt would use it, and `ShownIndexSelectsShownLine` proves that it then selects the record shown under the typed label.

## Left out

- Printing, the `datetime` / `strftime` formatting, `time.sleep`, and the phone's vibrate/ring notification: output only. Alert and SMS texts are modelled as a kind plus the quoted value, not as formatted strings. The inbox preview omits the literal "..." that the screen prints after it.
- `read_temperature`, the battery drain formula, the 5% emergency chance and `time.time()`: random or clock-driven, so they are parameters. `check_battery` keeps only the `max(3.0, …)` clamp. The drain formula subtracts a tenth of a volt per hour of epoch time (`time.time()`), not of running time, so its estimate is far below 3.0 and the clamp stores 3.0 on every pass; every pass then raises the battery alert, the flag never clears and no "too hot" SMS follows the first pass. The model's contracts hold for every estimate, this one included. Its rounded return value is used only for display, so it is not modelled.
- The SMS cost (`sms_count * 0.02`): a float used only for display.
- `input()` parsing, the `ValueError` handling and the menu dispatch of the button-phone interface: only the inbox operations they lead to are modelled. The read option's display of one message is left out; its effect is `MarkAsRead`.
- In Python each inbox record is a mutable dict and `mark_as_read` edits it in place. In the model a record is a value, and the inbox is a sequence that `MarkAsRead` reassigns. Nothing else holds a reference to a record, so no aliasing is lost.
- The `running` flag is never cleared inside the loops. In the source only a keyboard interrupt ends them, so the sensor loop and the two `simulate_lora_reception` loops are modelled over a finite input sequence.
- Default arguments are not modelled: the node's `device_id=1, phone_number="+1234567890"`, the phone's `phone_number="+1234567890"` and `receive_sms`'s `sender="Solar-Surv"`. The model's constructors and `ReceiveSms` take these values explicitly, and no proved property depends on them.
- `LoRaReceiver.alerts` in solar-surv/receiver/lora_receiver.py is initialised and never used, so it is not modelled.
- The websocket server, the async `handle_client` resend loop and the threads in lora_receiver_working.py: network I/O and concurrency. Only the add/discard bookkeeping of `connected_clients` is kept, and a connection is an opaque identity. The file ends mid-statement at line 83.
- sms_system/demo_sms_system.py and web_dashboard/dashboard_server.py are not part of this model: scripted prints and an HTTP server.
