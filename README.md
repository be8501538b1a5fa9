# ProTee SDK client, modelled in Dafny

`ProTeeSDK.py` is a small Python client for the ProTee golf-simulator interface. A
`ProteeSDK` object keeps a TCP connection to the interface (port 9090) alive from a
background thread. The thread stores the telemetry the interface streams back: club,
distance to flag, surface, handedness, player, course and tour names. The object also
sends launch-monitor shots (`launch_ball`) as JSON messages. A text configuration
file supplies the server address and five per-club "boost" settings. When the caller
gives no drag, `get_current_drag_based_on_boost` turns the current club's boost into
the drag.

This project models that core and proves properties of it:

- `Configuration` (config.dfy): the per-line dispatch of `read_config_file`. It covers
  the "IP" lines and the first-keyword-wins boost lines, and the zero boosts used when
  no file exists.
- `DragDefault` (drag.dfy): `get_current_drag_based_on_boost`. This includes the
  Python behaviour of `in`, `len` and indexing on whatever JSON value the club holds,
  and the exception the tests can raise.
- `TelemetryFields` (telemetry.dfy): `parse_returned_data`. It includes the partial
  update that happens when the distance does not convert.
- `ReceiverThread` (receiver.dfy): `recv_data_thread` as a state machine with four
  phases (`OuterTop`, `InnerTop`, `Exited`, `Dead`), and `is_connected` and
  `disconnect` as functions of its state.
- `Shot` (shot.dfy): the `data` object of `launch_ball`, its JSON envelope, the shot
  counter and the value the call returns.
- `ProteeSdk` (protee_sdk.dfy): the `ProteeSDK` object as a class. Its methods update
  the fields in place as the source does, and each method's postcondition ties the new
  state to the functions above.
- `Text` (text.dfy): the Python string operations the core relies on (`in`, slicing,
  `rstrip()`, `str()` of an integer), with contracts and lemmas about them.
- `JsonValues` and `Wrappers` (json.dfy, wrappers.dfy): definitions only, with no
  lemmas. `JsonValues` defines the JSON values and how Python's `in`, `len`, indexing,
  `.get` and `float()` behave on them. `Wrappers` defines the `Option` type.

Where a documented behaviour and the code differ, the model follows the code. A line
of a received chunk that fails to decode does not just skip that line. The inner
handler catches the error, and the rest of the chunk is dropped
(`ReceiverThread.MalformedLineDropsRest`).

## Model

| member | source | states |
|---|---|---|
| Text.ContainsIffOccurs | ProTeeSDK.py:99 | `needle in line` holds exactly when the needle occurs at some index of the line |
| Text.RStrip | ProTeeSDK.py:100 | `rstrip()` returns a prefix of the line that does not end in whitespace, and everything it drops is whitespace |
| Text.DecimalRoundTrip | ProTeeSDK.py:219-220 | `str()` of the counter is a run of digits that reads back as the counter |
| Configuration.LineKeyIsFirstKeyword | ProTeeSDK.py:102-112 | a line names boost k exactly when it contains k's keyword and none of the keywords tested before it |
| Configuration.ApplyLine | ProTeeSDK.py:98-112 | a line sets the address to `line[3:].rstrip()` iff it contains "IP"; it sets the boost of its first keyword iff exactly one number was found; every other entry is unchanged |
| Configuration.ApplyConfigLinesAppend | ProTeeSDK.py:97-112 | the loop processes the lines in file order, one line after another |
| Configuration.LastLineWins | ProTeeSDK.py:96-112 | after the loop each boost holds the value of the last line that set it, or its old value if no line did; the address is that of the last "IP" line |
| Configuration.MissingFileZeroesBoosts | ProTeeSDK.py:113-122 | without a file every boost is 0.0 and the address is untouched |
| ProteeSdk.Sdk.ReadConfigFile | ProTeeSDK.py:85-122 | the loop leaves the configuration the file's lines give, or the zeroed boosts when there is no file |
| ProteeSdk.Sdk.constructor | ProTeeSDK.py:16-41 | the new object has counter 1, the initial telemetry, no socket, the file's configuration, and the given server address or else the configured one (default "localhost") |
| DragDefault.StringClubGroup | ProTeeSDK.py:127-138 | a club that is a string never makes the tests raise |
| DragDefault.StringClubFirstRule | ProTeeSDK.py:127-138 | a club name is in group k exactly when it passes k's test and no earlier test ("DR" in name; first char W; "I" in name; second char W; "PT" in name) |
| DragDefault.StringClubNoRule | ProTeeSDK.py:127-138 | a club name that passes no test has no group |
| DragDefault.Clamp | ProTeeSDK.py:140 | the clamp lies in [0, 2] and leaves values in [0, 2] alone |
| DragDefault.DefaultDrag | ProTeeSDK.py:124-142 | the default drag exists exactly when the club tests do not raise; it lies in [0, 2] and equals 1 - boost/100 when the boost is in [-100, 100], 0 when the boost is above 100 and 2 when it is below -100 |
| DragDefault.NoBoostGivesUnitDrag | ProTeeSDK.py:125-140 | a club in no group, or whose boost is not configured, gets drag 1.0 |
| TelemetryFields.FullReplacement | ProTeeSDK.py:153-160 | a message that parses determines all seven fields regardless of their old values; one that raises changes at most the club; one without a "data" dict changes nothing |
| TelemetryFields.FieldDefaults | ProTeeSDK.py:153-160 | each field takes the message's value for its key, and its initial value when the key is absent |
| TelemetryFields.EmptyDataResets | ProTeeSDK.py:153-160 | an empty "data" dict puts every field back to the constructor's value |
| TelemetryFields.ClubAndDistanceOnly | ProTeeSDK.py:153-160 | a message with only club and distance sets those two and defaults the rest |
| ProteeSdk.Sdk.ParseReturnedData | ProTeeSDK.py:153-160 | the fields are updated one by one as the parse function says, including the club written before a failed `float()` |
| ReceiverThread.StepConsistent | ProTeeSDK.py:162-197 | every iteration keeps the socket slot empty outside the inner loop and set inside it |
| ReceiverThread.ConnectedOnlyInsideInnerLoop | ProTeeSDK.py:47-52 | `is_connected` can hold only while the thread is in its inner loop, or after it died there |
| ReceiverThread.ApplyChunkFrame | ProTeeSDK.py:182-185 | a chunk changes only the received data, the telemetry and the timestamp, and either stays in the inner loop or ends the thread |
| ReceiverThread.MalformedLineDropsRest | ProTeeSDK.py:182-189 | the first line that does not decode ends the chunk; the lines before it keep their effect and the lines after it have none |
| ReceiverThread.GoodChunkEndsWithLastLine | ProTeeSDK.py:182-185 | a chunk of good lines leaves the state that its last line alone gives, stamped with the chunk's time |
| ReceiverThread.ChunkStamps | ProTeeSDK.py:182-185 | a chunk sets the timestamp exactly when its first line decodes and parses |
| ReceiverThread.StaleDisconnects | ProTeeSDK.py:174-176 | more than 2.5 s after the last data, the next iteration clears the timestamp and empties the socket slot, so `is_connected` is false |
| ReceiverThread.RecvFailuresReconnect | ProTeeSDK.py:190-197 | a broken socket, a timeout or a reset empties the socket slot and returns to the outer loop, keeping the timestamp |
| ReceiverThread.ReconnectKeepsStaleTimestamp | ProTeeSDK.py:164-197 | after a reconnect, `is_connected` holds again before any new data arrives |
| ReceiverThread.FinalPhasesStay | ProTeeSDK.py:164-197 | a thread that has exited or died changes nothing any more |
| ReceiverThread.BadMessageFreezesConnection | ProTeeSDK.py:182-185 | a message without a "data" dict kills the thread with the socket still set, so `is_connected` stays true for good |
| ReceiverThread.DisconnectEndsThread | ProTeeSDK.py:54-55 | after `disconnect` a live thread exits within two iterations with the socket slot empty |
| ReceiverThread.ClosedBeforeDataSpins | ProTeeSDK.py:174-179 | a peer that closes before sending data leaves the thread spinning in its inner loop without reconnecting |
| ProteeSdk.Sdk.IsConnected | ProTeeSDK.py:47-52 | `is_connected` is true exactly when a socket exists and a timestamp is set |
| ProteeSdk.Sdk.Disconnect | ProTeeSDK.py:54-55 | only the stay-connected flag changes, and the object stays consistent |
| ProteeSdk.Sdk.ProcessChunk | ProTeeSDK.py:182-189 | the loop over a chunk's lines leaves the state the chunk function gives |
| ProteeSdk.Sdk.ReceiverStep | ProTeeSDK.py:164-197 | one loop iteration moves the object to the next state and keeps it consistent |
| ProteeSdk.Sdk.RunReceiver | ProTeeSDK.py:162-197 | a run of iterations moves the object to the state the run gives |
| Shot.InsertionOrderIsShotData | ProTeeSDK.py:211-245 | filling the template key by key gives each required key its value, and each optional key its value exactly when that value is truthy |
| Shot.MessageRoundTrip | ProTeeSDK.py:211 | the message carries the PROTEE/EXT/MPH envelope, and its "data" object reads back as the data sent |
| Shot.RequiredFieldsPresent | ProTeeSDK.py:219-243 | every shot carries the counter twice, the five required arguments and the drag, as strings |
| Shot.OptionalFieldsPresent | ProTeeSDK.py:230-245 | an optional key is sent exactly when its value is truthy (0 and None are left out), with that value |
| Shot.MinimalShot | ProTeeSDK.py:211 | a shot with no optional values carries exactly the required keys |
| Shot.RepeatEchoesLaunchAngle | ProTeeSDK.py:214-235 | a repeat sends the launch angle as clubspeed and clubface, and neither key when the angle is 0 |
| Shot.CounterReadsBack | ProTeeSDK.py:219-220 | the counter is sent as digits that read back as the counter |
| Shot.LaunchReturns | ProTeeSDK.py:203-255 | the call returns True iff a socket exists, the send succeeds and the drag default did not raise; it raises only when the caller gave no drag and the club tests raise |
| Shot.LaunchDrag | ProTeeSDK.py:241-243 | a sent shot carries the caller's drag, 0 included, or else the default, which lies in [0, 2] |
| Shot.CountersFrom | ProTeeSDK.py:214-215 | over a run of calls the counter never goes below its start, and is above it after any non-repeat call |
| Shot.CountersIncrease | ProTeeSDK.py:214-215 | a later non-repeat call sends a strictly larger counter, written as a different string |
| ProteeSdk.Sdk.LaunchBall | ProTeeSDK.py:203-255 | the counter is bumped unless repeating, and the outcome is the one the shot function gives for the updated counter |

## Left out

- Sockets, threads and the clock are not modelled as such. The thread is a sequence of
  iterations, and each iteration's environment (clock reading, connection outcome, recv
  outcome) is a parameter. Interleaving between the thread and callers is not modelled.
- The model stamps all lines of a chunk with one clock reading. The source calls
  `time.time()` again for each line.
- UTF-8 decoding and `splitlines` are not modelled. A chunk arrives already split into
  lines. A decoding error counts as an uncaught `recv` exception.
- `json.loads` is not modelled: each line arrives already decoded, or as `None` when it
  does not decode.
- `json.dumps` is not modelled. The message is kept as a JSON value, so key order and
  separators on the wire are not modelled.
- `float()` on strings and `str()` on numbers are parameters (`parseFloat`, `show`).
  So whether an argument was an int or a float, and NaN or infinity, are not modelled.
- `str()` on the counter is modelled exactly (`Text.Decimal`).
- The regular expression that finds numbers in a configuration line is not modelled.
  Each line arrives with the numbers it found, already converted.
- Reading and writing the configuration file are not modelled. A missing file is
  `None`, and the default file the source writes is not modelled.
- `buffer_size` is not modelled.
- `__del__`, `print_tgc_info` and the `print` calls are left out (output only).
- `get_game_status` and the seven telemetry properties are plain field reads, modelled
  by the class fields.
- The `main` demo is left out.
- The telemetry fields other than the distance are kept as JSON values, as Python
  stores whatever the message holds.
