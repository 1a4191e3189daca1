# TCP client: connection state, coordinator and screens, in Dafny

This project models the logic of a small Android TCP client. The client opens
one TCP connection to a host and port, sends text lines and shows the text
chunks it receives. It also has a pickup-code screen that sends
`PICKUP:<4 digits>` to the server. Four parts are modelled:

- **Observable connection state** (`connection_state.dfy`, module
  `ConnectionState`). This is a class with six fields: connected flag,
  server address, server port, received log, sent log and status text. Each
  mutator replaces some fields. `View()` gives the six fields as one value.
  Each mutator's postcondition states the whole new `View()` in terms of the
  old one.
- **Connection coordinator** (`connection_manager.dfy`, module
  `ConnectionManager`). Each command is one atomic step over an abstract TCP
  client. The client's outcomes are parameters: whether connect succeeds,
  whether a write succeeds, what one non-blocking poll yields (`Poll`), and
  whether the socket is still open. The class keeps the client's own
  connected flag, every launched receive job (`jobs`) and the coordinator's
  reference to the current job (`receiveJob`). Each command is specified by
  a pure step function (`ConnectStep`, `DisconnectStep`, `SendStep`,
  `ClearStep`, `IterationStep`, `ExitStep`). Lemmas about these functions
  state the properties. The class invariant `JobsConsistent` says that every
  running job is the referenced one, so at most one receive loop runs.
- **Pickup-code keypad** (`pickup_code.dfy`, module `PickupCode`). The code
  buffer is a string of at most four decimal digits. The 3x3 block has keys
  1..9, and the last row has clear, 0 and delete. Confirm forwards
  `"PICKUP:" + code` to the coordinator.
- **Client screen** (`client_screen.dfy`, module `ClientScreen`). This part
  covers the loop that merges the received and sent logs into one tagged
  list (`MergeMessages`, specified by `Interleave`). It also covers the
  port-text fallback to 8080 and the connect/disconnect toggle, clear and
  send handlers.

Two helper modules support them. `text.dfy` (module `Text`) holds Kotlin's
`Int` as `int32`, `Int.toString()` (`Decimal`), `String.toIntOrNull()`
(`ParseInt`) and `String.isBlank()` (`IsBlank`, using the JVM's whitespace
set). `wrappers.dfy` holds `Option`, which stands for Kotlin's nullable
values.

Status texts are the literal strings the code sets, for example `"未连接"`
and `"消息已发送"`.

In three places the model follows details of the code that are easy to
miss:

- `connect` stops the previous receive job only when the new connection
  succeeds (inside `startMessageReceiving`). A failed connect leaves the old
  job referenced. The old job's loop then ends on its own, because the
  client disconnected itself before the attempt (`ConnectOutcome`, case
  `!ok`).
- `disconnect` cancels the job but does not wait for it to stop. The job's
  `finally` block is a separate step (`ReceiveExit`) that may run later.
- An orderly close by the server is never noticed. The loop polls
  `available()`, which is 0 at end of stream, so `read` is never called and
  neither -1 nor a `SocketException` appears. `isConnected()` reflects only
  the local socket, so the loop keeps polling. The loop stops on a
  connection problem only when a read raises a `SocketException` (`Poll`'s
  `Reset`) or the local socket was closed (`socketOpen` false).

## Model

| member | source | states |
|---|---|---|
| `ConnectionState.TcpConnectionState.constructor` | app/src/main/java/com/example/tcp/network/TcpConnectionState.kt:12-33 | the six fields start as `InitialView()` |
| `ConnectionState.InitialIsDisconnected` | app/src/main/java/com/example/tcp/network/TcpConnectionState.kt:12-33 | initially disconnected, empty address, port 0, both logs empty, status "未连接" |
| `ConnectionState.TcpConnectionState.UpdateConnectionState` | app/src/main/java/com/example/tcp/network/TcpConnectionState.kt:38-41 | the new state is `WithConnection` of the old one: only the flag and the derived status change |
| `ConnectionState.WithConnectionFrame` | app/src/main/java/com/example/tcp/network/TcpConnectionState.kt:38-41 | flag set as given; status "已连接到 " + address + ":" + port when connected, "未连接" otherwise; address, port and logs unchanged |
| `ConnectionState.ConnectedStatusDiffers` | app/src/main/java/com/example/tcp/network/TcpConnectionState.kt:40 | the connected status text never equals the disconnected one |
| `ConnectionState.TcpConnectionState.SetServerInfo` | app/src/main/java/com/example/tcp/network/TcpConnectionState.kt:46-49 | only address and port change |
| `ConnectionState.TcpConnectionState.AddReceivedMessage` | app/src/main/java/com/example/tcp/network/TcpConnectionState.kt:54-56 | received log becomes old log + [message]; every other field unchanged |
| `ConnectionState.TcpConnectionState.AddSentMessage` | app/src/main/java/com/example/tcp/network/TcpConnectionState.kt:61-63 | sent log becomes old log + [message]; every other field unchanged |
| `ConnectionState.TcpConnectionState.UpdateStatusMessage` | app/src/main/java/com/example/tcp/network/TcpConnectionState.kt:68-70 | only the status changes |
| `ConnectionState.TcpConnectionState.ClearMessages` | app/src/main/java/com/example/tcp/network/TcpConnectionState.kt:75-78 | the new state is `Cleared` of the old one |
| `ConnectionState.ClearedIdempotent` | app/src/main/java/com/example/tcp/network/TcpConnectionState.kt:75-78 | both logs empty; flag, address, port and status kept; clearing twice equals clearing once |
| `ConnectionManager.TcpConnectionManager.constructor` | app/src/main/java/com/example/tcp/network/TcpConnectionManager.kt:10-13 | fresh state object, client disconnected, no job, invariant holds |
| `ConnectionManager.TcpConnectionManager.Connect` | app/src/main/java/com/example/tcp/network/TcpConnectionManager.kt:28-40 | keeps the job invariant; new state is `ConnectStep` |
| `ConnectionManager.ConnectOutcome` | app/src/main/java/com/example/tcp/network/TcpConnectionManager.kt:28-40 | address and port are recorded; connected flag equals the attempt's result; a new job is running and referenced iff it succeeded, and every earlier job is stopped; on failure jobs and reference are untouched and status is "未连接" |
| `ConnectionManager.TcpConnectionManager.Disconnect` | app/src/main/java/com/example/tcp/network/TcpConnectionManager.kt:45-52 | keeps the job invariant; new state is `DisconnectStep` |
| `ConnectionManager.DisconnectOutcome` | app/src/main/java/com/example/tcp/network/TcpConnectionManager.kt:45-52 | no reference, no running job, client and flag disconnected, status "已断开连接"; target and logs unchanged |
| `ConnectionManager.DisconnectIdempotent` | app/src/main/java/com/example/tcp/network/TcpConnectionManager.kt:45-52 | disconnecting twice gives the same state as once |
| `ConnectionManager.TcpConnectionManager.SendMessage` | app/src/main/java/com/example/tcp/network/TcpConnectionManager.kt:58-72 | keeps the job invariant; new state is `SendStep` |
| `ConnectionManager.SendBlankIsDropped` | app/src/main/java/com/example/tcp/network/TcpConnectionManager.kt:59 | a blank message leaves the whole state unchanged |
| `ConnectionManager.SendOutcome` | app/src/main/java/com/example/tcp/network/TcpConnectionManager.kt:61-71 | sent log grows by one iff the client is connected and the write succeeds; the new entry is the message and the status is "消息已发送"; otherwise the log is kept and the status is "消息发送失败"; received log, flags, target and jobs never change |
| `ConnectionManager.SendWithSilentWriter` | app/src/main/java/com/example/tcp/network/TcpClient.kt:66-71 | with the write reporting success, as the client's writer always does, a non-blank message is logged with "消息已发送" exactly when the client's own flag is set, and otherwise "消息发送失败" is shown |
| `ConnectionManager.StepsKeepJobsConsistent` | app/src/main/java/com/example/tcp/network/TcpConnectionManager.kt:58-72 | send and clear keep the job invariant |
| `ConnectionManager.TcpConnectionManager.StartMessageReceiving` | app/src/main/java/com/example/tcp/network/TcpConnectionManager.kt:77-83 | keeps the job invariant; new state is `StartReceiving` |
| `ConnectionManager.StartReceivingLaunchesOne` | app/src/main/java/com/example/tcp/network/TcpConnectionManager.kt:77-83 | the previous job is stopped first; afterwards only the new job runs and it is referenced |
| `ConnectionManager.AtMostOneRunning` | app/src/main/java/com/example/tcp/network/TcpConnectionManager.kt:77-83 | under the invariant, two running jobs are the same job |
| `ConnectionManager.TcpConnectionManager.StopMessageReceiving` | app/src/main/java/com/example/tcp/network/TcpConnectionManager.kt:116-119 | keeps the job invariant; new state is `StopReceiving` |
| `ConnectionManager.StopReceivingStopsAll` | app/src/main/java/com/example/tcp/network/TcpConnectionManager.kt:116-119 | reference cleared and no job running; connection state untouched |
| `ConnectionManager.TcpConnectionManager.ReceiveIteration` | app/src/main/java/com/example/tcp/network/TcpConnectionManager.kt:86-98 | keeps the job invariant; new state and continue flag are `IterationStep` |
| `ConnectionManager.IterationOutcome` | app/src/main/java/com/example/tcp/network/TcpConnectionManager.kt:86-98 | with the guard holding, a non-empty chunk is appended to the end of the received log with status "收到新消息" and the loop goes on; a null or empty chunk appends nothing; with the guard failing nothing changes and the loop stops; sent log, target and jobs never change |
| `ConnectionManager.IterationOnReset` | app/src/main/java/com/example/tcp/network/TcpClient.kt:103-106 | a read that reports the connection closed disconnects the client and ends the loop |
| `ConnectionManager.TcpConnectionManager.ReceiveExit` | app/src/main/java/com/example/tcp/network/TcpConnectionManager.kt:99-109 | keeps the job invariant; new state is `ExitStep` |
| `ConnectionManager.ExitOutcome` | app/src/main/java/com/example/tcp/network/TcpConnectionManager.kt:102-109 | when the client no longer reports connected: client disconnected, flag false, status "连接已断开", logs untouched; when it still does and no error was caught, the connection state is unchanged; the job no longer runs |
| `ConnectionManager.TcpConnectionManager.ClearMessages` | app/src/main/java/com/example/tcp/network/TcpConnectionManager.kt:124-126 | new state is `ClearStep`; connection untouched |
| `Text.ParseDecimal` | app/src/main/java/com/example/tcp/ui/TcpClientScreen.kt:64 | `toIntOrNull` of `toString` of any `Int` is that `Int` |
| `Text.ParseComplete` | app/src/main/java/com/example/tcp/ui/TcpClientScreen.kt:64 | `toIntOrNull` of an optionally signed digit run is non-null iff its value fits in an `Int`, and then it is that value |
| `Text.ParseRejects` | app/src/main/java/com/example/tcp/ui/TcpClientScreen.kt:64 | `toIntOrNull` of any text that is not an optionally signed digit run is null |
| `ClientScreen.PortOrDefaultReadsPrintedPort` | app/src/main/java/com/example/tcp/ui/TcpClientScreen.kt:64 | a port's own decimal text yields that port |
| `ClientScreen.PortOrDefaultReadsIntegerText` | app/src/main/java/com/example/tcp/ui/TcpClientScreen.kt:64 | optionally signed digit text whose value fits in an `Int` yields that value, with a leading '+' or zeros allowed |
| `ClientScreen.PortOrDefaultFallsBack` | app/src/main/java/com/example/tcp/ui/TcpClientScreen.kt:64 | every other text yields 8080: empty text, a lone sign, a non-digit anywhere after an optional leading sign, and digit runs outside the `Int` range |
| `ClientScreen.MergeMessages` | app/src/main/java/com/example/tcp/ui/TcpClientScreen.kt:245-265 | the two-index loop computes `Interleave(received, sent)`, of length \|received\| + \|sent\| |
| `ClientScreen.PassUnfold` | app/src/main/java/com/example/tcp/ui/TcpClientScreen.kt:253-261 | one pass at indices ri, si takes the front of each log that still has one and moves that log's index past it |
| `ClientScreen.PassKeepsMerge` | app/src/main/java/com/example/tcp/ui/TcpClientScreen.kt:252-262 | appending one pass's fronts to a merged prefix keeps prefix + merge of the rests equal to the merge of both logs |
| `ClientScreen.InterleaveLength` | app/src/main/java/com/example/tcp/ui/TcpClientScreen.kt:252-262 | the merged list has length \|received\| + \|sent\| |
| `ClientScreen.InterleaveEmpty` | app/src/main/java/com/example/tcp/ui/TcpClientScreen.kt:245-272 | the merged list is empty, and the placeholder shows, iff both logs are empty |
| `ClientScreen.InterleaveSplitsBack` | app/src/main/java/com/example/tcp/ui/TcpClientScreen.kt:253-261 | the received-tagged entries are exactly the received log in order; the sent-tagged ones are exactly the sent log |
| `ClientScreen.InterleaveAlternates` | app/src/main/java/com/example/tcp/ui/TcpClientScreen.kt:252-262 | for i below both lengths, position 2i is (received[i], true) and 2i+1 is (sent[i], false) |
| `ClientScreen.InterleaveTail` | app/src/main/java/com/example/tcp/ui/TcpClientScreen.kt:252-262 | from position 2·min on, the list is the rest of the longer log, tagged, in order |
| `ClientScreen.InterleaveOneSided` | app/src/main/java/com/example/tcp/ui/TcpClientScreen.kt:252-262 | with one log empty the list is the other log, tagged |
| `ClientScreen.TcpClientScreen.constructor` | app/src/main/java/com/example/tcp/ui/TcpClientScreen.kt:37-39 | inputs start as "192.168.4.1", "8080" and "" |
| `ClientScreen.TcpClientScreen.ClickConnect` | app/src/main/java/com/example/tcp/ui/TcpClientScreen.kt:61-68 | when disconnected: connect to the typed address and the parsed-or-8080 port; when connected: disconnect; never both |
| `ClientScreen.TcpClientScreen.ClickClear` | app/src/main/java/com/example/tcp/ui/TcpClientScreen.kt:69-71 | delegates to the coordinator's clear |
| `ClientScreen.TcpClientScreen.ClickSend` | app/src/main/java/com/example/tcp/ui/TcpClientScreen.kt:92-103 | a non-blank input while connected is sent and the input becomes ""; otherwise input and coordinator state are unchanged |
| `PickupCode.KeyNumberInRange` | app/src/main/java/com/example/tcp/ui/PickupCodeScreen.kt:186-192 | every key of the 3x3 block carries row*3+col in 1..9, and `KeyPosition` leads back to that key |
| `PickupCode.KeyPositionInverse` | app/src/main/java/com/example/tcp/ui/PickupCodeScreen.kt:186-192 | every number 1..9 is on a key of the block, so the block shows exactly 1..9 |
| `PickupCode.SingleDigitDecimal` | app/src/main/java/com/example/tcp/ui/PickupCodeScreen.kt:194-197 | a key's number prints as one decimal digit |
| `PickupCode.PressKeepsCodeValid` | app/src/main/java/com/example/tcp/ui/PickupCodeScreen.kt:196-198 | a digit press keeps at most 4 digits; below 4 it appends exactly that digit, at 4 it changes nothing |
| `PickupCode.DeleteUndoesPress` | app/src/main/java/com/example/tcp/ui/PickupCodeScreen.kt:229-233 | delete drops exactly the last digit, is a no-op on "", keeps the code valid and undoes an accepted press |
| `PickupCode.ConfirmSendsPickup` | app/src/main/java/com/example/tcp/ui/PickupCodeScreen.kt:246-251 | a message is produced iff the code has 4 digits and the client is connected; it is "PICKUP:" + code, never blank, and the code can be read back from it |
| `PickupCode.ShownFromIsSuffix` | app/src/main/java/com/example/tcp/ui/PickupCodeScreen.kt:141-175 | boxes i..3 show the code's digits from i on |
| `PickupCode.BoxesShowCode` | app/src/main/java/com/example/tcp/ui/PickupCodeScreen.kt:141-175 | box i is active iff i < code length, and the four boxes show exactly the code |
| `PickupCode.PickupCodeScreen.constructor` | app/src/main/java/com/example/tcp/ui/PickupCodeScreen.kt:36 | the code starts empty |
| `PickupCode.PickupCodeScreen.ConfirmEnabled` | app/src/main/java/com/example/tcp/ui/PickupCodeScreen.kt:251 | the confirm button is enabled exactly when confirming would send |
| `PickupCode.PickupCodeScreen.PressNumberKey` | app/src/main/java/com/example/tcp/ui/PickupCodeScreen.kt:191-199 | appends the key's number while under 4 digits; the code stays valid |
| `PickupCode.PickupCodeScreen.PressZeroKey` | app/src/main/java/com/example/tcp/ui/PickupCodeScreen.kt:217-224 | appends "0" while under 4 digits; the code stays valid |
| `PickupCode.PickupCodeScreen.PressClear` | app/src/main/java/com/example/tcp/ui/PickupCodeScreen.kt:211-214 | the code becomes "" from any state |
| `PickupCode.PickupCodeScreen.PressDelete` | app/src/main/java/com/example/tcp/ui/PickupCodeScreen.kt:227-234 | the code becomes `DeleteLast` of the old code |
| `PickupCode.PickupCodeScreen.PressConfirm` | app/src/main/java/com/example/tcp/ui/PickupCodeScreen.kt:244-250 | with a 4-digit code while connected, the coordinator performs `SendStep` on "PICKUP:" + code; otherwise its state is unchanged; the code is kept |

## Left out

- Socket I/O of `TcpClient` (socket, reader and writer, `available()`,
  reading into a 1024-byte buffer, byte decoding). Its outcomes are
  parameters of the coordinator's methods: `connectOk`, `sendOk`, `Poll`
  and `socketOpen`.
- Coroutines. `launch`, `Dispatchers.IO`, `SupervisorJob`, `delay(50)` and
  the interleaving of launched commands are not modelled. Each command is
  one atomic step. A job's cancellation is modelled only through its
  `Running` state, which the loop guard checks.
- Transient status texts. "正在发送消息...", the connecting status and the
  connected status are set and then overwritten within a single step, so the
  model states only the final status of each step.
- `release()`. It launches `disconnect` and immediately cancels the scope
  that runs it. The outcome depends on scheduling, so it is not modelled.
- Exceptions. The exception text of the receive loop's `catch` is a
  parameter (`failure`). Printing stack traces is left out.
- StateFlow subscription and Compose rendering: layouts, colours,
  `LazyColumn` and scrolling, focus handling, and `remember` and
  `collectAsState`. The screens read the coordinator's fields directly.
- The text-field edit handlers (`serverIp = it`, `serverPort = it`,
  `messageToSend = it`). They are plain assignments to the screen's fields.
- `MainActivity.kt` (navigation and lifecycle wiring) is not part of this
  model.
- Text.ParseInt: only the ASCII digits '0'..'9' are accepted. Kotlin's
  `toIntOrNull` also accepts other Unicode decimal digits, such as
  full-width ones.
- The `socketOpen` and `Reset` parameters allow outcomes the code never
  produces for an orderly close by the server. So `ExitOutcome`'s teardown
  branch covers a server-side close only when a read raised a
  `SocketException`. A `socketOpen` that is false while the client's flag is
  set stands for a local close that races the loop.
- The `sendOk` parameter allows an outcome the code never produces: a failed
  write while the client's own flag is set. The client writes through a
  `PrintWriter`, which catches write errors itself and only sets an error
  flag that nothing reads. So in the program a non-blank send on a flagged
  client is always logged as sent, even when the peer is gone
  (`SendWithSilentWriter`), and "消息发送失败" appears only when the flag is
  clear.
