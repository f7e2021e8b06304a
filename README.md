# zwave-js core, modelled in Dafny

This project models the message-transaction core of zwave-js, a Z-Wave
controller library, and proves properties of that model. The model covers:

- **The send thread** (`SendThreadMachine`): a priority queue of transactions,
  the guard that keeps sleeping nodes' traffic back, the `beforeSend` /
  `handshake` / `execute` / `waitForUpdate` / `retryWait` / `done` states, the
  retry rule and the `reduce` mechanism.
- **The command queue** (`CommandQueueMachine`): one command at a time, and
  the Send Data abort after a callback timeout.
- **The driver façade** (`Driver`):
  - option defaults and their validation;
  - the ACK/NAK choice on a frame that fails to decode;
  - reassembly of partial (multi-report) commands;
  - the callback-id generator;
  - the encapsulation stack (Supervision, Multi Channel, Security) and its
    undoing;
  - the request-handler registry;
  - the checks `sendMessage` makes before queueing;
  - node-timeout handling;
  - the wake-up and reject reducers.
- **Send Data messages** (`SendDataMessages`): the singlecast and multicast
  request codecs, the transmit report and the response classification.
- **Node bookkeeping** (`Node`): status events, endpoints, wake-up state,
  Central Scene key handling and `sendNoMoreInformation`.
- **Command class codecs**, following the Z-Wave Application Command Class
  Specification (SDS13781): Wake Up, Central Scene, Configuration, Multi
  Channel, Version and Node Naming.
- **Device configuration validation** (`Devices`): the identity, the
  association and parameter sections of a device file, and the firmware
  version test.
- **Firmware extraction** (`firmware`): the format dispatch and the Aeotec
  file format.

The source's form is kept:

- The state machines and the objects whose fields change are classes with
  `modifies` clauses. The queue is a `seq` field kept sorted.
- The codecs and validators are functions over byte sequences and parsed
  JSON values.
- Loops in the source are `while` loops with invariants, each proved
  against a specification function. The properties of those functions are
  lemmas.

JavaScript behaviour is modelled where the source relies on it:

- A byte read past the end is `undefined`. Stored, it is `None` (`At`).
  As an operand of a bit operation it is 0 (`ByteOr0`).
- `slice` past the end is clipped.
- `readUIntBE` and `readUInt16BE` throw a RangeError when out of range.
- `<<` is a 32-bit signed shift.
- `Array.prototype.sort()` with no comparator sorts by string order.
- `parseInt(s, 16)` accepts a sign and a `0x` prefix, and reads the longest
  hexadecimal run. NaN is `None`.
- Loose `== undefined` matches both `null` and a missing value.

Bit operations are defined bit by bit in `Bytes` (`And`, `Or`, `Flag`).
The parsers and flag builders read them arithmetically: `b & 0x7f` is
`b % 128`, `b & 0b111` is `b % 8`, `b & 0x80` is set when `b >= 128`, and a
flags byte built from non-overlapping bits is their sum. A lemma proves each
reading equal to the bitwise operation the source performs
(`MultiChannelCC.BitsOfByte`, `ConfigurationCC.FlagsOfByte`,
`ConfigurationCC.SetFlagsIsOr`, `ConfigurationCC.BulkSetFlagsIsOr`).

## Modules

| file | module | source |
|---|---|---|
| wrappers.dfy | Wrappers | Option and Result |
| bytes.dfy | Bytes | bytes, big-endian integers, JavaScript byte and bit semantics |
| text.dfy | Text | substring search and decimal text |
| errors.dfy | Errors | the ZWaveErrorCodes that the model throws |
| types.dfy | NodeTypes | node ids, node status, interview stages |
| transactions.dfy | Transactions | transactions, message priorities and the sorted transaction queue |
| send_thread.dfy | SendThreadMachine | SendThreadMachine.ts |
| command_queue.dfy | CommandQueueMachine | CommandQueueMachine.ts |
| command_class.dfy | CommandClasses | command class ids and encapsulation chains |
| driver_options.dfy | DriverOptions | Driver.ts: options |
| driver_receive.dfy | DriverReceive | Driver.ts: receiving and partial commands |
| driver_send.dfy | DriverSend | Driver.ts: sending, encapsulation, reducers |
| driver_handlers.dfy | DriverRequestHandlers | Driver.ts: request handlers |
| send_data.dfy | SendDataMessages | SendDataMessages.ts |
| node.dfy | Node | Node.ts |
| wake_up_cc.dfy … node_naming_cc.dfy | WakeUpCC, CentralSceneCC, ConfigurationCC, MultiChannelCC, VersionCC, NodeNamingCC | the command classes |
| devices.dfy | Devices | config/src/Devices.ts |
| firmware.dfy | Firmware | core/src/util/firmware.ts |

## Model

| member | source | states |
|---|---|---|
| NodeTypes.CachedStage | src/lib/node/Node.ts:1250-1253 | RestartFromCache and every later stage are stored as Complete, every earlier stage as itself (both directions) |
| Transactions.Insert | packages/zwave-js/src/lib/driver/SendThreadMachine.ts:596-599 | adding a transaction to the sorted queue gives the old queue plus that transaction, as a multiset |
| Transactions.InsertSorted | packages/zwave-js/src/lib/driver/SendThreadMachine.ts:596-599 | adding to a queue sorted by the comparator keeps it sorted |
| Transactions.InsertAppends | packages/zwave-js/src/lib/driver/SendThreadMachine.ts:596-599 | a transaction that ranks no earlier than the last queued one goes to the end |
| Transactions.InsertAll | packages/zwave-js/src/lib/driver/SendThreadMachine.ts:222-229 | adding several transactions keeps every old one and adds exactly the new ones |
| Transactions.InsertAllSorted | packages/zwave-js/src/lib/driver/SendThreadMachine.ts:516-517 | re-adding requeued transactions keeps the queue sorted |
| Transactions.InsertAllSortedIdentity | packages/zwave-js/src/lib/driver/SendThreadMachine.ts:222-229 | re-sorting an already sorted queue by clearing it and adding its items back leaves it unchanged |
| CommandQueueMachine.CommandQueue.constructor | packages/zwave-js/src/lib/driver/CommandQueueMachine.ts:112-117 | the machine starts idle with an empty queue and no current transaction |
| CommandQueueMachine.CommandQueue.StartNext | packages/zwave-js/src/lib/driver/CommandQueueMachine.ts:78-83 | entering execute shifts the queue's head into the current slot and starts its command |
| CommandQueueMachine.CommandQueue.ExecuteDone | packages/zwave-js/src/lib/driver/CommandQueueMachine.ts:134-143 | after a command the current slot is cleared; the machine stays idle on an empty queue and otherwise starts the next head at once |
| CommandQueueMachine.CommandQueue.Add | packages/zwave-js/src/lib/driver/CommandQueueMachine.ts:118-129 | `add` inserts the transaction in order; when idle, the trigger starts the new head at once, otherwise nothing else changes |
| CommandQueueMachine.CommandQueue.CommandDone | packages/zwave-js/src/lib/driver/CommandQueueMachine.ts:152-170 | the outcome for the current transaction goes to the send thread; a send-data request whose callback timed out is followed by a SendDataAbort, any other outcome ends the transaction and the next one starts |
| CommandQueueMachine.CommandQueue.AbortDone | packages/zwave-js/src/lib/driver/CommandQueueMachine.ts:173-180 | the end of the abort, however it ended, finishes the transaction and the next one starts |
| CommandQueueMachine.CommandQueue.OnMessage | packages/zwave-js/src/lib/driver/CommandQueueMachine.ts:130-147 | a message goes only to the running command during execute; otherwise it is returned as unsolicited (and during the abort it also reaches the abort command) |
| CommandQueueMachine.CommandQueue.OnHeader | packages/zwave-js/src/lib/driver/CommandQueueMachine.ts:148-151 | ACK, NAK and CAN go to the running command or abort and are dropped while idle |
| CommandQueueMachine.AbortsAppend | packages/zwave-js/src/lib/driver/CommandQueueMachine.ts:159-164 | abort counts add up over concatenated effect logs |
| CommandQueueMachine.CommandDoneAborts | packages/zwave-js/src/lib/driver/CommandQueueMachine.ts:211-219 | a finished command adds exactly one SendDataAbort when the transaction is a send-data request that failed with a callback timeout, and none otherwise |
| SendThreadMachine.Requeued | packages/zwave-js/src/lib/driver/SendThreadMachine.ts:489-493 | a requeued transaction keeps its identity and message and takes the verdict's priority when one is given, else keeps its own |
| SendThreadMachine.ClassifyKept | packages/zwave-js/src/lib/driver/SendThreadMachine.ts:508-516 | after reducing, a transaction stays in the queue exactly when it was queued and the reducer kept it, and the kept ones stay sorted |
| SendThreadMachine.ClassifyQueue | packages/zwave-js/src/lib/driver/SendThreadMachine.ts:508-510 | the loop over the queue hands every queued transaction to the reducer in order and collects exactly the verdicts Classify gives |
| SendThreadMachine.SendThread.constructor | packages/zwave-js/src/lib/driver/SendThreadMachine.ts:530-535 | the thread starts idle with an empty queue and no calls made |
| SendThreadMachine.SendThread.UpdateNodes | packages/zwave-js/src/lib/driver/SendThreadMachine.ts:244-254 | the awake/asleep view the guard reads is replaced and nothing else changes |
| SendThreadMachine.SendThread.EnterExecute | packages/zwave-js/src/lib/driver/SendThreadMachine.ts:760-764 | entering execute clears the handshake slot and hands the current transaction to the command queue |
| SendThreadMachine.SendThread.BeforeSend | packages/zwave-js/src/lib/driver/SendThreadMachine.ts:680-700 | beforeSend counts an attempt for send-data requests only, clears the handshake, and goes to execute unless the send-data command needs a pre-transmit handshake |
| SendThreadMachine.SendThread.Settle | packages/zwave-js/src/lib/driver/SendThreadMachine.ts:630-635 | idle takes the queue's head as the current transaction exactly when it may be sent (its node is unknown or awake, or it is a ping or a handshake response), else rests |
| SendThreadMachine.SendThread.Done | packages/zwave-js/src/lib/driver/SendThreadMachine.ts:825-834 | done clears the current transaction, the handshake and the attempt count, then idle settles |
| SendThreadMachine.SendThread.Trigger | packages/zwave-js/src/lib/driver/SendThreadMachine.ts:636-642 | only idle reacts to trigger, by settling; every other state is unchanged |
| SendThreadMachine.SendThread.Add | packages/zwave-js/src/lib/driver/SendThreadMachine.ts:576-605 | a pre-transmit handshake for the current node during the handshake becomes the handshake transaction, a handshake response for the current node bypasses the queue, anything else is inserted in order and followed by a trigger; outside idle no other field changes, and the attempt count stays in every branch; a handshake-priority send-data request while the current message is not a send-data request makes the guard throw a TypeError, and nothing changes |
| SendThreadMachine.SendThread.SortQueue | packages/zwave-js/src/lib/driver/SendThreadMachine.ts:222-231 | sortQueue re-inserts every queued transaction under the new order (the same multiset), then triggers; outside idle the state, current transaction, handshake slot, attempt count and calls stay |
| SendThreadMachine.SendThread.RejectCurrent | packages/zwave-js/src/lib/driver/SendThreadMachine.ts:372-385 | records the rejection of the current transaction with the given reason |
| SendThreadMachine.SendThread.RejectHandshake | packages/zwave-js/src/lib/driver/SendThreadMachine.ts:413-426 | records the rejection of the handshake transaction; with none set, reading its message throws a TypeError and nothing is recorded |
| SendThreadMachine.SendThread.EnterRetryWait | packages/zwave-js/src/lib/driver/SendThreadMachine.ts:816-824 | entering retryWait reports the attempt count and the message's attempt limit to notifyRetry |
| SendThreadMachine.SendThread.CommandSuccess | packages/zwave-js/src/lib/driver/SendThreadMachine.ts:555-564 | command_success moves the handshake on to waiting for its response, waits for the node's update or resolves the current transaction in execute, and elsewhere resolves the event's transaction unless it is the handshake or current one; the attempt count stays in every branch that does not go through done, and so does the handshake slot |
| SendThreadMachine.SendThread.CommandFailure | packages/zwave-js/src/lib/driver/SendThreadMachine.ts:565-574 | a failed handshake command rejects the handshake and retries if the attempt limit allows, else also rejects the current transaction; with no handshake transaction set that step throws a TypeError and nothing changes; a failed send-data command in execute retries if it may, any other failure rejects; elsewhere the event's transaction is rejected unless it is the handshake or current one; going to retryWait keeps the handshake slot and the attempt count, so the next beforeSend counts on from it |
| SendThreadMachine.SendThread.NodeUpdate | packages/zwave-js/src/lib/driver/SendThreadMachine.ts:795-801 | while waiting for the update, the update resolves the current transaction and the thread goes through done; in any other state nothing changes |
| SendThreadMachine.SendThread.HandshakeResponse | packages/zwave-js/src/lib/driver/SendThreadMachine.ts:709-713 | during the handshake the response resolves the handshake transaction and the state stays |
| SendThreadMachine.SendThread.HandshakeDone | packages/zwave-js/src/lib/driver/SendThreadMachine.ts:701-707 | when the handshake service finishes, with its errors swallowed, the thread goes on to execute with the handshake slot cleared; the attempt count stays, and outside the handshake nothing changes |
| SendThreadMachine.SendThread.ReportTimeout | packages/zwave-js/src/lib/driver/SendThreadMachine.ts:739-757 | the report timeout rejects the handshake and retries if it may (else rejects the current one too) while waiting for the handshake response, and throws a TypeError changing nothing when no handshake transaction is set; while waiting for the update it retries or rejects the current transaction; both rejections name a node timeout; going to retryWait keeps the handshake slot and the attempt count, and in other states nothing changes |
| SendThreadMachine.SendThread.RetryElapsed | packages/zwave-js/src/lib/driver/SendThreadMachine.ts:821-823 | after the retry delay beforeSend runs again for the same transaction: one more attempt, the handshake slot cleared, then execute or the handshake; in other states nothing changes |
| SendThreadMachine.SendThread.Nif | packages/zwave-js/src/lib/driver/SendThreadMachine.ts:655-668 | a node information frame from the target of a pending ping resolves the ping and ends it through done, settling from the unchanged queue; otherwise nothing changes. This is the corrected transition (see Findings) |
| SendThreadMachine.SendThread.ApplyReducer | packages/zwave-js/src/lib/driver/SendThreadMachine.ts:472-521 | the queue keeps the transactions the reducer kept, in order, and gets the requeued ones (the current one included) inserted with their new priority; rejected ones are rejected |
| SendThreadMachine.SendThread.Reduce | packages/zwave-js/src/lib/driver/SendThreadMachine.ts:643-646 | in idle reduce then trigger; while sending reduce and, when the verdict on the current transaction is not keep, abandon it through done (lines 669-677), settling from the reduced queue; this is the corrected transition (see Findings) |
| SendThreadMachine.SendThread.OnMessage | packages/zwave-js/src/lib/driver/SendThreadMachine.ts:541-553 | an expected handshake response or node update is raised as such; any other message goes to the command queue; in both of those cases only the calls change, and the handshake slot and attempt count stay |
| SendThreadMachine.SendThread.OnHeader | packages/zwave-js/src/lib/driver/SendThreadMachine.ts:538-540 | ACK, NAK and CAN go to the command queue in every state |
| SendThreadMachine.SendThread.Unsolicited | packages/zwave-js/src/lib/driver/SendThreadMachine.ts:606-607 | an unsolicited message is handed back to the driver |
| SendThreadMachine.SendThread.ReenterSendingThenDone | packages/zwave-js/src/lib/driver/SendThreadMachine.ts:153-158 | entering sending again shifts the queue's head into the current slot and done clears it: the thread settles from the queue without its head |
| SendThreadMachine.SendThread.NifAsWritten | packages/zwave-js/src/lib/driver/SendThreadMachine.ts:655-668 | the NIF transition as declared: the external target sending.done re-enters sending, so after the ping is resolved the thread settles from the queue without its head |
| SendThreadMachine.SendThread.ReduceAsWritten | packages/zwave-js/src/lib/driver/SendThreadMachine.ts:669-677 | the abandoning reduce as declared: after reducing, the thread settles from the reduced queue without its head |
| SendThreadMachine.ReentryAbandonsHead | packages/zwave-js/src/lib/driver/SendThreadMachine.ts:153-158 | after the re-entry, the old head is neither queued nor current and no call settled it, so its promise never settles |
| SendThreadMachine.NifAsWrittenAbandonsQueued | packages/zwave-js/src/lib/driver/SendThreadMachine.ts:655-668 | a NIF answering the current ping resolves the ping and abandons the transaction first in the queue |
| SendThreadMachine.SettledKeepsHead | packages/zwave-js/src/lib/driver/SendThreadMachine.ts:825-834 | going to done without entering sending again keeps the queue's head pending: it becomes the current transaction or stays first in line |
| DriverRequestHandlers.FirstIndexOf | packages/zwave-js/src/lib/driver/Driver.ts:1354-1360 | the index of the first entry for the handler: no earlier entry is for it, and it is the length of the list when there is none |
| DriverRequestHandlers.RemoveFirst | packages/zwave-js/src/lib/driver/Driver.ts:1347-1362 | the list loses exactly its first entry for the handler, and is unchanged when there is none |
| DriverRequestHandlers.HeadOnlyRemoval | packages/zwave-js/src/lib/driver/Driver.ts:1354-1360 | the removal loop as written shortens the list by at most one entry |
| DriverRequestHandlers.RequestHandlers.constructor | packages/zwave-js/src/lib/driver/Driver.ts:1321-1341 | the registry starts with no handlers |
| DriverRequestHandlers.RequestHandlers.RegisterRequestHandler | packages/zwave-js/src/lib/driver/Driver.ts:1321-1341 | the entry is appended to its function type's list; no other list changes |
| DriverRequestHandlers.RequestHandlers.UnregisterRequestHandlerAsWritten | packages/zwave-js/src/lib/driver/Driver.ts:1347-1362 | the loop as written only ever compares the first entry, so only a handler at the head is removed |
| DriverRequestHandlers.RequestHandlers.UnregisterRequestHandler | packages/zwave-js/src/lib/driver/Driver.ts:1347-1362 | the intended removal: the first entry for the handler is removed, every other list is unchanged |
| DriverRequestHandlers.RequestHandlers.HandleRequest | packages/zwave-js/src/lib/driver/Driver.ts:1530-1559 | handlers run in registration order until the first that handles the request; a one-time handler that did is removed, and nothing changes when none does |
| DriverRequestHandlers.RegisterUnregisterRoundTrip | packages/zwave-js/src/lib/driver/Driver.ts:1321-1362 | registering a new handler and unregistering it restores the list |
| DriverRequestHandlers.UnregisterAsWrittenKeepsLaterHandler | packages/zwave-js/src/lib/driver/Driver.ts:1354-1360 | as written, a handler registered after another survives its own unregistration, while the intended removal drops it |
| DriverOptions.Merge | packages/zwave-js/src/lib/driver/Driver.ts:154-173 | merging defaults keeps every target entry the defaults do not name, adds every default key, and fails only with a TypeError |
| DriverOptions.ApplyDefaultOptions | packages/zwave-js/src/lib/driver/Driver.ts:154-173 | the loop over the defaults computes exactly the merge |
| DriverOptions.MergeSelf | packages/zwave-js/src/lib/driver/Driver.ts:154-173 | merging null-free defaults into themselves changes nothing |
| DriverOptions.MergeIdempotent | packages/zwave-js/src/lib/driver/Driver.ts:154-173 | applying null-free defaults a second time changes nothing |
| DriverOptions.CheckOptions | packages/zwave-js/src/lib/driver/Driver.ts:176-213 | the options pass exactly when every timeout is in range (ack, byte and report positive, nonce in 3000..20000, send-data callback at least 10000) and a network key, if any, has 16 bytes; every failure is Driver_InvalidOptions |
| DriverOptions.DefaultOptionsValid | packages/zwave-js/src/lib/driver/Driver.ts:137-149 | the default options pass the checks |
| DriverReceive.HandleDecodeError | packages/zwave-js/src/lib/driver/Driver.ts:1114-1174 | NAK exactly for an invalid or corrupted frame, ACK exactly for the harmless decoding errors and a closed value database, the error rethrown otherwise, never CAN |
| DriverReceive.Assemble | packages/zwave-js/src/lib/driver/Driver.ts:1210-1281 | a walk that fails never fails with an error the driver drops instead; how it stores and merges session parts is stated by PartsStoredInOrder, FinalPartMergesStoredParts and NoSessionPassesThrough |
| DriverReceive.Receiver.constructor | packages/zwave-js/src/lib/driver/Driver.ts:1205 | no partial sessions are open at the start |
| DriverReceive.Receiver.SessionStep | packages/zwave-js/src/lib/driver/Driver.ts:1221-1266 | one command's session handling: a part expecting more is appended to its session and stops with false; a final part closes the session and is merged with its stored parts; the step agrees with the walk wherever it stops |
| DriverReceive.Receiver.AssemblePartialCCs | packages/zwave-js/src/lib/driver/Driver.ts:1210-1281 | the loop down the encapsulation chain leaves the sessions, the merges and the answer that the walk specifies |
| DriverReceive.Receiver.OnData | packages/zwave-js/src/lib/driver/Driver.ts:1056-1111 | headers go to the send thread; a decoded frame is acknowledged, a Command Encapsulation Nonce Get from a known node is handed to that node, and the message, once complete, goes to the send thread; an undecodable frame gets the reply handleDecodeError chooses, or the error propagates |
| DriverReceive.PartsStoredInOrder | packages/zwave-js/src/lib/driver/Driver.ts:1227-1239 | the non-final parts of a session are stored in arrival order and no other session changes |
| DriverReceive.FinalPartMergesStoredParts | packages/zwave-js/src/lib/driver/Driver.ts:1240-1268 | the final part is merged with exactly the stored parts, in arrival order, and the session is closed |
| DriverReceive.NoSessionPassesThrough | packages/zwave-js/src/lib/driver/Driver.ts:1269-1281 | a message with no session fields in its chain is complete at once and changes no session |
| DriverSend.CallbackIds.constructor | packages/zwave-js/src/lib/driver/Driver.ts:1566 | the last callback id starts at 0xff |
| DriverSend.CallbackIds.GetNextCallbackId | packages/zwave-js/src/lib/driver/Driver.ts:1571-1575 | the next id is the last one plus one, wrapping from 255 to 1 and never 0 |
| DriverSend.CommandContainer.constructor | packages/zwave-js/src/lib/driver/Driver.ts:1577 | the container holds the given command |
| DriverSend.CommandContainer.EncapsulateCommands | packages/zwave-js/src/lib/driver/Driver.ts:1577-1606 | the command is wrapped in Supervision, then Multi Channel, then Security, each only when that class asks for it |
| DriverSend.CommandContainer.UnwrapCommands | packages/zwave-js/src/lib/driver/Driver.ts:1608-1624 | single encapsulations are removed until the core command or a multi-command container |
| DriverSend.CallbackIdCycle | packages/zwave-js/src/lib/driver/Driver.ts:1571-1575 | the n-th id of a fresh generator is (n-1) mod 255 + 1 |
| DriverSend.EncapsulationOrder | packages/zwave-js/src/lib/driver/Driver.ts:1578-1605 | from the outside in, Security, then Multi Channel, then Supervision, each present exactly when asked for |
| DriverSend.StepLayers | packages/zwave-js/src/lib/driver/Driver.ts:1592-1605 | one wrapping step adds its class on the outside when it applies and leaves the core alone |
| DriverSend.UnwrapEncapsulated | packages/zwave-js/src/lib/driver/Driver.ts:1577-1624 | unwrapping undoes the encapsulation: the core command is unchanged |
| DriverSend.WrapOne | packages/zwave-js/src/lib/driver/Driver.ts:1592-1605 | one wrapper adds its class on the outside and keeps the core |
| DriverSend.SendMessagePriority | packages/zwave-js/src/lib/driver/Driver.ts:1632-1693 | the checks before queueing, each as an exact condition: Driver_NotReady when the driver is not ready, Controller_MessageDropped for a dead node, Driver_NoPriority when no priority is given or defined, Driver_NotSupported when the support check is on and the controller lacks the function, success otherwise; a message to a sleeping node goes to WakeUp unless it is a ping, a multicast or a handshake |
| DriverSend.HandleNodeTimeout | packages/zwave-js/src/lib/driver/Driver.ts:1176-1203 | nothing happens without a node or when the transaction opted out; a Wake Up node is marked asleep, any other is marked dead and all its transactions are rejected |
| DriverSend.Filter | packages/zwave-js/src/lib/driver/Driver.ts:1940-1957 | keeps exactly the transactions for which the predicate has the given value |
| DriverSend.RejectAll | packages/zwave-js/src/lib/driver/Driver.ts:1940-1957 | one rejection per transaction, in order, all with the same message and code |
| DriverSend.RejectTransactionsExact | packages/zwave-js/src/lib/driver/Driver.ts:1940-1975 | rejectTransactions rejects exactly the matching transactions in queue order, keeps all others in order and requeues nothing |
| DriverSend.MoveToWakeUpQueued | packages/zwave-js/src/lib/driver/Driver.ts:1891-1912 | the wake-up reducer keeps exactly the other nodes' transactions, rejects the node's queued pings and requeues the rest of them at WakeUp, losing none |
| DriverSend.MoveToWakeUpCurrent | packages/zwave-js/src/lib/driver/Driver.ts:1913-1930 | the node's current transaction is rejected if it is a ping or a handshake response and requeued at WakeUp otherwise |
| DriverSend.GetSafeCCVersion | packages/zwave-js/src/lib/driver/Driver.ts:918-945 | version 1 for an unsupported CC; otherwise the lower of the node's and the library's version, or CC_NotSupported when the library does not implement the CC |
| SendDataMessages.NewSendDataRequest | src/lib/controller/SendDataMessages.ts:86-104 | fails with Argument_Invalid exactly for a command that is not singlecast; otherwise keeps the command and the given transmit options or the default ones |
| SendDataMessages.NewSendDataMulticastRequest | src/lib/controller/SendDataMessages.ts:363-391 | succeeds exactly for a multicast command with at least one target, all in 1..MAX_NODES; every failure is Argument_Invalid |
| SendDataMessages.SerializeSendData | src/lib/controller/SendDataMessages.ts:111-120 | the payload is four bytes longer than the command |
| SendDataMessages.SerializeSendDataMulticast | src/lib/controller/SendDataMessages.ts:398-414 | the payload is four bytes longer than the targets and the command together |
| SendDataMessages.ReadSendData | src/lib/controller/SendDataMessages.ts:111-120 | a payload it reads is four bytes longer than the command it finds |
| SendDataMessages.SendDataLayout | src/lib/controller/SendDataMessages.ts:111-120 | a SendData payload carries the node id, the command, the transmit options and the callback id unchanged |
| SendDataMessages.SendDataMulticastLayout | src/lib/controller/SendDataMessages.ts:398-414 | a multicast payload carries the targets, the command, the transmit options and the callback id unchanged |
| SendDataMessages.SendDataBroadcastVector | src/lib/controller/SendDataMessages.ts:111-120 | a broadcast Basic Set 0x63 with callback 1 serializes to ff 03 20 01 63 25 01 |
| SendDataMessages.SendDataMulticastVector | src/lib/controller/SendDataMessages.ts:398-414 | a multicast Basic Set 0x63 to nodes 2 and 3 with callback 1 serializes to 02 02 03 03 20 01 63 25 01 |
| SendDataMessages.ParseTransmitReport | src/lib/controller/SendDataMessages.ts:261-289 | the callback id is byte 0 and the transmit status byte 1, each undefined when the payload is too short to hold it |
| SendDataMessages.TransmitReportRoundTrip | src/lib/controller/SendDataMessages.ts:269-270 | a report read from its callback id and status bytes carries both |
| SendDataMessages.TransmitReportFailed | src/lib/controller/SendDataMessages.ts:285-287 | a report counts as failed exactly when byte 1 is missing or is not OK |
| SendDataMessages.ShortTransmitReportIsFatal | src/lib/controller/SendDataMessages.ts:185-187 | a report too short to carry a status is fatal for the node, for single and multicast requests alike |
| SendDataMessages.ParseWasSent | src/lib/controller/SendDataMessages.ts:307-317 | the request was sent unless byte 0 is zero |
| SendDataMessages.TestResponseForCC | src/lib/controller/SendDataMessages.ts:207-257 | the answer is always confirmation, final or unexpected, and a command chain with no custom test always gets one |
| SendDataMessages.FixedChainFinal | src/lib/controller/SendDataMessages.ts:207-257 | for commands that expect fixed responses at every layer, a received command is final exactly when it answers every layer, and unexpected otherwise |
| SendDataMessages.FixedChainTransmitReport | src/lib/controller/SendDataMessages.ts:226-236 | for such commands a positive transmit report is a confirmation, however deep the nesting |
| SendDataMessages.TestResponseForSendDataRequest | src/lib/controller/SendDataMessages.ts:164-205 | without a callback only the controller's response matters; with one, the response confirms or is fatal for the controller, a failed transmit report is fatal for the node, and a positive report or an application command is judged by the command's expected response |
| SendDataMessages.TestResponseForSendDataMulticastRequest | src/lib/controller/SendDataMessages.ts:441-452 | confirmation exactly for a response that was sent, fatal for the controller for one that was not, fatal for the node exactly for a failed transmit report, final for a positive one |
| Node.StatusEvents | src/lib/node/Node.ts:249-266 | no event for an unchanged status or one left from Unknown; "alive" exactly when leaving Dead, and sleep, wake up and dead exactly when entering that status; at most two events, "alive" first |
| Node.Endpoint.constructor | src/lib/node/Node.ts:494-503 | an endpoint instance belongs to the node and carries the index it was created for |
| Node.ForcedRelease | src/lib/node/Node.ts:1038-1057 | a notification for another scene while a key is held writes exactly one KeyReleased value, for the held scene; otherwise nothing |
| Node.Node.constructor | src/lib/node/Node.ts:152-175 | a new node has an unknown status, no events, no command classes, no endpoint instances and no held key |
| Node.Node.SetStatus | src/lib/node/Node.ts:249-266 | the status becomes the new value and the emitted events are exactly those of the transition |
| Node.Node.IsAwake | src/lib/node/Node.ts:1490-1495 | a node is awake exactly when it does not support Wake Up or Wake Up sees it as awake |
| Node.Node.SetAwake | src/lib/node/Node.ts:1484-1487 | without Wake Up support nothing changes; with it, the node afterwards is awake exactly when asked to be |
| Node.Node.GetEndpoint | src/lib/node/Node.ts:483-506 | a negative index throws Argument_Invalid, 0 is the node, an index past the endpoint count is undefined; any other index gives the cached instance, created once and then kept |
| Node.Node.GetAllEndpoints | src/lib/node/Node.ts:509-516 | the node followed by endpoints 1 to the endpoint count, each the cached instance of its index |
| Node.Node.UpdateNodeInfo | src/lib/node/Node.ts:866-878 | only the first node information frame adds command classes; after any frame the node is awake |
| Node.Node.SerializedInterviewStage | src/lib/node/Node.ts:1250-1253 | a stage from RestartFromCache on is cached as Complete, an earlier one as itself |
| Node.Node.HandleCentralSceneNotification | src/lib/node/Node.ts:999-1079 | a repeated sequence number changes nothing; otherwise the held key of another scene is released first, the scene's value becomes the key attribute, and the held-key state follows KeyHeldDown and KeyReleased, keeping the node's invariant |
| Node.Node.ForceKeyUp | src/lib/node/Node.ts:1038-1047 | the held scene's value becomes KeyReleased and no key is held any more |
| Node.Node.ReleaseTimerElapsed | src/lib/node/Node.ts:1063-1070 | when the release timer fires, a held key is released and no key stays held |
| Node.Node.SendNoMoreInformation | src/lib/node/Node.ts:1507-1531 | refused while kept awake or already sending; sends only to an awake node whose interview is complete, then marks it asleep; a send that throws leaves the in-progress flag set |
| Node.StuckAfterFailedSend | src/lib/node/Node.ts:1512-1530 | after a send that throws, the in-progress flag stays set, so the next call is refused without sending |
| WakeUpCC.IsAwake | src/lib/commandclass/WakeUpCC.ts:32-42 | a node counts as awake exactly when it is neither asleep nor dead, so Unknown is assumed awake |
| WakeUpCC.AwakeStatus | src/lib/commandclass/WakeUpCC.ts:48-50 | setAwake writes either Awake or Asleep |
| WakeUpCC.SetAwakeThenIsAwake | src/lib/commandclass/WakeUpCC.ts:32-50 | after setAwake(flag), isAwake gives back the flag |
| WakeUpCC.DeserializeIntervalSet | src/lib/commandclass/WakeUpCC.ts:75-83 | deserializing an Interval Set always throws Deserialization_NotImplemented |
| WakeUpCC.SerializeIntervalSet | src/lib/commandclass/WakeUpCC.ts:92-101 | succeeds exactly for an interval that fits in three bytes, otherwise RangeError; the 4-byte payload holds the interval big-endian followed by the low byte of the controller node id |
| WakeUpCC.IntervalLimitIsThreeBytes | src/lib/commandclass/WakeUpCC.ts:99 | the interval limit is 256 to the third power, the range of the 3-byte field |
| WakeUpCC.ParseIntervalReport | src/lib/commandclass/WakeUpCC.ts:106-113 | succeeds exactly for payloads of at least three bytes, otherwise RangeError; the interval is the 3-byte big-endian value and the node id is byte 3, undefined when absent |
| WakeUpCC.IntervalRoundTrip | src/lib/commandclass/WakeUpCC.ts:92-113 | the Interval Report parser reads back the interval and controller node id that Interval Set serialized |
| WakeUpCC.IntervalReportInjective | src/lib/commandclass/WakeUpCC.ts:111 | two reports with the same interval have the same 3-byte interval field |
| WakeUpCC.ParseIntervalCapabilitiesReport | src/lib/commandclass/WakeUpCC.ts:160-169 | succeeds exactly for payloads of at least twelve bytes, otherwise RangeError; the four intervals are the 3-byte big-endian fields at 0, 3, 6 and 9 |
| CentralSceneCC.ParseNotification | src/lib/commandclass/CentralSceneCC.ts:44-53 | the sequence number is byte 0 and the scene byte 2 (undefined when absent), the key attribute is the low three bits of byte 1, and slow refresh is set exactly when byte 1 is at least 0x80 |
| CentralSceneCC.NotificationRoundTrip | src/lib/commandclass/CentralSceneCC.ts:44-53 | every field of a notification laid out by a device is read back unchanged |
| CentralSceneCC.ToInt32 | src/lib/commandclass/CentralSceneCC.ts:127 | the 32-bit conversion under JavaScript's shift lands in the signed 32-bit range and agrees with its input modulo 2^32 |
| CentralSceneCC.ParseMasks | src/lib/commandclass/CentralSceneCC.ts:123-131 | the nested loops produce one mask per entry, each the shifted sum of that entry's bytes |
| CentralSceneCC.BitMaskBytesAsWritten | src/lib/commandclass/CentralSceneCC.ts:118 | the width as written is one of 0, 2, 4 or 6 bytes, twice what the field encodes |
| CentralSceneCC.BitMaskBytes | src/lib/commandclass/CentralSceneCC.ts:118 | the corrected width is bits 2..1 of byte 1 read as a number, at most three bytes |
| CentralSceneCC.BitMaskBytesIsField | src/lib/commandclass/CentralSceneCC.ts:118 | the corrected width is `(b1 / 2) % 4`, bits 2..1 of byte 1 read as a number, and the width as written is twice it |
| CentralSceneCC.SupportedReportWith | src/lib/commandclass/CentralSceneCC.ts:110-133 | the scene count is byte 0; there is one mask when all scenes share one, otherwise one per scene, each the sum of its own bytes from offset 3 |
| CentralSceneCC.ParseSupportedReportAsWritten | src/lib/commandclass/CentralSceneCC.ts:110-133 | the Supported Report constructor as written reads masks of the unshifted width |
| CentralSceneCC.ParseSupportedReport | src/lib/commandclass/CentralSceneCC.ts:110-133 | the corrected constructor reads masks of the width the field encodes |
| CentralSceneCC.SupportsKeyAttribute | src/lib/commandclass/CentralSceneCC.ts:153-161 | a key is supported only when a mask exists for it; without a shared mask, a scene outside 1..the number of masks supports nothing |
| CentralSceneCC.MaskIsLittleEndian | src/lib/commandclass/CentralSceneCC.ts:125-128 | with at most three bytes per mask no shift reaches bit 31, so a mask is the little-endian value of its bytes |
| CentralSceneCC.SupportsKeyAttributeReadsSceneMask | src/lib/commandclass/CentralSceneCC.ts:110-161 | with the corrected width, a scene supports a key exactly when that bit is set in the little-endian value of the scene's own mask bytes |
| CentralSceneCC.SupportedReportWidthCounterexample | src/lib/commandclass/CentralSceneCC.ts:118 | for a report with one mask byte per scene, the width as written merges the two masks and loses scene 2's KeyPressed, which the corrected width keeps |
| CentralSceneCC.SerializeConfigurationSet | src/lib/commandclass/CentralSceneCC.ts:202-205 | the payload is a single byte |
| CentralSceneCC.DeserializeConfigurationSet | src/lib/commandclass/CentralSceneCC.ts:189-194 | deserializing a Configuration Set always throws Deserialization_NotImplemented |
| CentralSceneCC.ParseConfigurationReport | src/lib/commandclass/CentralSceneCC.ts:210-217 | slow refresh is set exactly when byte 0 is at least 0x80; an empty payload reads false |
| CentralSceneCC.ConfigurationRoundTrip | src/lib/commandclass/CentralSceneCC.ts:202-217 | the slow-refresh flag of a Configuration Set is read back by the Configuration Report parser |
| ConfigurationCC.SupportsCommand | src/lib/commandclass/ConfigurationCC.ts:69-85 | Get and Set are always supported, Bulk Get and Bulk Set from version 2, Name, Info and Properties Get from version 3; exactly the other commands are left to the base class |
| ConfigurationCC.ParseValue | src/lib/commandclass/ConfigurationCC.ts:739-753 | fails with a RangeError exactly for an integer format with a bad size or a too-short buffer; signed, unsigned and enumerated values are the big-endian reading of the first size bytes; an unknown format gives undefined |
| ConfigurationCC.EncodedValue | src/lib/commandclass/ConfigurationCC.ts:756-781 | the bytes written for a value are exactly size bytes long |
| ConfigurationCC.ValueRoundTrip | src/lib/commandclass/ConfigurationCC.ts:739-781 | for every integer format, parseValue reads back the value serializeValue wrote, whatever follows it |
| ConfigurationCC.SerializeValue | src/lib/commandclass/ConfigurationCC.ts:756-781 | throws a RangeError, writing nothing, exactly for an integer that does not fit; an unknown format writes nothing; otherwise the value's bytes go into the slot and the rest of the buffer is unchanged |
| ConfigurationCC.SetFlags | src/lib/commandclass/ConfigurationCC.ts:227-228 | the byte is 128 or more exactly for a reset to the default, and its value mod 8 is the size |
| ConfigurationCC.SetFlagsIsOr | src/lib/commandclass/ConfigurationCC.ts:227-228 | the flags byte is the OR the serializer computes, and its bit 7 and low three bits read back the reset flag and the size |
| ConfigurationCC.FlagsOfByte | src/lib/commandclass/ConfigurationCC.ts:126 | the bit tests the parsers make agree with the arithmetic reading: `& 0b111` is the byte mod 8, `& 0x80` is set exactly from 128 up, `& 0x40` exactly when the byte mod 128 is 64 or more |
| ConfigurationCC.SerializeSet | src/lib/commandclass/ConfigurationCC.ts:222-240 | throws a RangeError exactly for a value that does not fit; otherwise 2 + size bytes: the parameter, the flags and the value, all zero after the flags for a reset or an unknown format |
| ConfigurationCC.SerializeGet | src/lib/commandclass/ConfigurationCC.ts:183-186 | one byte, the parameter's low byte |
| ConfigurationCC.SerializeParameter16 | src/lib/commandclass/ConfigurationCC.ts:517-520 | succeeds exactly for a parameter below 0x10000, otherwise RangeError; the two bytes are the parameter big-endian |
| ConfigurationCC.NewBulkSet | src/lib/commandclass/ConfigurationCC.ts:265-300 | throws CC_Invalid exactly for an empty or non-consecutive parameter list; a reset forces size 1 and a zero per parameter, otherwise the given size and values are kept |
| ConfigurationCC.ExpectedResponseForBulkSet | src/lib/commandclass/ConfigurationCC.ts:256-261 | a Bulk Set expects a Bulk Report exactly when it asks for a handshake |
| ConfigurationCC.BulkSetFlagsReads | src/lib/commandclass/ConfigurationCC.ts:331-334 | bit 7 is set exactly for a reset, bit 6 exactly for a handshake, and the low three bits hold the size (read arithmetically) |
| ConfigurationCC.BulkSetFlagsIsOr | src/lib/commandclass/ConfigurationCC.ts:330-333 | the flags byte is the OR of the reset bit, the handshake bit and the size that the serializer computes |
| ConfigurationCC.BulkSlot | src/lib/commandclass/ConfigurationCC.ts:336-345 | each slot of a Bulk Set is exactly the value size long |
| ConfigurationCC.BulkSlots | src/lib/commandclass/ConfigurationCC.ts:336-345 | the first n slots take n times the value size |
| ConfigurationCC.BulkSlotAt | src/lib/commandclass/ConfigurationCC.ts:339-342 | value i lies at offset i times the size within the slots |
| ConfigurationCC.ResetSlotsZero | src/lib/commandclass/ConfigurationCC.ts:327-336 | a reset writes no values, so all its slots stay zero |
| ConfigurationCC.WriteBulkValue | src/lib/commandclass/ConfigurationCC.ts:337-344 | one pass of the loop: value i goes into slot i behind the slots already written, or a value that does not fit throws a RangeError |
| ConfigurationCC.WriteBulkValues | src/lib/commandclass/ConfigurationCC.ts:336-345 | the loop writes every value into its slot, or throws a RangeError exactly when some value does not fit |
| ConfigurationCC.SerializeBulkSet | src/lib/commandclass/ConfigurationCC.ts:324-348 | succeeds exactly when the first parameter is below 0x10000 and every value fits; the payload is the first parameter, the count, the flags and the slots |
| ConfigurationCC.ConsecutiveAscending | src/lib/commandclass/ConfigurationCC.ts:285 | a consecutive run is in ascending order |
| ConfigurationCC.SortBy | src/lib/commandclass/ConfigurationCC.ts:431 | sorting keeps exactly the same elements |
| ConfigurationCC.SortAscending | src/lib/commandclass/ConfigurationCC.ts:431 | sorting by value gives ascending order |
| ConfigurationCC.AscendingUnique | src/lib/commandclass/ConfigurationCC.ts:431 | two ascending orderings of the same elements are equal |
| ConfigurationCC.NewBulkGetAsWritten | src/lib/commandclass/ConfigurationCC.ts:417-439 | the Bulk Get constructor as written sorts the parameters as strings and throws CC_Invalid exactly when that order is not consecutive |
| ConfigurationCC.BulkGetStringSortCounterexample | src/lib/commandclass/ConfigurationCC.ts:431-437 | the consecutive parameters 9 and 10 are rejected by the constructor as written |
| ConfigurationCC.TenSortsBeforeNine | src/lib/commandclass/ConfigurationCC.ts:431 | the string sort puts 10 before 9 |
| ConfigurationCC.NewBulkGet | src/lib/commandclass/ConfigurationCC.ts:417-439 | the corrected constructor keeps the parameters, in ascending order, and fails only with CC_Invalid |
| ConfigurationCC.BulkGetAcceptsConsecutiveRuns | src/lib/commandclass/ConfigurationCC.ts:417-439 | any ordering of a consecutive run is accepted by the corrected constructor and put back in order |
| ConfigurationCC.SerializeBulkGet | src/lib/commandclass/ConfigurationCC.ts:446-451 | succeeds exactly for an empty list or a first parameter below 0x10000, otherwise RangeError; three bytes holding the first parameter and the count |
| ConfigurationCC.BulkReportKeys | src/lib/commandclass/ConfigurationCC.ts:363-365 | a Bulk Report carries exactly the parameters from the first one up to first plus count |
| ConfigurationCC.BulkGetAnsweredKeys | src/lib/commandclass/ConfigurationCC.ts:446-451 | a Bulk Report answering a consecutive Bulk Get's header carries exactly the parameters that were asked for |
| ConfigurationCC.ExpectMoreMessages | src/lib/commandclass/ConfigurationCC.ts:384-386 | more reports are expected exactly when reportsToFollow is present and not zero |
| ConfigurationCC.ParseReport | src/lib/commandclass/ConfigurationCC.ts:120-139 | the parameter is byte 0, the size the low three bits of byte 1, and the value is read from byte 2 in the parameter's stored format; it fails exactly when parseValue does |
| ConfigurationCC.SetReportRoundTrip | src/lib/commandclass/ConfigurationCC.ts:120-139 | a Report carrying what a Set of an integer wrote reads back the parameter, the size and the value |
| ConfigurationCC.ParseBulkReport | src/lib/commandclass/ConfigurationCC.ts:353-371 | succeeds exactly when the header and every counted value can be read; reads reportsToFollow, the flags and, for each parameter first plus i, the value from byte 5 plus i times the size |
| ConfigurationCC.BulkSetAsReport | src/lib/commandclass/ConfigurationCC.ts:324-371 | a Bulk Report laid out like a Bulk Set is 5 bytes plus the slots long |
| ConfigurationCC.BulkSetReportRoundTrip | src/lib/commandclass/ConfigurationCC.ts:324-371 | such a report reads back the size and, for each parameter, the integer value the Bulk Set carried for it |
| ConfigurationCC.SlotReadsBack | src/lib/commandclass/ConfigurationCC.ts:366-368 | behind the header, a slot holding an integer reads back that integer |
| ConfigurationCC.DropIntoSlot | src/lib/commandclass/ConfigurationCC.ts:366 | behind the header, the bytes from a slot's offset start with that slot |
| ConfigurationCC.ParseTextReport | src/lib/commandclass/ConfigurationCC.ts:456-466 | succeeds exactly for payloads of at least two bytes, otherwise RangeError; the parameter is the first two bytes big-endian, reportsToFollow byte 2, the text the rest |
| ConfigurationCC.TextReportAnswersParameter | src/lib/commandclass/ConfigurationCC.ts:456-520 | a Name or Info Report that starts with a Name Get or Info Get's bytes carries the parameter that was asked for |
| ConfigurationCC.ConcatAppend | src/lib/commandclass/ConfigurationCC.ts:489-491 | concatenating in two parts gives the concatenation of the whole |
| ConfigurationCC.ConcatLength | src/lib/commandclass/ConfigurationCC.ts:489-491 | no prefix of the texts is longer than their whole concatenation |
| ConfigurationCC.TextReport.MergePartialCCs | src/lib/commandclass/ConfigurationCC.ts:487-494 | the text becomes the partials' texts and then this report's own, in arrival order |
| ConfigurationCC.TextsOf | src/lib/commandclass/ConfigurationCC.ts:489-490 | one text per report |
| ConfigurationCC.PropertiesFormat | src/lib/commandclass/ConfigurationCC.ts:602 | the value format is a 3-bit number |
| ConfigurationCC.PropertiesSize | src/lib/commandclass/ConfigurationCC.ts:603 | the value size is a 3-bit number |
| ConfigurationCC.PropertiesValue | src/lib/commandclass/ConfigurationCC.ts:604-621 | a value read at an offset fails exactly for an integer format that cannot be read there, and is the big-endian reading of the bytes at that offset |
| ConfigurationCC.ParsePropertyValues | src/lib/commandclass/ConfigurationCC.ts:603-622 | no values for size 0; no minimum for a bit field; otherwise minimum, maximum and default are read one after the other from byte 3, failing with a RangeError exactly when one cannot be read |
| ConfigurationCC.ParsePropertiesReport | src/lib/commandclass/ConfigurationCC.ts:596-641 | the parameter is the first two bytes; before version 4 the next parameter is the last two bytes, from version 4 the two bytes after the values, with the option flags read from byte 2 and the byte after the next parameter |
| ConfigurationCC.PropertiesNextParameterAgrees | src/lib/commandclass/ConfigurationCC.ts:623-632 | on a report that ends right after the next parameter, both version paths find the same next parameter |
| MultiChannelCC.Low7 | src/lib/commandclass/MultiChannelCC.ts:57 | masking with 0b0111_1111 leaves a number below 128, the number modulo 128 |
| MultiChannelCC.BitsOfByte | src/lib/commandclass/MultiChannelCC.ts:55-59 | the bit operations on a byte agree with the arithmetic reading the parsers use: `& 0x7f` is the low seven bits, `& 0x80` is set exactly from 128 up, `& 0x40` exactly when the low seven bits are 64 or more, and `\| 0x80` adds 128 to the low seven bits |
| MultiChannelCC.ParseEndPointReport | src/lib/commandclass/MultiChannelCC.ts:49-61 | the dynamic and identical flags are bits 7 and 6 of byte 0, the individual count the low seven bits of byte 1, and the aggregated count exists exactly from version 4, as the low seven bits of byte 2 |
| MultiChannelCC.EncodeEndPointReport | src/lib/commandclass/MultiChannelCC.ts:49-61 | a device's End Point Report is three bytes |
| MultiChannelCC.EndPointReportRoundTrip | src/lib/commandclass/MultiChannelCC.ts:49-61 | at version 4, every field of an End Point Report laid out by a device is read back |
| MultiChannelCC.ParseCapabilityReport | src/lib/commandclass/MultiChannelCC.ts:94-110 | the endpoint is the low seven bits of byte 0, the dynamic flag its bit 7, and the node information frame is everything after byte 0 |
| MultiChannelCC.SerializeEndpointGet | src/lib/commandclass/MultiChannelCC.ts:151-154 | one byte, the endpoint's low seven bits |
| MultiChannelCC.CapabilityAnswersGet | src/lib/commandclass/MultiChannelCC.ts:94-154 | a Capability Report that starts with a Capability Get's byte names the endpoint that was asked for |
| MultiChannelCC.ParseEndPointFindReport | src/lib/commandclass/MultiChannelCC.ts:159-170 | the device classes are bytes 1 and 2; the endpoints are the bytes from 3 on, as many as byte 0 says or as the payload holds, each cut to seven bits |
| MultiChannelCC.SerializeEndPointFind | src/lib/commandclass/MultiChannelCC.ts:217-220 | two bytes, the generic and the specific device class |
| MultiChannelCC.FindReportListsEndpoints | src/lib/commandclass/MultiChannelCC.ts:159-170 | a Find Report lists every endpoint it carries, in order |
| MultiChannelCC.ParseAggregatedMembersReport | src/lib/commandclass/MultiChannelCC.ts:225-235 | the endpoint is the low seven bits of byte 0, and the members are decoded from the bit mask whose length byte 1 gives |
| MultiChannelCC.AggregatedMembersAnswersGet | src/lib/commandclass/MultiChannelCC.ts:225-279 | an Aggregated Members Report that starts with a Get's byte names that endpoint and decodes the mask that follows |
| MultiChannelCC.DestinationByte | src/lib/commandclass/MultiChannelCC.ts:325-330 | a single destination is sent as its low seven bits, a set of destinations with bit 7 set |
| MultiChannelCC.SerializeEncapsulation | src/lib/commandclass/MultiChannelCC.ts:324-336 | the payload is the source's low seven bits, the destination byte, then the encapsulated command unchanged; bit 7 of the destination byte is set exactly for a set of destinations |
| MultiChannelCC.DeserializeEncapsulation | src/lib/commandclass/MultiChannelCC.ts:291-312 | the source is the low seven bits of byte 0; with bit 7 of byte 1 set, the rest of byte 1 is decoded as a bit mask of endpoints, otherwise it is one endpoint; the command is everything from byte 2 |
| MultiChannelCC.EncapsulationRoundTrip | src/lib/commandclass/MultiChannelCC.ts:291-336 | an encapsulation with a single destination is read back unchanged |
| MultiChannelCC.EncapsulationMaskRoundTrip | src/lib/commandclass/MultiChannelCC.ts:291-336 | an encapsulation to a set of endpoints is read back unchanged whenever the bit mask codec round-trips on one byte |
| VersionCC.SupportsCommand | src/lib/commandclass/VersionCC.ts:43-55 | Get and Command Class Get are always supported, Capabilities Get from version 3; exactly the other commands are left to the base class |
| VersionCC.ByteText | src/lib/commandclass/VersionCC.ts:84-92 | a byte inside a template literal prints as its decimal digits, and a byte past the end as "undefined" |
| VersionCC.DottedHasDot | src/lib/commandclass/VersionCC.ts:33-36 | a dotted version text is never a word without a dot, so no version reads as "unused" |
| VersionCC.ParseVersion | src/lib/commandclass/VersionCC.ts:33-36 | "unused" exactly when the first three bytes are all zero; otherwise the three bytes written "a.b.c" |
| VersionCC.SoftwareVersionBytes | src/lib/commandclass/VersionCC.ts:33-36 | a version is carried in three bytes |
| VersionCC.ParseVersionReadsText | src/lib/commandclass/VersionCC.ts:33-36 | parseVersion reads a version's three bytes, whatever follows, as its text |
| VersionCC.ParseVersionInjective | src/lib/commandclass/VersionCC.ts:33-36 | two payloads with the same version text have the same first three bytes |
| VersionCC.MajorMinorTexts | src/lib/commandclass/VersionCC.ts:84-92 | one "major.minor" text per version, in order |
| VersionCC.AdditionalFirmwareVersions | src/lib/commandclass/VersionCC.ts:89-93 | the additional firmware versions are as many as asked for |
| VersionCC.ParseReport | src/lib/commandclass/VersionCC.ts:78-97 | library type, protocol version and first firmware version come from bytes 0 to 4; from version 2 the hardware version is byte 5 and byte 6 further firmware versions follow, pair i at bytes 7 + 2i and 8 + 2i |
| VersionCC.PairBytes | src/lib/commandclass/VersionCC.ts:89-93 | a list of versions takes two bytes each |
| VersionCC.PairBytesAt | src/lib/commandclass/VersionCC.ts:89-93 | version i sits at bytes 2i and 2i + 1 of its pairs |
| VersionCC.EncodeReport | src/lib/commandclass/VersionCC.ts:78-97 | a Report with n firmware versions is 5 + 2n bytes |
| VersionCC.ByteDottedReadsText | src/lib/commandclass/VersionCC.ts:84-85 | two bytes holding a version's parts read as its "major.minor" text |
| VersionCC.AdditionalVersionsAt | src/lib/commandclass/VersionCC.ts:89-93 | behind the first firmware version, entry 1 + i is the text of bytes 7 + 2i and 8 + 2i |
| VersionCC.AdditionalVersionsStep | src/lib/commandclass/VersionCC.ts:89-93 | each turn of the loop appends the next pair's text behind the ones read so far |
| VersionCC.AdditionalVersionsRoundTrip | src/lib/commandclass/VersionCC.ts:89-93 | the additional versions read from a payload that carries them are their texts, in order |
| VersionCC.EncodeReportCarries | src/lib/commandclass/VersionCC.ts:78-97 | the laid-out Report holds each field at the offset the constructor reads it from |
| VersionCC.ReportRoundTrip | src/lib/commandclass/VersionCC.ts:78-97 | everything a version 2 Report carries reads back: the library type, the protocol text, every firmware version text in order and the hardware version |
| VersionCC.MajorMinorTextsCons | src/lib/commandclass/VersionCC.ts:85-92 | the texts of a list are the first version's text followed by the texts of the rest |
| VersionCC.SerializeCommandClassGet | src/lib/commandclass/VersionCC.ts:177-180 | one byte, the requested command class id |
| VersionCC.DeserializeCommandClassGet | src/lib/commandclass/VersionCC.ts:164-170 | deserializing a Command Class Get always throws Deserialization_NotImplemented |
| VersionCC.ParseCommandClassReport | src/lib/commandclass/VersionCC.ts:129-137 | the command class is byte 0 and its version byte 1, each present exactly when the payload reaches it |
| VersionCC.CommandClassReportAnswersGet | src/lib/commandclass/VersionCC.ts:129-180 | a Command Class Report that echoes a Get's byte names the requested command class, with the version after it |
| VersionCC.ParseCapabilitiesReport | src/lib/commandclass/VersionCC.ts:185-192 | Z-Wave Software Get is supported exactly when bit 2 of byte 0 is set |
| VersionCC.Bit2 | src/lib/commandclass/VersionCC.ts:191 | masking with 0b100 tests bit 2 |
| VersionCC.BuildNumber | src/lib/commandclass/VersionCC.ts:223-246 | a build number is 0 for an unused version, otherwise the two bytes big-endian, and a RangeError exactly when they lie past the end |
| VersionCC.ParseZWaveSoftwareReport | src/lib/commandclass/VersionCC.ts:214-248 | fails with a RangeError exactly when a used version's build number lies past the end; the five versions are read at offsets 0, 3, 8, 13 and 18, with build numbers at 6, 11, 16 and 21 |
| VersionCC.VersionAndBuild | src/lib/commandclass/VersionCC.ts:219-246 | a version followed by its build number takes five bytes |
| VersionCC.SoftwareReportRoundTrip | src/lib/commandclass/VersionCC.ts:214-248 | a Z-Wave Software Report built from five versions and four build numbers reads back as their texts, with the build number of every unused version read as 0 |
| VersionCC.ParseFromSlots | src/lib/commandclass/VersionCC.ts:214-248 | a payload whose slots hold the versions and builds parses to their texts and reported builds |
| VersionCC.SoftwareSlotReads | src/lib/commandclass/VersionCC.ts:219-246 | one version and build slot reads back as the version's text and its reported build |
| NodeNamingCC.SupportsCommand | packages/zwave-js/src/lib/commandclass/NodeNamingCC.ts:48-55 | supported exactly for Name Get and Location Get; every other command is left to the API base |
| NodeNamingCC.MatchesAsciiPattern | packages/zwave-js/src/lib/commandclass/NodeNamingCC.ts:32-34 | the anchored pattern accepts exactly the strings whose every code unit is below 0x80 |
| NodeNamingCC.AsciiBytes | packages/zwave-js/src/lib/commandclass/NodeNamingCC.ts:222 | ASCII encoding takes one byte per code unit |
| NodeNamingCC.Utf16BEBytes | packages/zwave-js/src/lib/commandclass/NodeNamingCC.ts:222-226 | UTF-16 encoding followed by the byte swap takes two bytes per code unit |
| NodeNamingCC.DecodeAscii | packages/zwave-js/src/lib/commandclass/NodeNamingCC.ts:258 | ASCII decoding gives one code unit per byte |
| NodeNamingCC.DecodeUtf16BE | packages/zwave-js/src/lib/commandclass/NodeNamingCC.ts:254-258 | UTF-16 decoding after the byte swap gives one code unit per byte pair |
| NodeNamingCC.AsciiRoundTrip | packages/zwave-js/src/lib/commandclass/NodeNamingCC.ts:217-258 | an ASCII string encoded and decoded as ASCII comes back unchanged |
| NodeNamingCC.Utf16RoundTrip | packages/zwave-js/src/lib/commandclass/NodeNamingCC.ts:217-258 | any string encoded and decoded as big-endian UTF-16 comes back unchanged |
| NodeNamingCC.Marker | packages/zwave-js/src/lib/commandclass/NodeNamingCC.ts:221 | the marker is 0 exactly for an ASCII string, and 2 otherwise |
| NodeNamingCC.Encoded | packages/zwave-js/src/lib/commandclass/NodeNamingCC.ts:217-226 | an ASCII string is encoded as ASCII, any other one as big-endian UTF-16 |
| NodeNamingCC.Capacity | packages/zwave-js/src/lib/commandclass/NodeNamingCC.ts:228-233 | sixteen bytes hold 16 ASCII or 8 UTF-16 code units |
| NodeNamingCC.ParseTextReport | packages/zwave-js/src/lib/commandclass/NodeNamingCC.ts:247-259 | throws a RangeError exactly for a UTF-16 marker followed by an odd number of bytes; otherwise the text after byte 0 is decoded as UTF-16 when byte 0 is 2, as ASCII otherwise |
| NodeNamingCC.DeserializeTextSet | packages/zwave-js/src/lib/commandclass/NodeNamingCC.ts:203-209 | deserializing a Name Set or Location Set always throws Deserialization_NotImplemented |
| NodeNamingCC.AsWrittenPayload | packages/zwave-js/src/lib/commandclass/NodeNamingCC.ts:216-235 | the payload as written keeps the length of the allocated buffer |
| NodeNamingCC.SerializeTextSetAsWritten | packages/zwave-js/src/lib/commandclass/NodeNamingCC.ts:216-235 | the in-place writes (marker to byte 0, then the copy of up to 16 encoded bytes to offset 0) leave the payload as written |
| NodeNamingCC.MarkerOverwritten | packages/zwave-js/src/lib/commandclass/NodeNamingCC.ts:228-233 | as written, the payload's byte 0 ends up holding the first encoded byte, not the marker |
| NodeNamingCC.TextSetOverwritesMarker | packages/zwave-js/src/lib/commandclass/NodeNamingCC.ts:228-233 | as written, an ASCII name whose first two characters differ never reads back, whatever the buffer held |
| NodeNamingCC.TextSetCounterexample | packages/zwave-js/src/lib/commandclass/NodeNamingCC.ts:228-233 | the name "AB" does not read back from the payload as written |
| NodeNamingCC.TextSetPayload | packages/zwave-js/src/lib/commandclass/NodeNamingCC.ts:216-235 | the corrected payload is the marker followed by at most 16 encoded bytes |
| NodeNamingCC.TextSetRoundTrip | packages/zwave-js/src/lib/commandclass/NodeNamingCC.ts:216-259 | the corrected payload reads back as the text, cut to the 16 ASCII or 8 UTF-16 characters that fit into 16 bytes |
| NodeNamingCC.SerializeTextSet | packages/zwave-js/src/lib/commandclass/NodeNamingCC.ts:307-326 | the corrected Set payload reads back as the text, cut to what fits into 16 bytes |
| NodeNamingCC.SetValue | packages/zwave-js/src/lib/commandclass/NodeNamingCC.ts:57-79 | a property other than name or location is unsupported, a non-string value has the wrong type; otherwise the matching Set is sent and then the matching Get |
| Devices.FirstDot | packages/config/src/Devices.ts:184-185 | the first dot of a string: no dot before it, and a dot at it unless there is none |
| Devices.IsFirmwareVersionString | packages/config/src/Devices.ts:179-189 | accepted exactly when the string is two runs of one to three digits joined by a dot, each run worth at most 255 |
| Devices.FirstDotAfterDigits | packages/config/src/Devices.ts:184-185 | after a run of digits, the first dot is the one ending the run, so splitting at "." finds the two parts |
| Devices.DecimalLength | packages/config/src/Devices.ts:179 | numbers below 1000 have at most three digits |
| Devices.FirmwareVersionOfBytes | packages/config/src/Devices.ts:179-189 | every pair of bytes written "a.b" is a firmware version |
| Devices.FirmwareVersionDeterminesParts | packages/config/src/Devices.ts:179-189 | a firmware version string determines its two numbers |
| Devices.HexDigitValue | packages/config/src/Devices.ts:201 | a hex digit is worth less than 16 |
| Devices.ParseHex | packages/config/src/Devices.ts:201 | n hex digits denote a number below 16 to the n |
| Devices.HexRun | packages/config/src/Devices.ts:201 | the leading run of hex digits, ended by a non-hex character or the end |
| Devices.HexRunOfHex | packages/config/src/Devices.ts:201 | on a string of hex digits, the run is the whole string |
| Devices.ParseIntHexOfKey | packages/config/src/Devices.ts:194-201 | a key "0x" with four hex digits parses to their value, below 0x10000 |
| Devices.GroupKeyRoundTrip | packages/config/src/Devices.ts:262-268 | a group id written in decimal passes the group key test and parses back to itself |
| Devices.GroupKeyPositive | packages/config/src/Devices.ts:262-268 | every key the group key test accepts parses to a group id of at least 1 |
| Devices.LeadingDigitPositive | packages/config/src/Devices.ts:262-268 | a digit string without a leading zero is worth at least 1 |
| Devices.DigitRun | packages/config/src/Devices.ts:292 | the leading run of digits, ended by a non-digit or the end |
| Devices.DigitRunOf | packages/config/src/Devices.ts:292 | digits followed by a non-digit or the end are found as the run |
| Devices.ParamKeyRoundTrip | packages/config/src/Devices.ts:292-302 | a parameter written in decimal matches the key pattern and reads back as that parameter with no mask |
| Devices.MaskedParamKeyRoundTrip | packages/config/src/Devices.ts:292-302 | a parameter in decimal followed by a bracketed 0x hex mask reads back as both |
| Devices.AssociationConfigOf | packages/config/src/Devices.ts:360-419 | null throws a TypeError; otherwise it succeeds exactly when the label is a string, the description nullish or a string, maxNodes a number and isLifeline and noEndpoint nullish or true, else InvalidConfig; the group id is kept |
| Devices.AssociationsOf | packages/config/src/Devices.ts:259-273 | the map's keys are exactly the group ids of the entries, each entry stored under its own id of at least 1 |
| Devices.AssociationsOfAccepts | packages/config/src/Devices.ts:259-273 | the map is built exactly when every key is a group key and every definition is accepted; each group then holds the configuration built from the last entry naming it |
| Devices.AssociationsErrorPersists | packages/config/src/Devices.ts:259-273 | once an entry has thrown, the later entries are never looked at |
| Devices.FillAssociations | packages/config/src/Devices.ts:259-273 | the constructor's loop fills exactly the association map of the entries, or throws the first entry's error |
| Devices.OptionsOf | packages/config/src/Devices.ts:543-564 | succeeds exactly for a nullish or array value; nullish gives no options, an array one option per entry; anything else throws a TypeError |
| Devices.ParamInformationOf | packages/config/src/Devices.ts:435-565 | null throws a TypeError; otherwise it succeeds exactly when the label is a string, the description nullish or a string, valueSize a positive number, the three values numbers, unsigned nullish or boolean, the three flags booleans, options well formed and nullish or an array; a failed check throws Config_Invalid, options of another kind a TypeError; on success every field comes from the definition and the parameter and mask from the key |
| Devices.ParamInformationMapOf | packages/config/src/Devices.ts:289-311 | on success every entry key matched the pattern and every stored entry sits under the key it was created for |
| Devices.ParamInformationMapAccepts | packages/config/src/Devices.ts:289-311 | the map is built exactly when every key matches the pattern and every definition is accepted; each key then holds the information built from the last entry naming it |
| Devices.AddParamInformation | packages/config/src/Devices.ts:292-310 | one pass of the loop stores the entry's information, or throws what the map of one more entry throws |
| Devices.ParamInformationErrorPersists | packages/config/src/Devices.ts:289-311 | once an entry has thrown, the later entries are never looked at |
| Devices.FillParamInformation | packages/config/src/Devices.ts:289-311 | the constructor's loop fills exactly the parameter information map of the entries, or throws the first entry's error |
| Devices.DeviceConfigOf | packages/config/src/Devices.ts:192-336 | null throws a TypeError; a bad identity, devices list or firmware range throws InvalidConfig; it succeeds exactly when every check and every association and parameter entry passes; it keeps the identity fields, each product, the firmware range (AnyVersion exactly for false) and the optional maps, each absent exactly when left out |
| Devices.DeviceConfigKeepsSections | packages/config/src/Devices.ts:274-335 | a definition that passes keeps the association map and parameter information map built from its sections, and its compat section |
| Devices.ManufacturerIdOfKey | packages/config/src/Devices.ts:194-201 | a manufacturer id written "0x" with four hex digits is stored as their value, below 0x10000 |
| Firmware.IndexOf | packages/core/src/util/firmware.ts:59 | indexOf gives the first index holding the byte, or -1 exactly when no byte matches |
| Firmware.SliceTo | packages/core/src/util/firmware.ts:59 | slicing to a non-negative end keeps that prefix; a negative end counts from the back |
| Firmware.NameBytes | packages/core/src/util/firmware.ts:57-60 | the name is shorter than the 256-byte field and holds no NUL |
| Firmware.NameOf | packages/core/src/util/firmware.ts:58-66 | the name passes the test exactly when it is one or more ASCII letters, digits or underscores, and is then those characters |
| Firmware.NameToBytes | packages/core/src/util/firmware.ts:58-60 | a name of name characters has one such byte per character, none of them NUL |
| Firmware.FirstMcuMatch | packages/core/src/util/firmware.ts:75 | exec finds the leftmost place where __TargetMcu<digit>__ occurs, and none exactly when there is none |
| Firmware.Target | packages/core/src/util/firmware.ts:68-77 | a name containing __TargetZwave__ targets chip 0; otherwise the digit of the leftmost __TargetMcu<d>__, or no target; a target is always one digit |
| Firmware.McuTagFor | packages/core/src/util/firmware.ts:75 | the MCU tag for a digit is 14 characters |
| Firmware.McuTargetRoundTrip | packages/core/src/util/firmware.ts:68-77 | a name that starts with __TargetMcu<d>__ and does not mention the Z-Wave chip targets MCU d |
| Firmware.ExtractFirmwareAeotec | packages/core/src/util/firmware.ts:34-79 | succeeds exactly for a well-formed updater; fewer than two bytes throw a RangeError, a missing MZ magic number throws Argument_Invalid, as does any failure once the trailer can be read; on success the data is the image the trailer points to and the target the name selects |
| Firmware.MagicNumber | packages/core/src/util/firmware.ts:36 | readUInt16BE(0) takes byte 0 as the high byte |
| Firmware.ExtractFirmware | packages/core/src/util/firmware.ts:20-32 | the aeotec format goes to the Aeotec extractor, every other format to the HEX extractor |
| Firmware.NameField | packages/core/src/util/firmware.ts:57 | the name field is 256 bytes |
| Firmware.Pack | packages/core/src/util/firmware.ts:43-57 | a packed updater is the executable, the image, the 256-byte name field and the 8-byte trailer |
| Firmware.NameFieldEndsName | packages/core/src/util/firmware.ts:57-60 | the first NUL of a name field comes right after the name |
| Firmware.NameBytesOfPack | packages/core/src/util/firmware.ts:57-60 | the name bytes of a packed updater are exactly the name it was packed with |
| Firmware.PackRoundTrip | packages/core/src/util/firmware.ts:34-79 | packing an image under a valid name into an executable and extracting it gives back the image and the target the name selects |
| Firmware.UnterminatedNameDropsLastByte | packages/core/src/util/firmware.ts:57-60 | with no NUL in the name field, the name is its first 255 bytes |

## Left out

- Serial port I/O, message framing (SOF, length, checksum) and the serial API command machine are not part of this model. A command's outcome reaches the command queue as an input event.
- Logging, the value databases, cache files and the Driver's lifecycle are not modelled. The lifecycle covers start, destroy, writeSerial, signal handlers and the interview timers.
- The state chart runtime is not modelled: spawn, forwardTo, raise and invoked services become direct method calls. Side effects toward the outside (promise resolution and rejection, notifications, commands started) are recorded in an `effects` log.
- Timers become input events with no clock. This covers the report timeout, the 500 ms retry delay, the ACK and byte timeouts and the Central Scene key release timer.
- Transaction.ts is not part of this model. The queue order is a rank parameter: each transaction gets a number, and lower numbers go first. Transactions are told apart by an `id` field, where the source compares object references.
- SortedList is not part of this model. The queue is a sequence kept sorted, and a new transaction goes after the ones it ties with.
- StateMachineShared.ts is not part of this model (sendDataErrorToZWaveError, respondUnsolicited). A failure's reason is an input.
- The CommandClass base class is not part of this model. Each command's expected response, its partial-session id, its merge of partial commands and its custom response test are fields or parameters. Where a command class does not override `supportsCommand`, the base answer is `None`.
- parseBitMask and encodeBitMask, the configuration format lookup (getParamInformation), the reducers' predicates and the handshake side effects are parameters.
- isConsecutiveArray is not part of this model. It is read as "each element is one more than the one before", which is true of the empty list.
- The 4-digit hexadecimal key test and the Intel HEX decoder (extractFirmwareHEX) are parameters.
- The CompatConfig constructor is not part of this model. A device file's `compat` section is kept as the raw JSON value.
- JSON: the input is a parsed JSON datatype with integer numbers only, and objects keep their entries in order. JSON5 parsing, the device index and the file system are left out. parseInt's skipping of leading whitespace is not modelled.
- JavaScript numbers above 2^53 are not modelled. Integers are unbounded except where the source truncates or wraps, and there the truncation is written out.
- Text encodings are not modelled:
  - Configuration Name and Info reports keep their text as bytes.
  - Node Naming works on UTF-16 code units with the ASCII and UTF-16LE encodings only.
  - For the firmware file's embedded name the model only asks whether it is all ASCII. That is exactly the case in which UTF-8 decoding keeps every byte as a character.
- Node:
  - The asynchronous interview, notification handling, deserialization from the cache and the translation of value events are left out.
  - Scene values are recorded in a `sceneValues` log of scene value writes in place of the value database; the latest write per scene is read by `LastKey`.
  - The Wake Up No More Information send is a parameter carrying its outcome.
  - The capability report's node information frame stays as bytes (parseNodeInformationFrame is not part of this model).
- Node.Node.constructor: the device class and the initial lists of supported and controlled command classes are not modelled.
- Endpoint.ts is not part of this model beyond the endpoint's index and its command classes.
- DriverReceive.Receiver.OnData: the Security command class is not part of this model. A Nonce Get from a known node is recorded as a `NonceGetToNode` output, and what the node then does with it is left out.
- Multi Channel: CommandClass.fromEncapsulated is not part of this model, so an encapsulated command stays as bytes.
- The rest of `handleRequest` (routing unsolicited commands to nodes, and logging) is left out. The awaited-command list used by `waitForCommand` is left out as well.
- DriverOptions.Merge, DriverOptions.ApplyDefaultOptions: applyDefaultOptions writes the defaults into the caller's options object and its nested objects in place. The model returns the merged value, so it does not capture the caller's own object being changed, nor nested objects shared between the two.
- SendDataMessages.LevelRole: a received command answers a fixed expected response only when its class is exactly that class. The source's `instanceof` also accepts subclasses; the command class hierarchy is not part of this model.
- DriverSend.SendMessagePriority: sendMessage writes the default priority, `supportCheck = true` and, for a sleeping node, the WakeUp priority into the caller's options object. The model returns the priority as a value, so it does not capture that write, nor a shared options object (such as a command class's `commandOptions` passed through sendCommand) carrying a WakeUp priority into later sends.
- ConfigurationCC.NewBulkGetAsWritten, ConfigurationCC.NewBulkGet: the Bulk Get constructor sorts the caller's parameter array in place, so the caller's own array is left reordered (with the string sort, [9, 10] becomes [10, 9]). The model sorts a copy and does not capture that write or its effect on anyone sharing the array.
- Devices.Lookup: a property reads the first entry with its name. JSON parsing keeps the last of repeated names, so the model takes a parsed object to have distinct names.
- NodeTypes.MAX_NODES is 232, the Z-Wave classic node id limit. The node bit mask that defines it in the source is not part of this model.

## Findings

| source | as written | input that shows it | evidently intended | confidence | as-written member | corrected member |
|---|---|---|---|---|---|---|
| packages/zwave-js/src/lib/driver/Driver.ts:1354-1360 | the loop that removes a request handler compares only the first entry of the list, so it can only remove the head | register handler A, then handler B, for one function type; unregister B | the first entry whose handler is B is removed | not executed | DriverRequestHandlers.UnregisterAsWrittenKeepsLaterHandler | DriverRequestHandlers.RegisterUnregisterRoundTrip |
| src/lib/commandclass/CentralSceneCC.ts:118 | the bit mask width is byte 1 masked with 0b110 without the shift right by one, so a width of 1 reads as 2 | payload 02 02 00 07 03: two scenes, width 1. Scene 1's mask is read as 0x0307 and scene 2's as 0, so scene 2 loses KeyPressed | the width is (byte 1 & 0b110) >> 1, and each scene's mask is the width's bytes at its own offset | not executed | CentralSceneCC.SupportedReportWidthCounterexample | CentralSceneCC.SupportsKeyAttributeReadsSceneMask |
| src/lib/commandclass/ConfigurationCC.ts:431 | the Bulk Get parameter list is sorted with `sort()` and no comparator, which compares numbers as strings | parameters [9, 10] sort to [10, 9], which is not consecutive, so the constructor throws CC_Invalid | a numeric sort, so [9, 10] is accepted | not executed | ConfigurationCC.BulkGetStringSortCounterexample | ConfigurationCC.BulkGetAcceptsConsecutiveRuns |
| packages/zwave-js/src/lib/commandclass/NodeNamingCC.ts:228-233 | Name Set and Location Set copy the encoded text to offset 0 of the payload, overwriting the encoding byte; the last byte of the uninitialised buffer keeps whatever it held | the name "AB": the payload starts 41 42 where 00 41 42 is meant, and the report it makes does not read back as "AB" | the encoding byte first, then the text, in a buffer sized to what is copied | not executed | NodeNamingCC.TextSetCounterexample | NodeNamingCC.TextSetRoundTrip |
| packages/zwave-js/src/lib/driver/SendThreadMachine.ts:655-668 | the NIF transition is declared on `sending` with the target `sending.done`; without a leading dot the transition is external, so `sending` is entered again, its entry shifts the queue's head into the current slot and `done` deletes it unsettled | a ping to node 5 is current and transaction T is first in the queue; a NIF from node 5 resolves the ping, T is shifted into the slot and deleted, and T's promise never settles | the transition ends in done without entering sending again, as the child states' `#sending.done` targets do, and T is sent next | not executed | SendThreadMachine.NifAsWrittenAbandonsQueued | SendThreadMachine.SettledKeepsHead |
| packages/zwave-js/src/lib/driver/SendThreadMachine.ts:669-677 | the reduce transition that abandons the current transaction targets `sending.done` from `sending` in the same way, so the head of the reduced queue is shifted into the slot and deleted unsettled | while sending, a reducer requeues the current transaction at WakeUp; the reduced queue's head, possibly that very transaction, is lost | the reduced queue is kept whole and idle takes its head | not executed | SendThreadMachine.ReentryAbandonsHead | SendThreadMachine.SettledKeepsHead |
