# Verified model of an AMQP 0-9-1 client

This project models the core of the Go client for AMQP 0-9-1 and proves what it is for: messages that
many goroutines send over one connection arrive whole, in order and with the values they were sent with;
publisher confirms reach listeners and handles once each and in order; channel ids, channels and Go
channels are handed out, closed and shut down exactly as they should be; and the connection never stays
silent for a whole heartbeat.

`dafny verify dfyconfig.toml` checks everything.

## Layout

| files | what they hold |
|---|---|
| `Bytes`, `Octets`, `Primitives`, `Options`, `Sequences` | octets, network byte order, short and long strings, and what the others share |
| `Fields`, `FieldTheorems`, `FieldIO` | field values, arrays and tables: the codec as functions, its round trip, and the readers and writers that work on buffers |
| `Fieldsets`, `Methods`, `MethodFrames` | the generator's grouping of fields, the generated method readers and writers, the methods of the protocol |
| `Headers`, `Frames` | property flags and lists, content headers, frames |
| `FieldLayouts`, `Layouts`, `MethodLayouts`, `Wire091`, `FrameLayouts` | all of these octet by octet: type octets, widths, byte order, flags and ids written out |
| `Reassembly`, `Demux` | cutting messages into frames and putting them together again, per channel |
| `Multiplex`, `Histories`, `EndToEnd` | concurrent senders on one connection, what their events say about cut messages and lock order, and the whole way from publish to dispatch through octets |
| `Confirms`, `ConfirmRuns`, `ConfirmsImpl`, `Publishing`, `DeliveryTags` | publisher confirms: specification, interleavings, the objects of confirms.go, publishing against shutdown, and delivery tags against the wire |
| `Allocator`, `Registry` | channel ids, the registry of channels, connection shutdown |
| `Consumers`, `Notify`, `Heartbeat` | the delivery buffer, the life of listener channels, the heartbeater |

Code that updates fields or runs loops is modelled by classes and methods that do the same, each proved
against a function or predicate on values. Concurrency is modelled by state machines whose steps are the
critical sections and atomic accesses of the source, and theorems about them hold for every sequence of
steps. A Go map is a Dafny map; a `Tree` or a sequence of entries is that map ranged over in one order,
and results about encoding hold for every such order. Floating-point numbers are bit patterns, times are
Unix seconds and nanoseconds, strings are octet sequences, a uint16 of flags is its sixteen bits, and a
nil table is an empty one.

## What does not hold, and exactly when it does

- A body is never finished, or the sender panics, exactly when the frame size is between 1 and 8 and the
  body is not empty (`Reassembly.ChunkingEnds`).
- `Channel.call` and the flow-ok of `dispatch` send without the channel's lock, so their frame can land
  inside a message that is being published. A message that is finished after such a cut is never dispatched,
  and every other message is (`Histories.DispatchesAllButCut`); every publish without a body can be cut by
  every RPC (`EndToEnd.AnyRpcCuts`), shown down to the octets for basic.publish and tx.select
  (`EndToEnd.RpcCutsMessage`).
- The receiver of a channel.close takes the channel out of its registry, so nothing that is sent on the
  channel after it is dispatched. `Channel.Close` marks nothing closed before the reply, so publishers may
  still write; what was sent is dispatched in full exactly if nothing was cut and nothing followed a
  channel.close (`Histories.DispatchesAllButCut`).
- `readArray` ends at any end of input, also at one right behind the type octet of an item; that item is then
  dropped without an error, while a cut anywhere else is reported (`FieldLayouts.CutArray`).
- A short string survives exactly up to 255 octets and a long string exactly up to 2^31 - 1
  (`Primitives.ShortstrFaithful`, `Primitives.LongstrFaithful`).
- The generated writers never clear the octet that bits are packed into, so a method with two runs of bits
  would be read back wrong (`Methods.TwoRunsLeak`); it is read back right exactly if no bit set in an
  earlier run is clear in a later one (`Methods.ArrivedFaithful`), and no method of the protocol has two runs
  (`MethodFrames.SigOneRun`, `Spec091.Amqp091Valid`).
- A `Multiple` passes its own ack on to listeners even for tags that were confirmed one by one before and
  are waiting in the sequencer; exactly where the two acks differ do listeners and handles disagree
  (`ConfirmRuns.AcksAgree`), and they can (`ConfirmRuns.AcksCanDisagree`).
- A publish reads the confirm mode twice. If `Confirm` completes in between and the send fails, a count is
  taken back that was never made and the counter goes from zero to 2^64 - 1 (`Publishing.FailedPublishRestores`,
  `Publishing.CounterCanUnderflow`). The next publish is then given tag zero (`ConfirmRuns.TagZero`); pending
  tags lie between 1 and the counter exactly as long as no publish takes the counter round
  (`ConfirmRuns.TagsWithinCounter`).
- A publish that is given a tag that is still pending pushes the older handle out of the table, and nothing
  will ever resolve that one. It takes 2^64 publishes (`ConfirmRuns.NoReuse`, `Publishing.NoReuse`), and
  without it no handle is lost (`ConfirmRuns.ForgottenTells`, `Publishing.NoHandleLeftWaiting`).
- A channel whose channel.open fails is released without being shut down, and connection shutdown no longer
  reaches it; exactly those channels, unless something else shut them down, are left running
  (`Registry.ShutdownReachesAll`, `Registry.FailedOpenEscapes`).
- The documentation of `NotifyPublish` promises every listener all tags from 1; the code gives a listener
  those from the tag expected at its registration on. The model follows the code.

## Model

| member | source | states |
|---|---|---|
| Primitives.ReadShortstrInverts | write.go:242-256 | any short string, over-long ones too, is read back as its first (length mod 256) octets, leaving what follows |
| Primitives.ShortstrFaithful | read.go:93-104 | a short string is read back unchanged exactly up to 255 octets |
| Primitives.ReadLongstrInverts | write.go:258-272 | what is read back from a long string of any length, including the empty result above the largest int32 |
| Primitives.LongstrFaithful | read.go:106-122 | a long string is read back unchanged exactly up to 2^31 - 1 octets |
| FieldTheorems.ScalarRoundTrip | write.go:295-406 | each non-recursive field value is read back as its normal form, whatever follows |
| FieldTheorems.TreeRoundTrip | read.go:159-253 | decoding an encoded value, however nested, returns it and leaves exactly the trailing octets |
| FieldTheorems.ItemsRoundTrip | read.go:294-317 | the array loop, ended by end of input of the limited reader, returns exactly the items |
| FieldTheorems.TableRoundTrip | read.go:264-292 | the table loop over the nested buffer returns exactly the entries |
| FieldTheorems.OrderIrrelevant | write.go:412-425 | every iteration order of every map inside a value is received as the same value |
| FieldTheorems.FieldRoundTrip | write.go:291-425 | main codec theorem: every supported value, every iteration order, every trailer |
| FieldTheorems.OrdersSupported | types.go:397-420 | laying out maps neither adds nor hides unsupported values |
| FieldLayouts.ScalarLayout | write.go:295-406 | the exact octets of every value that is not an array or table: type octet, width, two's complement, most significant octet first |
| FieldLayouts.FieldLayout | write.go:291-425 | the exact octets of every nested value, from those of its parts, with the lengths and names of arrays and tables |
| FieldLayouts.ScalarReads | read.go:159-253 | what a reader makes of the octets of each scalar, with int narrowed to its low 32 bits and times to seconds |
| FieldLayouts.FieldReads | read.go:159-317 | what a reader makes of the octets of any value, in any map order, whatever follows |
| FieldLayouts.UnknownType | read.go:251-253 | an octet that is none of the fifteen types is a syntax error |
| FieldLayouts.NegativeArray | read.go:237-246 | a byte array with a length of 2^31 or more is refused; the source panics there |
| FieldLayouts.CutArray | read.go:294-317 | an array cut inside an item is an error, but cut right behind the type octet of an item it ends as if that item were not there |
| FieldLayouts.CutTable | read.go:264-292 | a table cut behind a name is an error |
| FieldIO.WriteField | write.go:291-410 | succeeds exactly on supported values and appends the encoding of the value in the order taken |
| FieldIO.WriteArray | write.go:356-375 | nothing is written before every item is encoded; then size and items |
| FieldIO.WriteTable | write.go:412-425 | ranges over the map in any order; appends the encoding of that order or fails exactly on unsupported values |
| FieldIO.ValidateField | types.go:397-420 | accepts exactly the values that WriteField can write |
| FieldIO.ReadField | read.go:159-253 | consumes and returns what the decoding function says, errors included |
| FieldIO.ReadTable | read.go:264-292 | the loop that fills the map agrees with the decoding function |
| FieldIO.ReadArray | read.go:294-317 | the loop over the limited reader agrees with the decoding function, and EOF alone ends it without error |
| Fieldsets.GroupCorrect | spec/gen.go:378-409 | grouping keeps all fields in order, in non-empty groups whose neighbours differ in type |
| Fieldsets.GroupUnique | spec/gen.go:378-409 | no other grouping has these properties |
| Fieldsets.Merge | spec/gen.go:395-404 | the in-place merge leaves exactly that grouping in the first i + 1 places |
| Fieldsets.Fieldsets | spec/gen.go:378-409 | fails exactly on a type without native counterpart, else returns the grouping |
| Methods.SetsRoundTrip | spec/gen.go:264-350 | what the generated reader makes of what the generated writer wrote, for any field sets |
| Methods.ArrivedFaithful | spec/gen.go:264-269 | that is the message sent exactly when no bit is left over from an earlier run |
| Methods.OneRunIsFresh | spec/gen.go:264-269 | with at most one run of bits none can be |
| Methods.MessageRoundTrip | spec/gen.go:211-221 | the generated reader inverts the generated writer and consumes exactly its octets |
| Methods.TwoRunsLeak | spec/gen.go:264-269 | with two runs of bits it does not |
| MethodFrames.SigOneRun | spec091.go:1190-1257 | a method of the protocol's shape has at most one run of bits, of at most eight |
| MethodFrames.MethodRoundTrip | write.go:35-57 | class id, method id and fields are read back, for every method of a valid specification |
| Spec091.Amqp091Valid | spec091.go:2702-3284 | every method of the protocol has that shape |
| Layouts.QueueDeclareOctets | spec091.go:1190-1230 | the exact octets of queue.declare, flag by flag, as the generated code writes them |
| Layouts.BasicPublishOctets | spec091.go:1945-1972 | the exact octets of basic.publish |
| MethodLayouts.SigOctets | spec/gen.go:264-350 | the generated writer writes the fields one after the other and the bits in one octet, from the lowest up; the grouping does not show |
| MethodLayouts.Layout | write.go:35-57 | ids and fields of any method of a valid specification, octet by octet, and what is read back from them |
| Wire091.ConnectionStart | spec091.go:86-106 | the exact octets of connection.start, field by field, and that they are read back as those fields |
| Wire091.ConnectionStartOk | spec091.go:145-163 | the exact octets of connection.start-ok, field by field, and that they are read back as those fields |
| Wire091.ConnectionSecure | spec091.go:197-203 | the exact octets of connection.secure, field by field, and that they are read back as those fields |
| Wire091.ConnectionSecureOk | spec091.go:225-231 | the exact octets of connection.secure-ok, field by field, and that they are read back as those fields |
| Wire091.ConnectionTune | spec091.go:255-269 | the exact octets of connection.tune, field by field, and that they are read back as those fields |
| Wire091.ConnectionTuneOk | spec091.go:301-315 | the exact octets of connection.tune-ok, field by field, and that they are read back as those fields |
| Wire091.ConnectionOpen | spec091.go:347-366 | the exact octets of connection.open, field by field, and that they are read back as those fields |
| Wire091.ConnectionOpenOk | spec091.go:398-404 | the exact octets of connection.open-ok, field by field, and that they are read back as those fields |
| Wire091.ConnectionClose | spec091.go:429-446 | the exact octets of connection.close, field by field, and that they are read back as those fields |
| Wire091.ConnectionBlocked | spec091.go:497-503 | the exact octets of connection.blocked, field by field, and that they are read back as those fields |
| Wire091.ConnectionUpdateSecret | spec091.go:544-554 | the exact octets of connection.update-secret, field by field, and that they are read back as those fields |
| Wire091.ChannelOpen | spec091.go:598-604 | the exact octets of channel.open, field by field, and that they are read back as those fields |
| Wire091.ChannelOpenOk | spec091.go:626-632 | the exact octets of channel.open-ok, field by field, and that they are read back as those fields |
| Wire091.ChannelFlow | spec091.go:654-666 | the exact octets of channel.flow, field by field, and that they are read back as those fields |
| Wire091.ChannelFlowOk | spec091.go:691-703 | the exact octets of channel.flow-ok, field by field, and that they are read back as those fields |
| Wire091.ChannelClose | spec091.go:731-748 | the exact octets of channel.close, field by field, and that they are read back as those fields |
| Wire091.ExchangeDeclare | spec091.go:807-850 | the exact octets of exchange.declare, field by field, and that they are read back as those fields |
| Wire091.ExchangeDelete | spec091.go:915-939 | the exact octets of exchange.delete, field by field, and that they are read back as those fields |
| Wire091.ExchangeBind | spec091.go:996-1026 | the exact octets of exchange.bind, field by field, and that they are read back as those fields |
| Wire091.ExchangeUnbind | spec091.go:1092-1122 | the exact octets of exchange.unbind, field by field, and that they are read back as those fields |
| Wire091.QueueDeclare | spec091.go:1190-1230 | the exact octets of queue.declare, field by field, and that they are read back as those fields |
| Wire091.QueueDeclareOk | spec091.go:1273-1286 | the exact octets of queue.declare-ok, field by field, and that they are read back as those fields |
| Wire091.QueueBind | spec091.go:1320-1350 | the exact octets of queue.bind, field by field, and that they are read back as those fields |
| Wire091.QueueUnbind | spec091.go:1415-1435 | the exact octets of queue.unbind, field by field, and that they are read back as those fields |
| Wire091.QueuePurge | spec091.go:1491-1511 | the exact octets of queue.purge, field by field, and that they are read back as those fields |
| Wire091.QueuePurgeOk | spec091.go:1544-1550 | the exact octets of queue.purge-ok, field by field, and that they are read back as those fields |
| Wire091.QueueDelete | spec091.go:1576-1604 | the exact octets of queue.delete, field by field, and that they are read back as those fields |
| Wire091.QueueDeleteOk | spec091.go:1639-1645 | the exact octets of queue.delete-ok, field by field, and that they are read back as those fields |
| Wire091.BasicQos | spec091.go:1669-1689 | the exact octets of basic.qos, field by field, and that they are read back as those fields |
| Wire091.BasicConsume | spec091.go:1747-1786 | the exact octets of basic.consume, field by field, and that they are read back as those fields |
| Wire091.BasicConsumeOk | spec091.go:1829-1835 | the exact octets of basic.consume-ok, field by field, and that they are read back as those fields |
| Wire091.BasicCancel | spec091.go:1858-1874 | the exact octets of basic.cancel, field by field, and that they are read back as those fields |
| Wire091.BasicCancelOk | spec091.go:1903-1909 | the exact octets of basic.cancel-ok, field by field, and that they are read back as those fields |
| Wire091.BasicPublish | spec091.go:1945-1972 | the exact octets of basic.publish, field by field, and that they are read back as those fields |
| Wire091.BasicReturn | spec091.go:2022-2038 | the exact octets of basic.return, field by field, and that they are read back as those fields |
| Wire091.BasicDeliver | spec091.go:2084-2111 | the exact octets of basic.deliver, field by field, and that they are read back as those fields |
| Wire091.BasicGet | spec091.go:2153-2173 | the exact octets of basic.get, field by field, and that they are read back as those fields |
| Wire091.BasicGetOk | spec091.go:2220-2247 | the exact octets of basic.get-ok, field by field, and that they are read back as those fields |
| Wire091.BasicGetEmpty | spec091.go:2287-2293 | the exact octets of basic.get-empty, field by field, and that they are read back as those fields |
| Wire091.BasicAck | spec091.go:2316-2332 | the exact octets of basic.ack, field by field, and that they are read back as those fields |
| Wire091.BasicReject | spec091.go:2362-2378 | the exact octets of basic.reject, field by field, and that they are read back as those fields |
| Wire091.BasicRecoverAsync | spec091.go:2407-2419 | the exact octets of basic.recover-async, field by field, and that they are read back as those fields |
| Wire091.BasicRecover | spec091.go:2444-2456 | the exact octets of basic.recover, field by field, and that they are read back as those fields |
| Wire091.BasicNack | spec091.go:2501-2521 | the exact octets of basic.nack, field by field, and that they are read back as those fields |
| Wire091.ConfirmSelect | spec091.go:2659-2671 | the exact octets of confirm.select, field by field, and that they are read back as those fields |
| Wire091.NoFields | spec091.go:477-479 | the methods without fields are their ids and nothing else |
| Wire091.NoOthers | spec091.go:2702-3284 | the ids of all methods there are |
| Headers.AbsentIsDefault | write.go:93-131 | a property is flagged exactly when it differs from its default |
| Headers.PropertiesRoundTrip | read.go:341-416 | the flags and the property list are read back slot by slot |
| Headers.RecordRoundTrip | write.go:73-205 | the properties record is read back, with headers and timestamp in normal form |
| Headers.BuildMask | write.go:88-131 | the first pass sets exactly the flags of the properties that differ from their defaults |
| Headers.WriteList | write.go:137-201 | the second pass writes exactly the flagged properties, in order |
| Headers.WriteProperties | write.go:73-205 | both passes together; fails exactly when the headers hold an unsupported value |
| FrameLayouts.FlagsLayout | types.go:180-193 | each property has its flag, from 0x8000 down to 0x0008, set exactly if it differs from its default |
| FrameLayouts.PropertiesLayout | write.go:88-201 | the flags and then the flagged properties, in order, octet by octet |
| FrameLayouts.HeaderLayout | write.go:73-205 | the exact octets of a content header |
| FrameLayouts.ReservedProperty | read.go:412-416 | the reader takes one more string for flag 0x0004 |
| Frames.FrameHeader | write.go:214-240 | type, channel and size of a written frame are read back |
| Frames.FrameRoundTrip | read.go:46-91 | any frame with a payload under 2^32 octets is read back, leaving what follows |
| Frames.FramesRoundTrip | read.go:46-91 | any sequence of frames written back to back is read back, and then the input ends cleanly |
| FrameLayouts.FrameLayout | write.go:214-240 | the exact octets of each type of frame, with the end octet |
| FrameLayouts.RefusedFrames | read.go:46-91 | an unknown type, a heartbeat with a payload and a wrong end octet are refused |
| Reassembly.ChunksCorrect | channel.go:277-289 | every octet of a body is sent once, in order, in non-empty chunks of at most the frame's room, all but the last full |
| Reassembly.ChunkBody | channel.go:277-289 | the chunking loop sends exactly those chunks |
| Reassembly.ChunkingEnds | channel.go:228-289 | the loop ends exactly when the body is empty or the frame size is zero or above eight |
| Reassembly.FramesFit | channel.go:223-303 | the frames of a message with content: method, header with the body's length, and body frames that hold the body, none longer on the wire than the frame size and all but the last exactly as long |
| Reassembly.FrameStep | channel.go:385-468 | the next frame of a message takes the machine one step further, the last one dispatches it |
| Reassembly.SelfSynchronising | channel.go:385-468 | from any state, the frames of one message dispatch exactly that message, for any chunking of its body |
| Reassembly.ContentArrives | channel.go:385-468 | for basic.publish, return, deliver and get-ok, from any state and for any chunking, the method is dispatched with exactly its properties and body |
| Reassembly.OthersAtOnce | channel.go:385-398 | every other method is dispatched as soon as its frame arrives |
| Reassembly.BufferIsBodySoFar | channel.go:440-461 | while collecting, the buffer is the concatenation of the body frames since the header and short of the declared size |
| Demux.DemuxProjects | connection.go:692-709 | each registered channel sees exactly its own frames in wire order, up to and including its first channel.close, and stays registered exactly if there is none |
| Demux.FeedUpTo | channel.go:307-321 | what a channel dispatches up to its release is what reassembling all its frames would dispatch, up to the first channel.close |
| Demux.EveryCloseAnswered | connection.go:722-744 | every channel.close is answered by one close-ok, whether its channel is still registered or not |
| Demux.RegisteredFrame | connection.go:692-709 | by its ids: exactly a channel.close marks its channel closed, takes it out and is answered; no other channel is touched |
| Demux.UnregisteredFrame | connection.go:722-744 | what is answered to a frame for a channel that is not registered |
| Demux.Channel.RecvMethod | channel.go:385-409 | the state of a channel after a frame in the method state |
| Demux.Channel.RecvHeader | channel.go:411-436 | the state of a channel after a frame in the header state |
| Demux.Channel.RecvContent | channel.go:440-468 | the state of a channel after a frame in the content state |
| Demux.Channel.Handle | types.go:481-487 | a channel.close marks the channel closed before it is handled |
| Demux.Connection.Demux | connection.go:645-709 | only the frame's own channel changes, as the reassembly function says; a channel.close takes it out of the registry; a frame for an unknown channel is answered as dispatchClosed does |
| Demux.Connection.DispatchClosed | connection.go:722-744 | close-ok for a channel.close, nothing for a close-ok or content, a refusal for any other method |
| Multiplex.ChanInvStep | channel.go:223-303 | every step of every sender keeps the invariant of its channel |
| Multiplex.NextKeeps | connection.go:555-573 | every event on any channel keeps the invariants of all channels |
| Multiplex.DispatchesWhatWasSent | channel.go:385-468 | in every interleaving each channel dispatches exactly the messages sent on it that no RPC frame cut, in order, up to the first channel.close |
| Multiplex.WholeMessagesOnTheWire | channel.go:1541-1577 | the frames of a channel are whole messages and at most one unfinished prefix |
| Multiplex.NoRpcNoLoss | channel.go:174-177 | without RPCs on a channel no message is ever cut |
| Multiplex.NothingAfterCloseOk | channel.go:307-321 | after close-ok no lock-holding sender writes, and close-ok is never written behind an unfinished message |
| Multiplex.CloseOkIsLast | channel.go:210-221 | on the wire: after a channel.close-ok only RPC frames follow on the channel |
| Multiplex.ClosedStops | connection.go:555-560 | once the connection is closed the lock holder of a channel writes at most the one frame it was cleared for |
| Histories.DispatchesAllButCut | channel.go:174-177 | the same told by events: lost is exactly a message that is finished after an RPC frame was written part way through it, and everything sent is dispatched exactly if there is none and nothing follows a channel.close |
| Histories.InLockOrder | channel.go:1541-1577 | the messages sent under the channel's lock are on the wire in the order in which their senders took the lock, and they are exactly those whose senders finished |
| EndToEnd.PublishToDispatch | channel.go:223-303 | from any interleaving through octets, in any map order, to dispatch: exactly the uncut messages, in order and in normal form, up to the first channel.close |
| EndToEnd.AnyRpcCuts | channel.go:174-177 | every message without a body can be cut by every RPC |
| EndToEnd.RpcCutsMessage | channel.go:174-177 | for every basic.publish without body and properties, a run in which a tx.select cuts it: all octets are sent, and the receiver dispatches the tx.select alone |
| Confirms.AddRemove | confirms.go:42-57 | publish and unpublish with confirmations in between restore the counter, leave the pending map as the confirmations alone would, resolve the dropped handle once and touch no other |
| Confirms.AddForgets | confirms.go:137-145 | a handle is lost exactly if its tag was still pending when it came up again |
| Confirms.AddRecent | confirms.go:42-48 | no pending tag comes up again before the counter has gone all the way round |
| Confirms.SettleKeeps | confirms.go:148-157 | settling handles keeps the table exact, closes none twice and loses none |
| Confirms.ResolveKeeps | confirms.go:159-183 | so does confirming one or many |
| Confirms.SettleTells | confirms.go:159-201 | which handles change, and to what ack |
| Confirms.ResequenceRun | confirms.go:70-81 | resequencing passes on exactly the unbroken run of buffered confirmations up to the last publish, and none beyond it |
| Confirms.MultipleRun | confirms.go:99-109 | Multiple passes on every tag up to its own, with its own ack |
| Confirms.OneRun | confirms.go:84-96 | One passes on the expected tag or buffers any other |
| ConfirmRuns.ListenersInOrder | channel.go:637-642 | in every interleaving a listener has received exactly the tags since its registration, in order, once each, with the acks that all listeners are given |
| ConfirmRuns.ListenersStep | confirms.go:34-39 | a listener joins the others and starts with the next tag to come; nothing but closing removes one |
| ConfirmRuns.ListenersStay | confirms.go:34-67 | in every interleaving a listener keeps its place and all it has received until the confirms are closed |
| ConfirmRuns.NothingHeldBack | confirms.go:70-109 | after One or Multiple, expecting - 1 is the largest m with all of 1..m confirmed |
| ConfirmRuns.AcksAgree | confirms.go:99-109 | the ack in a listener's log is the ack in the handle of that tag, exactly unless a Multiple passed the tag on with the opposite of its buffered ack |
| ConfirmRuns.AcksCanDisagree | confirms.go:99-109 | a run in which a listener hears an ack for a tag whose handle holds a nack |
| ConfirmRuns.AckTells | confirms.go:159-201 | over every run, closed or not, a handle holds an ack if and only if an ack named its tag while it was pending |
| ConfirmRuns.CloseNacks | confirms.go:186-194 | closing nacks what is pending and keeps what was resolved |
| ConfirmRuns.HandlesOnce | confirms.go:126-201 | every handle is closed at most once, pending ones never, and in fewer than 2^64 publishes pending are exactly the unresolved |
| ConfirmRuns.ForgottenTells | confirms.go:137-145 | pending are exactly the unresolved if and only if no publish was given a tag that was still pending |
| ConfirmRuns.NoReuse | confirms.go:42-57 | that takes 2^64 publishes, however often the counter is taken back |
| ConfirmRuns.TagsWithinCounter | confirms.go:42-57 | pending tags lie between 1 and the counter throughout a run if and only if no publish takes the counter round |
| ConfirmRuns.TagZero | confirms.go:42-57 | taking back a count that was never made makes the next publish's tag zero |
| ConfirmsImpl.DeferredConfirmations.Add | confirms.go:137-145 | the new table and the new handle |
| ConfirmsImpl.DeferredConfirmations.Remove | confirms.go:148-157 | the new table |
| ConfirmsImpl.DeferredConfirmations.Confirm | confirms.go:159-171 | the new table |
| ConfirmsImpl.DeferredConfirmations.ConfirmMultiple | confirms.go:173-183 | the loop over the map, in any order, settles exactly the tags up to the given one |
| ConfirmsImpl.DeferredConfirmations.Close | confirms.go:186-194 | the loop over the map nacks everything pending |
| ConfirmsImpl.PublisherConfirms.Listen | confirms.go:34-39 | the listener is appended |
| ConfirmsImpl.PublisherConfirms.Publish | confirms.go:42-48 | counter, with its wrap-around, and table after a publish |
| ConfirmsImpl.PublisherConfirms.Unpublish | confirms.go:52-57 | counter, with its wrap-around, and table after an unpublish |
| ConfirmsImpl.PublisherConfirms.Notify | confirms.go:61-67 | the loop gives every listener the confirmation once |
| ConfirmsImpl.PublisherConfirms.Resequence | confirms.go:70-81 | the loop agrees with the specification |
| ConfirmsImpl.PublisherConfirms.One | confirms.go:84-96 | queue and table after One |
| ConfirmsImpl.PublisherConfirms.Multiple | confirms.go:99-109 | queue and table after Multiple |
| ConfirmsImpl.PublisherConfirms.Close | confirms.go:113-124 | all handles nacked, listeners forgotten |
| Publishing.NoHandleLeftWaiting | channel.go:100-153 | once the channel has shut down every handle is resolved, once, whenever no publish holds the lock, whatever raced with it, if and only if no tag came up again while pending |
| Publishing.AckTells | channel.go:100-153 | over every run a handle holds an ack if and only if the server acked its tag while it was pending, so one that a shutdown or a failed publish resolved holds a nack |
| Publishing.ShutdownNacks | channel.go:144-147 | what is pending when the channel shuts down is resolved with a nack, what was resolved before keeps its ack |
| Publishing.NoReuse | confirms.go:42-57 | none does in fewer than 2^64 publishes |
| Publishing.FailedPublishRestores | channel.go:1544-1574 | a failed publish restores the counter exactly unless confirm mode came on after it looked; it leaves the pending map as it found it less what was confirmed in the meantime, resolves its own handle once and changes no other |
| Publishing.CounterCanUnderflow | channel.go:1544-1571 | a run in which the counter wraps around |
| Publishing.NothingAfterFailure | connection.go:555-573 | once a write has failed or the connection is closed nothing is published any more |
| Publishing.TagIsPosition | channel.go:1541-1577 | the i-th publish on the wire returns the i-th handle, whose tag is i modulo 2^64 |
| Publishing.PositionsOnWire | channel.go:1541-1577 | every publish on the wire but the one that holds the lock has returned its handle, in order |
| DeliveryTags.LinkRun | channel.go:1541-1577 | publishers and senders run side by side, with any confirmations coming in, agree on who holds the lock, on what has failed and on the publishes on the wire |
| DeliveryTags.TagOnWire | channel.go:1541-1577 | in every interleaving the tag of a publish that has been written is the number of basic.publish method frames on its channel's wire, and the last of these is its own |
| Allocator.NextDeterministic | allocator.go:71-99 | the description of next admits one outcome only |
| Allocator.AllocatorObject.NextId | allocator.go:71-99 | next returns the cyclically first free id, changes only its bit, and fails exactly when all are reserved |
| Allocator.AllocatorObject.Reserve | allocator.go:103-109 | claims a bit exactly if it was free |
| Allocator.AllocatorObject.ReleaseId | allocator.go:117-119 | frees a bit and nothing else |
| Allocator.ReuseIsFair | allocator.go:66-99 | over any trace, between two allocations of an id every other id was handed out or found reserved |
| Registry.ChannelMaxRespected | connection.go:1021-1027 | the tuned channel limit is usable, exceeds neither side's, and is the smaller of two, the only one, or 2047 |
| Registry.PickMeaning | connection.go:1157-1163 | negotiation takes the smaller of two limits, or the only one there is |
| Registry.RegistryMatchesAllocator | connection.go:840-871 | in every run the registered ids are exactly the reserved ones, within the limit, one channel each |
| Registry.IdsWithinServerLimit | connection.go:1157-1163 | no channel ever gets an id above a limit of the server |
| Registry.ShutdownReachesAll | connection.go:600-641 | after connection shutdown a channel has not been shut down if and only if a failed open had released it and nothing shut it down by itself |
| Registry.FailedOpenEscapes | connection.go:875-886 | a run in which one escapes |
| Registry.Connection.AllocateChannel | connection.go:840-857 | a fresh, registered channel, or nothing exactly when closed or out of ids |
| Registry.Connection.ReleaseChannel | connection.go:861-872 | releases the id only of the channel registered under it |
| Registry.Connection.CloseChannel | connection.go:891-894 | shut down and released; a second close or a close after reuse of the id releases nothing |
| Registry.Connection.ShutChannels | connection.go:629-631 | the loop over the registry shuts down exactly the registered channels |
| Registry.Connection.Shutdown | connection.go:600-641 | the state after connection shutdown, once only |
| Consumers.FirstInFirstOut | consumers.go:54-109 | for every schedule what went out is a prefix of what came in, and all of it if the loop ended and the closed signal never came |
| Consumers.ClosingIsBounded | consumers.go:54-109 | once the input is closed every schedule ends within queue length plus two steps, and it can go on exactly until the loop has ended |
| Consumers.RunBuffer | consumers.go:54-109 | the range loop with the select loop in it: what goes out is the first of what came in, in order, the queue is the rest, and nothing is left unless the closed signal ended the loop |
| Consumers.Select | consumers.go:64-105 | one round of the select |
| Notify.ClosedOnceAndLast | channel.go:100-153 | in every interleaving every listener and consumer channel is closed at most once and not sent to afterwards |
| Notify.NoListenerAfterShutdown | channel.go:507-518 | after shutdown every listener ever registered is closed, one registered later is closed at once, and every consumer input is closed but those of consumers added later |
| Notify.ShutdownCompletes | channel.go:100-153 | the steps of shutdown close everything that was open and leave nobody registered |
| Notify.AccountedRun | consumers.go:112-153 | a channel that is no longer served has been closed |
| Notify.ListenersHear | channel.go:323-347 | an event reaches, once each, exactly the listeners that were registered for its kind and have not been closed |
| Notify.ConsumersHear | consumers.go:159-169 | a delivery reaches exactly the open input of its consumer |
| Heartbeat.NeverSilentForLong | connection.go:777-826 | with T half the negotiated heartbeat the gap between frames is at most max(T, 2T - 1s), below the heartbeat, for every traffic and every lost notification |
| Heartbeat.BoundIsReached | connection.go:799-808 | that bound is met |
| Heartbeat.Heartbeater | connection.go:777-826 | the select loop sends exactly the frames of the schedule, none further apart than the bound |

## Left out

- Dialling, TLS, sockets, deadlines, buffering and logging: I/O over libraries; a failed write is only assumed to be permanent.
- URI parsing, SASL mechanisms, error-code tables, copying between deliveries, returns and messages: only easy members.
- RPC wrappers and the matching of their results by reflection; in `Multiplex` an RPC frame may be written whenever the writer works, which covers more interleavings than its closed check allows.
- Connection methods on channel zero, and a receiving connection that is being closed, or opens and closes channels of its own accord, while it reads: `Demux` follows one registration of each channel, from its first frame to its channel.close.
- Heartbeat frames on other channels than zero, on which the source panics: excluded by `Routable` and by the preconditions of the reassembly steps.
- The wrap-around of `expecting` after 2^64 notifications: the publish counter wraps both ways, `expecting` is unbounded.
- The order of listeners within a kind: `Notify` keeps them as sets and takes the loops over them as one step, since each is one critical section; Go channels are names there, not heap objects.
- Concurrent senders, publishing and shutdown are modelled on values (`Multiplex`, `Publishing`, `DeliveryTags`, `Notify`): their objects are shared between goroutines, and the steps between lock operations are what matters.
- Blocking on full Go channels, and deadlock freedom with slow receivers: that depends on the application.
- The timestamp type in generated methods: its template calls a writer that the repository does not define, and no method uses it.
- The textual form of the allocator, consumer tag generation and XML parsing in the generator.
