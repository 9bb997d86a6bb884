# Cuttlefish guest and host logic, verified in Dafny

This project models the stateful core of the Cuttlefish virtual Android device and proves what that core is
for: how the confirmation UI session and its wire protocol behave, how the camera answers capture requests, how
netlink requests are built, and how the shared utilities (queues, resource pools, flags, sparse files,
`misc_info.txt`, checksums) keep their promises. `dafny verify dfyconfig.toml` checks everything.

## What is modelled

**Runs** (`Runs`, `Sequences`). A state machine is a step function; `Run` gives the state a list of acts leads to.
The session, the camera loop and the multiplexer are such machines. `Sequences` is about order-preserving parts.

**Confirmation UI session** (`ConfUiSession`, `ConfUiRuns`, `ConfUiSafety`, `ConfUiProgress`, `ConfUiFirstAck`,
`ConfUiCalls`, `ConfUiTraffic`, `ThreadSafeQueue`). Three threads (the HAL thread serving one client call at a time,
the per-session worker and the host message fetcher) take atomic steps over two locks, a condition variable and the
incoming queue. `Do` gives the state after one act, `After` the state after a whole run; an act can be a thread's
step, a client call, a spurious wakeup or a message from the host. A history of every session (identifier, messages
consumed, result, callbacks made) and of everything the guest sent is part of the state, so properties of whole runs
are read off it. The host is any host that speaks only of sessions it was asked to start and opens each with an ack.

**Confirmation UI protocol** (`SharedBuf`, `Packet`, `Protocol`). A `Stream` holds the bytes written and not yet
read; an arbitrary function decides how many bytes each system call moves, or that it fails. On top of it are
the write-all and read-exact loops, length-prefixed packets and the seven message classes.

**Camera** (`CameraSession`, `StreamBufferCache`). A run interleaves request submission with passes of the
capture loop; what a pass meets at each buffer (format, whether a frame or JPEG has arrived, whether locking
works) is arbitrary input. The priority queue is a map whose top is any request with the lowest frame number.

**Netlink** (`NetlinkRequest`). The request is a flat byte buffer with back-patched list lengths. Its meaning is
a `Draft`: a forest of attributes plus the lists still open.

**Concurrency utilities** (`Multiplexer`). Producers and any number of consumers step over queues and a counting
semaphore; the default selector scans one queue per step, so other threads can interfere with the scan.

**Utilities** (`ResourceAllocator`, `FlagParser`, `SparseCopy`, `MiscInfo`, `IpChecksum`, `Text`, `Wrappers`).
A flag's setter is an arbitrary function of every setter call made so far. A sparse file is its bytes plus,
byte by byte, whether they lie in a data extent.

Bytes are `char` where the source uses `std::string` and numbers below 256 in `NetlinkRequest`; every statement
about them holds for all characters.

## Where the code differs from what it says, or from what one would expect

- The first message of a session is checked to be the start ack, and the code states that its logic guarantees
  this. It does not: the 20-place queue drops its older half when full, so a host that sends 21 messages before
  the worker takes the ack gets the ack dropped; and session names repeat after 2^32 sessions, so a message left
  over from the first bearer of a name can reach the second. `ConfUiFirstAck.FirstAckThreshold` says exactly when.
- A message the fetcher holds for the current session is lost to it exactly when the worker is just replacing that
  session (`ConfUiProgress.FetchedMessageCanBePushed`); `ConfUiProgress.ReplacedWhileHeld` is a run that comes to this.
- The session's phases announce a wait for an ack to the stop message; the code does not wait, nor does the
  model.
- The command name table lists the input event twice, so a touch event is sent under the name `kUnknown` and
  decodes to nothing (`Protocol.DecodeInvertsEncode`); its decoder alone would have given it back
  (`Protocol.TouchDecoderInverts`).
- A start message with a negative option is refused by its own decoder (`Protocol.OptionsRoundTrip`).
- A packet whose session id or command holds a colon does not come back (`Packet.ParseInvertsPayload`).
- A header that announces exactly one item more than it has sizes for is read past its last token, where one that
  announces more still is refused (`Packet.TooFewSizes`).
- `SemPost` waits while the count is above the capacity, so the count can reach capacity + 1
  (`Multiplexer.CountReachesCapacityPlusOne`).
- The pop behind the default selector can block exactly when there are at least two queues and two consumers, at
  any capacity (`Multiplexer.BlocksExactlyWhen`).
- Erasing a buffer id that is not cached, and taking a list with a repeated item, have no defined outcome; the model
  says exactly when (`StreamBufferCache.StreamBufferCache.Remove`, `ResourceAllocator.UniqueResourceAllocator.TakeAll`).
- A netlink request that outgrows its 512 reserved bytes leaves its header pointer behind, and the pointers of the lists
  open at that moment. Building and handing out a request is defined exactly when the whole fits
  (`NetlinkRequest.Perform`); `NetlinkRequest.OutgrownList` gives short call lists on both sides of the limit.
- Attribute data of 65536 bytes or more are cut, because their length is passed in 16 bits
  (`NetlinkRequest.Request.AppendTag`).
- A failed truncate is only logged, so a copy that reports success can lack a trailing hole
  (`SparseCopy.CopyIsFaithful`).
- The checksum's accumulator is 32 bits wide and folded twice; beyond 65537 words it can differ from the
  ones'-complement sum (`IpChecksum.ChecksumIsOnesComplement`, `IpChecksum.LimitIsSharp`).
- Result metadata is sent once for a request whose settings carried no sensor timestamp, and never for one
  that brought its own (`CameraSession.EveryRequestExactlyOnce`).

## Model

| member | source | states |
|---|---|---|
| `ConfUiSafety.EveryRunSound` | guest/hals/confirmationui/guest_session.cpp:28-181 | in every interleaving the lock, listener-state, queue and history invariants hold: no second worker, no use of a destroyed session, no failed check but the one on the first message |
| `ConfUiSafety.DoKeeps` | guest/hals/confirmationui/TrustyConfirmationUI.cpp:91-218 | every act of every thread and of the environment keeps those invariants |
| `ConfUiSafety.HalKeeps` | guest/hals/confirmationui/TrustyConfirmationUI.cpp:164-250 | every HAL step (prompt, deliver, abort) keeps them and never faults |
| `ConfUiSafety.WorkerKeeps` | guest/hals/confirmationui/guest_session.cpp:28-181 | every worker step keeps them; the only fault it can cause is the first-message check |
| `ConfUiSafety.EverySessionKeepsItsPromise` | guest/hals/confirmationui/guest_session.cpp:71-180 | in every run a session that was set up and is over has exactly the result its second message calls for: OK with that message and token after `user_confirm`, CANCELED after `user_cancel`, ABORTED after an abort, SYSTEM_ERROR after an ack or any other response; a refused start gives the code of its error text, or SYSTEM_ERROR; all under its own id; the callback runs exactly once with that result if the start ack succeeded and one was given, otherwise never; a local abort is never the first message consumed |
| `ConfUiSafety.ListenerMovesAlongEdges` | guest/hals/confirmationui/guest_session.cpp:63-121 | each step of each run leaves the listener state or moves it along None, Starting, SetupDone, Interactive, Terminating, None, or from Starting to Terminating |
| `ConfUiSafety.NamesRepeatOnlyOnWrap` | guest/hals/confirmationui/guest_session.h:108-110 | two sessions share a name exactly when a multiple of 2^32 sessions lies between them |
| `ConfUiProgress.NoCircularWait` | guest/hals/confirmationui/TrustyConfirmationUI.cpp:107-118 | in every reachable state no chain of waits over the locks, the queue, the condition variable and the join comes back to its start |
| `ConfUiProgress.StuckOnlyOnOutsiders` | guest/hals/confirmationui/TrustyConfirmationUI.cpp:164-218 | when no thread can move, the HAL is idle or waiting in a prompt, and the worker waits only for the host |
| `ConfUiProgress.FetchedMessageCanBePushed` | guest/hals/confirmationui/TrustyConfirmationUI.cpp:91-122 | from every reachable state a message the fetcher holds for the current session, with or without the session lock, can be pushed into its queue by steps of the three threads alone, if and only if the worker is not just replacing the session |
| `ConfUiProgress.ReplacedWhileHeld` | guest/hals/confirmationui/TrustyConfirmationUI.cpp:129-135 | a run that reaches the excepted case |
| `ConfUiProgress.ThreadsComeToRest` | guest/hals/confirmationui/TrustyConfirmationUI.cpp:91-218 | from every reachable state the threads by themselves take at most 1400 steps, however scheduled, and when none can move the fetcher has disposed of its message |
| `ConfUiFirstAck.WithinLimitNeverFaults` | guest/hals/confirmationui/guest_session.cpp:81-86 | runs of at most 2^32 sessions in which no session is sent more than 20 messages before it takes its first never fail the first-message check, whatever is sent afterwards |
| `ConfUiFirstAck.OverflowFaults` | guest/hals/confirmationui/guest_session.h:97-106 | some run of one session with 21 messages before the first is taken does |
| `ConfUiFirstAck.SilenceNeverFaults` | guest/hals/confirmationui/guest_session.cpp:81-86 | a run in which no session is sent anything while it awaits its first message never fails the check, however many sessions there are |
| `ConfUiFirstAck.WrapFaults` | guest/hals/confirmationui/guest_session.h:108-110 | some run of 2^32 + 1 sessions does with one such message, by a message left over from the first bearer of a name |
| `ConfUiFirstAck.FirstAckThreshold` | guest/hals/confirmationui/guest_session.cpp:81-86 | a faulting run of at most m sessions with at most b messages to each before its first is taken exists if and only if m >= 1 and b > 20, or m > 2^32 and b >= 1 |
| `ConfUiCalls.AbortIsPushed` | guest/hals/confirmationui/guest_session.cpp:221-235 | in every run an abort call that finds its session set up or interactive puts an abort for that session at the back of its queue and tells the host; otherwise queue and host see nothing of it |
| `ConfUiCalls.AbortEndsSession` | guest/hals/confirmationui/guest_session.cpp:147-151 | after such an abort the threads by themselves, however scheduled, come to rest only with the session over and its result due |
| `ConfUiCalls.AbortEndsAborted` | guest/hals/confirmationui/guest_session.cpp:147-151 | if the session awaited its answer with nothing queued, that result is ABORTED, whatever the fetcher still brings |
| `ConfUiCalls.PromptIsRefused` | guest/hals/confirmationui/TrustyConfirmationUI.cpp:173-184 | in every run a prompt call that finds the state lock taken, or a session set up or interactive, leaves everything as it was |
| `ConfUiCalls.PromptStartsSession` | guest/hals/confirmationui/TrustyConfirmationUI.cpp:177-207 | in every run a prompt call that got the lock otherwise adds one session with its own callback and prompt by the time the threads come to rest |
| `ConfUiCalls.InputIsDelivered` | guest/hals/confirmationui/guest_session.cpp:198-211 | in every run an input event goes to the host as a confirmation or a cancellation of the running session if that is interactive, waits while it is being set up, and is dropped otherwise |
| `ConfUiTraffic.StartsAndStopsAreOwed` | guest/hals/confirmationui/guest_session.cpp:71-178 | in every run the start and stop messages sent are, session by session, one start for each whose prompt was not too long and one stop for each that ended OK or CANCELED |
| `ConfUiTraffic.OnlyCallsTellTheRest` | guest/hals/confirmationui/guest_session.cpp:183-235 | in every run anything else is sent only by an abort call on a live session or an input event on an interactive one |
| `ConfUiTraffic.SessionsTakeWhatTheHostSent` | guest/hals/confirmationui/TrustyConfirmationUI.cpp:91-122 | in every run what a session took, its own aborts aside, is an order-preserving part of what the host sent under its name |
| `ThreadSafeQueue.Queue.DropItemsIfAtCapacity` | common/libs/concurrency/thread_safe_queue.h:88-99 | what the full-queue handler leaves and whether there is room |
| `ThreadSafeQueue.Queue.Push` | common/libs/concurrency/thread_safe_queue.h:64-75 | the new contents, and that a push is refused exactly when the handler made no room |
| `ThreadSafeQueue.Queue.Pop` | common/libs/concurrency/thread_safe_queue.h:46-54 | first in, first out; waits while empty |
| `ThreadSafeQueue.HalfDroppingPush` | guest/hals/confirmationui/guest_session.h:97-106 | with the half-dropping handler the queue stays within its limit and keeps a suffix of what was pushed, ending in the new item |
| `SharedBuf.Stream.WriteAll` | common/libs/fs/shared_buf.cc:33-48 | a non-negative result counts exactly the bytes written, in order; all of them if no call fails or stalls |
| `SharedBuf.Stream.ReadExact` | common/libs/fs/shared_buf.cc:50-65 | what is read is exactly what left the front of the stream; the requested size if that much is there and no call fails |
| `Packet.ToPayload` | common/libs/confui/packet.h:66-101 | the loops build the header and the concatenated data |
| `Packet.ParseRawData` | common/libs/confui/packet.cpp:58-139 | the loops compute `Parse` on every input, with its rejections and faults |
| `Packet.ParsesExactlyEncodings` | common/libs/confui/packet.cpp:68-138 | an input parses to a packet if and only if it is that packet written out: session id and command without colons, the number of items, their sizes (leading zeros allowed), and the items |
| `Packet.TooFewSizes` | common/libs/confui/packet.cpp:95-108 | if all sizes given are numbers, one size too few is a fault and fewer are a refusal |
| `Packet.ParseInvertsPayload` | common/libs/confui/packet.cpp:58-139 | parsing a payload gives the packet back if and only if its session id and command hold no colon, whatever the data hold |
| `Packet.WritePayload` | common/libs/confui/packet.h:109-133 | success means exactly the frame was appended |
| `Packet.ReadRawData` | common/libs/confui/packet.cpp:23-56 | the payload taken, the bytes left, and which inputs are refused; a payload is returned only if the whole of it was read, even when calls fail |
| `Packet.ReadPayload` | common/libs/confui/packet.cpp:141-153 | the outcome and the bytes left for every input; no packet is made up when calls fail |
| `Packet.Exchange` | common/libs/confui/packet.cpp:23-139 | any list of packets written and read back under any short writes and reads is the same list |
| `Protocol.CmdRoundTrip` | common/libs/confui/protocol_types.cpp:28-82 | reading a printed command name gives the command back if and only if it is not the touch event |
| `Protocol.UiOptsToString` | common/libs/confui/protocol_types.cpp:130-140 | appending commas and dropping the last one is joining with commas |
| `Protocol.OptionsRoundTrip` | common/libs/confui/protocol_types.cpp:87-92 | option lists of any length come back if and only if none is negative, and are refused otherwise |
| `Protocol.DecodeStart` | common/libs/confui/protocol.cpp:184-224 | the decoding loop computes `StartOf` on every packet, with its refusals and exceptions |
| `Protocol.StoiReads` | common/libs/confui/protocol.cpp:240-254 | a text reads as a number if and only if it starts with that number, in 32 bits, after white space and perhaps a sign |
| `Protocol.DecodesWhenEnough` | common/libs/confui/protocol.cpp:161-270 | any packet: too few items or an unknown command decode to nothing; enough items decode, an ack only with exactly two |
| `Protocol.DecodedCarriesItems` | common/libs/confui/protocol.cpp:161-270 | any packet: what decodes carries the items of the packet in their places |
| `Protocol.StartOptionsDecide` | common/libs/confui/protocol.cpp:184-224 | a start message decodes if every option is a number in range; otherwise the first that is not decides between refusal and exception |
| `Protocol.SendOver` | common/libs/confui/protocol_types.cpp:116-172 | success means exactly the message's frame was appended |
| `Protocol.RecvConfUiMsg` | common/libs/confui/protocol.cpp:87-100 | the message decoded and the bytes left for every input; no message is made up when calls fail |
| `Protocol.DecodeInvertsEncode` | common/libs/confui/protocol.cpp:54-82 | decoding a message's packet gives the message back for start with natural options, stop, ack, response, abort and selection, and nothing for touch or a negative option |
| `Protocol.TouchDecoderInverts` | common/libs/confui/protocol.cpp:240-254 | the touch decoder inverts the touch encoder for all coordinates |
| `Protocol.MessageRoundTrip` | common/libs/confui/protocol.cpp:161-270 | over the wire a message that fits comes back if and only if its session id has no colon, it is no touch event and it has no negative option |
| `Protocol.Converse` | common/libs/confui/protocol.cpp:87-157 | any list of such messages sent and received under any short writes and reads is the same list |
| `CameraSession.SortBuffers` | guest/hals/camera/vsock_camera_device_session_3_4.cpp:479-540 | one pass defers, in order, exactly the blob buffers just asked for or with a JPEG pending under two seconds, and answers the others in order, with success exactly for a copied YUV or blob picture that was not flushed or timed out; it fails exactly when some buffer is not cached or its stream not configured |
| `CameraSession.SortConserves` | guest/hals/camera/vsock_camera_device_session_3_4.cpp:479-540 | answered and deferred together are the buffers asked for, as often as asked |
| `CameraSession.NoneDeferredLate` | guest/hals/camera/vsock_camera_device_session_3_4.cpp:500-533 | a pass two seconds or more after the shutter defers nothing |
| `CameraSession.CaptureLoop.ProcessOneCaptureRequest` | guest/hals/camera/vsock_camera_device_session_3_4.cpp:315-358 | refused, with nothing changed, if and only if the settings are corrupt, or none come and the latest have no entries; otherwise its buffers are cached and it is queued under the latest settings |
| `CameraSession.UpdateBuffers` | guest/hals/camera/vsock_camera_device_session_3_4.cpp:343-348 | afterwards exactly the old and the request's buffer ids are cached, and no entry was replaced |
| `CameraSession.CaptureLoop.GetRequestFromQueue` | guest/hals/camera/vsock_camera_device_session_3_4.cpp:366-378 | takes a request with the lowest frame number, or nothing when there is none |
| `CameraSession.CaptureLoop.ProcessRequest` | guest/hals/camera/vsock_camera_device_session_3_4.cpp:458-573 | one pass of the loop is the step the run theorems are about |
| `CameraSession.EveryRunKeeps` | guest/hals/camera/vsock_camera_device_session_3_4.cpp:458-573 | in every run replies so far and buffers left of each request in flight make up what was asked |
| `CameraSession.RecordsAreSubmitted` | guest/hals/camera/vsock_camera_device_session_3_4.cpp:315-358 | in every run the requests are those submitted, each with its own frame number, buffers and settings, and as submitted until a pass reaches it |
| `CameraSession.EveryPassAnswers` | guest/hals/camera/vsock_camera_device_session_3_4.cpp:458-573 | in every run what a pass does to the request in hand: the shutter, the replies, the metadata, the buffers put back, the end or the error; no other request is touched |
| `CameraSession.EveryRequestExactlyOnce` | guest/hals/camera/vsock_camera_device_session_3_4.cpp:458-573 | in every run the shutter is sent at most once and each buffer answered at most as often as asked; a finished request had both exactly; metadata is sent exactly once if it was owed; only request errors, device errors and close leave buffers unanswered |
| `CameraSession.NothingPendingAfterTwoSeconds` | guest/hals/camera/vsock_camera_device_session_3_4.cpp:500-571 | in every run a pass two seconds or more after the shutter ends the request |
| `CameraSession.ShuttersInOrder` | guest/hals/camera/vsock_camera_device_session_3_4.h:87-98 | with increasing frame numbers submitted, shutters come out strictly increasing and no frame starts while an earlier one has pending buffers, despite re-queuing |
| `StreamBufferCache.StreamBufferCache.Get` | guest/hals/camera/stream_buffer_cache.cpp:21-29 | agrees with the plain map from id to buffer |
| `StreamBufferCache.StreamBufferCache.Update` | guest/hals/camera/stream_buffer_cache.cpp:40-52 | adds a fresh entry or changes the fence of the one there, and ids stay distinct |
| `StreamBufferCache.StreamBufferCache.Remove` | guest/hals/camera/stream_buffer_cache.cpp:31-38 | the single-iterator erase removes exactly the requested entry, and is defined if and only if the id is cached |
| `StreamBufferCache.StreamBufferCache.Clear` | guest/hals/camera/stream_buffer_cache.cpp:54-57 | the empty map |
| `StreamBufferCache.StreamBufferCache.RemoveStreamsExcept` | guest/hals/camera/stream_buffer_cache.cpp:59-68 | exactly the entries of the kept streams stay |
| `StreamBufferCache.RemoveIf` | guest/hals/camera/stream_buffer_cache.cpp:37 | the kept buffers are moved to the front in order |
| `StreamBufferCache.AsMapWithout` | guest/hals/camera/stream_buffer_cache.cpp:31-38 | with distinct ids, dropping one slot drops exactly one key |
| `NetlinkRequest.Request.constructor` | common/libs/net/netlink_request.cpp:68-76 | type, flags with ack and request set, sequence number and port id read back, low byte first, at offsets 4, 6, 8 and 12 |
| `NetlinkRequest.Request.ReserveRaw` | common/libs/net/netlink_request.cpp:53-57 | grows by the length rounded up to 4, with zeros; the bytes move, leaving pointers behind, if and only if they outgrow the capacity |
| `NetlinkRequest.Request.AppendRaw` | common/libs/net/netlink_request.cpp:46-51 | adds the data to the draft, padded with zeros |
| `NetlinkRequest.Request.AppendTag` | common/libs/net/netlink_request.cpp:59-66 | adds one attribute to the draft, its data cut to a 16-bit length |
| `NetlinkRequest.Request.AddString` | common/libs/net/netlink_request.cpp:85-87 | adds the string and its terminating NUL as one attribute, cut to a 16-bit length |
| `NetlinkRequest.Request.PushList` | common/libs/net/netlink_request.cpp:110-114 | opens a list |
| `NetlinkRequest.Request.PopList` | common/libs/net/netlink_request.cpp:116-125 | closes the innermost list by patching its length in place, or does nothing if none is open; undefined if and only if the bytes have moved since the list was opened |
| `NetlinkRequest.Request.RequestData` | common/libs/net/netlink_request.cpp:127-131 | hands out the bytes with their number in the first four, low byte first, and nothing else changed; defined if and only if the request fits 512 bytes |
| `NetlinkRequest.WalkRecovers` | common/libs/net/netlink_request.cpp:46-66 | walking printed attributes by aligned length recovers exactly the tree; lists are tiled exactly by their children |
| `NetlinkRequest.AttrLayout` | common/libs/net/netlink_request.cpp:46-66 | an attribute is its length and its kind, low byte first, its data, and zeros up to a multiple of 4 |
| `NetlinkRequest.PopPrints` | common/libs/net/netlink_request.cpp:116-125 | closing a list changes two bytes and nothing else |
| `NetlinkRequest.PrintDraftAligned` | common/libs/net/netlink_request.cpp:53-57 | the size is a multiple of 4 at every point, open lists included |
| `NetlinkRequest.Perform` | common/libs/net/netlink_request.cpp:46-131 | any sequence of add, push and pop calls followed by handing out the bytes is defined if and only if the whole fits 512 bytes; the first four bytes then hold their number, and the new bytes, if the calls are balanced, walk to exactly the described tree |
| `NetlinkRequest.OutgrownList` | common/libs/net/netlink_request.cpp:110-131 | for a list around one attribute of up to 500 bytes that is up to 488 bytes |
| `Multiplexer.EveryRunConserves` | common/libs/concurrency/multiplexer.h:48-61 | in every run, with any producers and consumers, items in all queues = semaphore count + pushes not yet posted + pops past the wait, and the count is at most capacity + 1 |
| `Multiplexer.EveryQueueKeepsItsItems` | common/libs/concurrency/multiplexer.h:48-61 | in every run the items pushed to a queue, read off the acts, are those its pops returned followed by those it holds |
| `Multiplexer.CountReachesCapacityPlusOne` | common/libs/concurrency/semaphore.h:30-42 | that bound is reached |
| `Multiplexer.SelectorNeverFails` | common/libs/concurrency/multiplexer.h:54-73 | in every run, with any producers and consumers, from any queue on there is an item for every consumer whose scan has got that far, so the selector never answers -1 and the index check never fails |
| `Multiplexer.SingleConsumerNeverBlocks` | common/libs/concurrency/multiplexer.h:54-73 | with one consumer, in every run the queue it selected has an item and the inner pop never blocks |
| `Multiplexer.TwoConsumersCanBlock` | common/libs/concurrency/multiplexer.h:54-73 | for all numbers of queues and consumers from two up and every capacity, a run in which it does |
| `Multiplexer.BlocksExactlyWhen` | common/libs/concurrency/multiplexer.h:54-73 | some run blocks a consumer past the semaphore if and only if there are at least two queues and two consumers |
| `Multiplexer.DefaultSelector` | common/libs/concurrency/multiplexer.h:63-73 | the first non-empty queue, or -1 when all are empty |
| `ResourceAllocator.UniqueResourceAllocator.ExpandPool` | common/libs/utils/unique_resource_allocator.h:114-126 | adds exactly the unknown items and returns exactly the others, in order |
| `ResourceAllocator.UniqueResourceAllocator.UniqueItem` | common/libs/utils/unique_resource_allocator.h:140-148 | takes one available item, or fails exactly when there is none |
| `ResourceAllocator.UniqueResourceAllocator.UniqueItems` | common/libs/utils/unique_resource_allocator.h:151-162 | takes n distinct available items, or fails untouched exactly when n is not between 1 and the number available |
| `ResourceAllocator.UniqueResourceAllocator.UniqueConsecutiveItems` | common/libs/utils/unique_resource_allocator.h:164-183 | succeeds exactly when some n > 0 consecutive values are all available, takes exactly such a run, and leaves the pool untouched otherwise |
| `ResourceAllocator.UniqueResourceAllocator.Take` | common/libs/utils/unique_resource_allocator.h:187-195 | takes the item exactly when it is available |
| `ResourceAllocator.UniqueResourceAllocator.TakeAll` | common/libs/utils/unique_resource_allocator.h:198-211 | all or nothing: refused untouched if and only if some item is not available, undefined if and only if all are but one is repeated |
| `ResourceAllocator.UniqueResourceAllocator.TakeRange` | common/libs/utils/unique_resource_allocator.h:262-275 | all or nothing over the half-open range |
| `ResourceAllocator.UniqueResourceAllocator.RemoveFromPool` | common/libs/utils/unique_resource_allocator.h:284-289 | moves one item from available to allocated |
| `ResourceAllocator.UniqueResourceAllocator.Reclaim` | common/libs/utils/unique_resource_allocator.h:238-253 | moves an allocated item back and ignores any other |
| `ResourceAllocator.UniqueResourceAllocator.Move` | common/libs/utils/unique_resource_allocator.h:58-61 | ownership, if any, goes to the new reservation and no set changes |
| `ResourceAllocator.UniqueResourceAllocator.Destroy` | common/libs/utils/unique_resource_allocator.h:70-74 | an owner gives its item back; a moved-from reservation does nothing |
| `FlagParser.Process` | common/libs/utils/flag_parser.cpp:132-195 | an argument is skipped, without a setter call, exactly when no alias matches it |
| `FlagParser.Parse` | common/libs/utils/flag_parser.cpp:197-222 | erasing in place equals one left-to-right pass and terminates; on success the rest is an order-preserving part with no match |
| `FlagParser.ParseFlags` | common/libs/utils/flag_parser.cpp:334-342 | on success the rest is an order-preserving part of the arguments and no argument matches any flag |
| `FlagParser.SecondParseDoesNothing` | common/libs/utils/flag_parser.cpp:334-342 | parsing the rest again succeeds, changes nothing and calls no setter |
| `FlagParser.WholeWordAliasIsUnique` | common/libs/utils/flag_parser.cpp:58-84 | validated aliases give an argument at most one whole-word reading |
| `FlagParser.ValidatedMatchesFlagsOnly` | common/libs/utils/flag_parser.cpp:58-66 | validated aliases match only words that look like flags, and prefixes only words with an equals sign |
| `FlagParser.ExactHandsOver` | common/libs/utils/flag_parser.cpp:171-179 | a whole-word alias hands the word itself to the setter and eats nothing more |
| `FlagParser.FollowingMissing` | common/libs/utils/flag_parser.cpp:157-164 | an alias that needs a following word fails at the end of the list without a setter call |
| `FlagParser.ArbitraryHandsOver` | common/libs/utils/flag_parser.cpp:140-156 | an alias that takes any number of words hands them over one by one up to the next flag, then an empty value, and is done; a refusal stops it there |
| `FlagParser.GflagsCompatFlagIsValidated` | common/libs/utils/flag_parser.cpp:464-470 | the four aliases always pass validation |
| `FlagParser.SpellingsAgree` | common/libs/utils/flag_parser.cpp:464-470 | each of the four spellings hands the setter exactly the value, once, and parsing goes on after it |
| `SparseCopy.Target.SendFile` | common/libs/utils/files.cpp:195-206 | however the kernel chops the range, all of it arrives at the right place or the call fails |
| `SparseCopy.Copy` | common/libs/utils/files.cpp:210-266 | terminates; success gives exactly `Copied`; no failing call means success |
| `SparseCopy.CopyIsFaithful` | common/libs/utils/files.cpp:225-228 | a successful copy equals its source if and only if the truncate worked or the source does not end in a hole |
| `SparseCopy.SparseFileSizes` | common/libs/utils/files.cpp:357-402 | the size and exactly the number of bytes in data extents, or zeros on failure |
| `MiscInfo.ParseMiscInfo` | host/commands/assemble_cvd/misc_info.cc:26-50 | maps a key to a value exactly when some line says so, or is empty if two lines contradict each other |
| `MiscInfo.LineReads` | host/commands/assemble_cvd/misc_info.cc:29-41 | a line says what stands before and after its first equals sign, both trimmed, and nothing without one |
| `MiscInfo.SpacedLineReads` | host/commands/assemble_cvd/misc_info.cc:29-41 | white space around the key, the equals sign and the value does not matter |
| `MiscInfo.WriteMiscInfo` | host/commands/assemble_cvd/misc_info.cc:52-58 | one line per entry in iteration order |
| `MiscInfo.RoundTrip` | host/commands/assemble_cvd/misc_info.cc:26-58 | what was parsed from any string parses to itself once written, in any key order |
| `MiscInfo.TrimCutsSpaces` | host/commands/assemble_cvd/misc_info.cc:30 | trimming cuts white space off the two ends and nothing else |
| `MiscInfo.SuperPartitionComponents` | host/commands/assemble_cvd/misc_info.cc:62-74 | the trimmed, non-empty names of the list |
| `MiscInfo.Info.SetSuperPartitionComponents` | host/commands/assemble_cvd/misc_info.cc:80-125 | succeeds exactly when the group list, the size and every group key are there, none twice; the resulting map; the map left by each way of failing |
| `MiscInfo.SetThenRead` | host/commands/assemble_cvd/misc_info.cc:62-125 | after a successful set, reading gives the list back if and only if every name is non-empty, trimmed and space-free |
| `MiscInfo.GoogleEntries` | host/commands/assemble_cvd/misc_info.cc:106-124 | after a successful set the four keys it writes, spelled out, hold the joined list, the group name and the old size |
| `MiscInfo.GroupKeysAt` | host/commands/assemble_cvd/misc_info.cc:88-104 | the keys erased are the list key and then the size key of each group, group by group |
| `MiscInfo.ReplacedFrame` | host/commands/assemble_cvd/misc_info.cc:80-125 | every key outside the old and new group keys and the two list keys is unchanged |
| `MiscInfo.LastSetWins` | host/commands/assemble_cvd/misc_info.cc:80-125 | a set can be repeated, and setting twice is setting once |
| `IpChecksum.IpChecksum` | common/libs/utils/network.cpp:280-288 | the wrapping loop and the two folds give the complement of the residue of the wrapped sum |
| `IpChecksum.ChecksumIsOnesComplement` | common/libs/utils/network.cpp:280-288 | it is the complement of the ones'-complement sum (section 1 of RFC 1071) if and only if the accumulator wraps harmlessly |
| `IpChecksum.ShortBuffersAreExact` | common/libs/utils/network.cpp:280-288 | always so for at most 65537 words |
| `IpChecksum.LimitIsSharp` | common/libs/utils/network.cpp:280-288 | not so for 65538 words of all ones |
| `IpChecksum.StoredChecksumVerifies` | common/libs/utils/network.cpp:280-288 | storing the result in a zero word makes the recomputed checksum 0 (section 3.1 of RFC 791) |
| `IpChecksum.ByteOrderIndependent` | common/libs/utils/network.cpp:280-288 | swapping the bytes of every word swaps the bytes of the checksum (section 2 of RFC 1071) |

## Left out

- Thin wrappers over system calls: `FileInstance`, sockets, epoll, vsock, subprocess, archive, users, inotify.
- `SharedFDStreambuf` and `FileInstance::CopyFrom`, whose stream claims do not hold in general.
- The NFC callback thread.
- Closing of descriptors: every stream and descriptor in the model is open; the confirmation UI fetcher may stop.
- The confirmation UI on a VM that does not support it, destructors at shutdown, and the statuses the HAL calls return.
- The `std::async` helper of the interactive phase: its pop is the worker's own step.
- More than one client call at a time into the confirmation UI HAL.
- Camera fences, gralloc handles, YUV and JPEG copying, metadata tables and error notifications: what a pass meets at a buffer, flushing and cache hits included, is arbitrary input, and the clock is positive.
- ResourceAllocator.UniqueResourceAllocator.UniqueConsecutiveItems: items are unbounded integers, so a run that would overflow the item type is not modelled.
- Queues with a size limit inside the multiplexer.
- Packet.ToPayload: an item of 2^31 bytes or more, whose length would print as a negative number.
- Packet.ParseRawData: arithmetic on lengths is unbounded, so overflow of `int` in malformed packets is not modelled.
- SparseCopy.Copy: the source and the target are different files.
- FlagParser.Process: the help flags, the XML output and the conversions in concrete setters.
- MiscInfo.WriteMiscInfo: the iteration order is a parameter; the source's map iterates in ascending key order.
- Host address choice, display flags, size alignment, MAC and IPv6 generation, config builders, health and identity HALs, Go and Python tools.
