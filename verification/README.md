# HydraRT, verified

A Dafny model of the distributed work-stealing runtime HydraRT, with proofs of what its three hardest
parts are for: the lock-free deque, the cluster's books on stolen tasks, and the wire format.

## What is modelled

**The Chase-Lev deque** (`include/runtime/ChaseLevDeque.hpp`) twice. `ChaseLev` is an interleaving
transition system: every atomic load, store and compare-and-swap is a step, one owner pushes and pops,
any number of threads steal, rings double while thieves still read retired ones. `ChaseLevSafety` proves
that every schedule is a history of a plain double-ended sequence and that no task is lost, duplicated or
freed twice; `ChaseLevDelivery` that each call of `pop` and `steal` returns what it took, and that this is
what some call of `push` was given. `RingDeque` is the same code in its own form, classes over arrays run by
one thread, and is the deque that `RuntimeQueues` uses.

**The cluster's ledger** (`src/cluster/Node.cpp`, `src/runtime/Runtime.cpp`, `src/runtime/Worker.cpp`,
`src/inference/JobManager.cpp`) as a transition system over any number of nodes (`Cluster`), because its
properties are about interleavings of threads and messages. A node's `ledger` holds every task it has
counted as submitted and not as completed, with the place the task is in. Steal responses may be lost,
delayed and reordered; results may also be repeated; a timeout may strike any task that is out on a thief
at any moment. `ClusterNode` proves what each operation keeps on its own node, `ClusterSafety` lifts that
to every run, `ClusterTheorems` and `ClusterRequests` state the guarantees, `ClusterCompletion` shows that
no request is ever dropped, `ClusterPayloads` that what runs is what was submitted, `ClusterOrigins` that a
node advances only stages it submitted, `ClusterProgress` that no reachable state is a dead end, and
`ClusterWitnesses` holds runs on which more than was promised does not hold.

The application may submit any payload. One of 22 bytes or more reads as a stage, and the observer then
advances whatever request it names; a request whose id has come round again after 2^64 others is confused
with the old one in the same way. Such a request is called `spoiled`, and `SpoiledIff` says by which calls it
becomes so. What is counted, how often tasks run, that every unfinished request has a live stage and that
`wait_all` finds every request Done is proved for every request, spoiled or not; that it has at most one
live stage, advances no stage twice and keeps its kind, sizes and batch is proved for every request that is
not spoiled, whatever happens to the others at its node. `SubmitKeepsOneLiveIff` shows that the condition is
exact at a submission and `PayloadCanFinishRequest` what can happen without it.

**The same components in the source's own form.** `RuntimeQueues` has the injection queues, the portable
pools, the deques, the submission paths and the two search orders as classes with mutable fields.
`StealingNode` has the serving side of a steal, the outstanding table and the reaper's pass. `JobManagers`
has the request records and the observer, and shows that each call of the observer is the step the
transition system takes; `TableRefinement` does the same for the outstanding table. Here each operation
runs undisturbed and its whole effect is stated.

**The wire format.** `Wire` proves round trip, canonicity, prefix rejection and bounds on work once, for
every nesting of integers, byte strings, pairs and lists; its writer and reader are the mutable objects of
`include/net/Serialize.hpp`. `Protocol` and `Stages` instantiate it for all messages and for stage
payloads, `MessageLayout` says which byte of which field is at which offset, `Framing` adds frames over a
byte stream that the operating system may cut, interrupt and pause at will.

**Futures** (`include/Futures/Future.hpp`): one `set` racing with any number of `then` calls.

### Assumptions

- Atomic steps are sequentially consistent; the memory orders in the source are not examined.
- Every node registers the same handlers (README.md:69).
- Submitted types are not `Generic`.
- The two counters in the predicate of `wait_all` are read in one step; the order of the two loads at
  src/runtime/Runtime.cpp:157-158 is not fixed by the language.
- A future is set once.

### Where the code and its description differ

- `steal` returning false reads as finding nothing to take. It can also happen while the deque
  holds one task that the owner's undecided `pop` is looking at; `EmptyStealIsEmptyOrContested` gives the
  exact condition and `EmptyStealCanBeWrong` a schedule. The task is then not to be had by that thief:
  `ContestedTaskIsReserved` shows that it goes to the pop or to a steal that was already past its own test.
- The reserved field of a frame header is written as zero and never read back, so a frame is not the only
  byte string that yields its message; `FrameCanonical` gives the exact condition and `ReservedIgnored` the
  other byte strings.
- A receive timeout inside a frame discards the part that had arrived, and the next receive starts behind
  it. `PauseLosesFlow` says that the stream survives a pause exactly when nothing had arrived, and
  `PauseCanLoseMessage` cuts a frame of 12 bytes after the first so that its message is never received.
- The cost of a stage is clamped to 32 bits after a product that can wrap at 64. `CostRightIff` gives the
  exact condition, `TextDecodeRightIff` and `TextPreprocessRightIff` in a text's own fields, `CostCanWrap` a
  request; `ImageNeverWraps` and `ShortTextNeverWraps` name requests that are safe.
- `wait_all` can return while a thread is inside `JobManager::submit`, between recording a request and
  submitting its first stage. `WaitAllMeansDone` says that every other request is then Done with all four
  stages advanced, and `WaitAllCanReturnEarly` is a run on which one inside `submit` is not.
- Any payload of 22 bytes or more reads as a stage; see above.
- Execution is at least once, as README.md:78 says, and not exactly once. `ExactlyHowOften` says of each task
  how often it has run once it is no longer live at its own node: twice if a thief ran it and the reaper gave
  up on the thief, and once if not. `TwiceCanHappen` is a run with such a task.

## Model

| member | source | states |
|---|---|---|
| `ChaseLev.MaskIsModulo` | include/runtime/ChaseLevDeque.hpp:131-137 | The slot `idx & mask` is the index modulo the capacity, for every power-of-two capacity |
| `ChaseLev.PutGet` | include/runtime/ChaseLevDeque.hpp:131-137 | Writing one index leaves every index less than a capacity away readable as before |
| `ChaseLevSafety.Step` | include/runtime/ChaseLevDeque.hpp:40-114 | Each atomic step of any actor keeps the invariant linking in-flight locals, stale buffers and indices to the shared state, and changes the abstract sequence by exactly the event it stands for |
| `ChaseLevSafety.RunInv` | include/runtime/ChaseLevDeque.hpp:40-114 | The invariant holds after every schedule |
| `ChaseLevSafety.ShapeKept` | include/runtime/ChaseLevDeque.hpp:40-148 | Index order, capacity, buffer agreement and the promises carried by every local variable survive every step, growth and wrap-round included |
| `ChaseLevSafety.RefinesDeque` | include/runtime/ChaseLevDeque.hpp:12-20 | Under every schedule the pushes, pops and steals are a history of a plain double-ended sequence: pop takes the newest, steal the oldest, a failing pop had an instant at which it was empty |
| `ChaseLevSafety.PushedAsCalled` | include/runtime/ChaseLevDeque.hpp:40-59 | Under every schedule the tasks allocated are the arguments of the calls of `push`, unchanged and in the order of the calls, growth included |
| `ChaseLevDelivery.PushStoresItsArgument` | include/runtime/ChaseLevDeque.hpp:40-59 | The next task published after a call of `push` is that call's argument, as one new allocation |
| `ChaseLevDelivery.GrowsExactlyWhenFull` | include/runtime/ChaseLevDeque.hpp:41-51 | A push doubles the ring exactly if the deque held the capacity less one when the call loaded `top`, and it never held more |
| `ChaseLevDelivery.PopDeliversWhatItTook` | include/runtime/ChaseLevDeque.hpp:61-90 | A pop that returns a task took it from the newest end earlier in the same call, and returns the argument of the call of `push` that had published it before that, unchanged |
| `ChaseLevDelivery.StealDeliversWhatItTook` | include/runtime/ChaseLevDeque.hpp:92-114 | A steal that returns a task took it from the oldest end by its own CAS earlier in the same call, and returns the argument of the call of `push` that had published it before that, unchanged |
| `ChaseLevDelivery.PopFailsOnEmpty` | include/runtime/ChaseLevDeque.hpp:69-83 | A pop that returns false found the deque empty at an instant inside the same call, and delivers nothing |
| `ChaseLevSafety.ExactlyOnePlace` | include/runtime/ChaseLevDeque.hpp:40-114 | No loss and no duplicate: the argument of each call of `push` is in the locals of its push, or in the deque at one index, or in the hands of one push or winner, or delivered once and unchanged; nothing dead is ever dereferenced |
| `ChaseLevSafety.WinningThiefHoldsOldest` | include/runtime/ChaseLevDeque.hpp:92-114 | A thief whose CAS succeeds holds the live oldest element, the argument of the push of that allocation, whichever buffer it read, and no other winner holds it |
| `ChaseLevSafety.PopLoadTopMoves` | include/runtime/ChaseLevDeque.hpp:61-72 | A pop that sees an older top takes the newest task at that load; one that sees a newer top finds the sequence empty at that load |
| `ChaseLevSafety.PopCasMoves` | include/runtime/ChaseLevDeque.hpp:76-85 | The race for the last task is decided by the CAS: the winner takes it, the loser finds the sequence empty |
| `ChaseLevSafety.StealCasMoves` | include/runtime/ChaseLevDeque.hpp:105-109 | A successful CAS removes the oldest task and makes the thief its only holder |
| `ChaseLevSafety.TakenBetween` | include/runtime/ChaseLevDeque.hpp:78-109 | Whenever `top` passes an index, one take moved it past exactly that index in between |
| `ChaseLevSafety.LostRaceMeansTaken` | include/runtime/ChaseLevDeque.hpp:105-109 | A steal that loses its CAS lost it to another actor's take of that very index, made after this call loaded `top` |
| `ChaseLevSafety.EmptyStealIsEmptyOrContested` | include/runtime/ChaseLevDeque.hpp:94-100 | A steal with a current `top` gives up exactly when the deque is empty or its one task is the object of an undecided pop |
| `ChaseLevSafety.StaleEmptyStealIsEmpty` | include/runtime/ChaseLevDeque.hpp:94-100 | A steal with a stale `top` that gives up does so on an empty deque |
| `ChaseLevSafety.EmptyStealCanBeWrong` | include/runtime/ChaseLevDeque.hpp:92-100 | A schedule on which a steal reports empty while the deque holds a task |
| `ChaseLevDelivery.ContestedTaskIsReserved` | include/runtime/ChaseLevDeque.hpp:62-114 | The task that a steal with a current `top` misses when it reports empty goes next to the pop then being decided, or to another steal that had passed its own test before; no later thief can have it |
| `ChaseLevSafety.DestructorFreesTheRest` | include/runtime/ChaseLevDeque.hpp:26-34 | Once every call has returned, the indices from top to bottom of the current buffer are exactly the tasks still allocated, and delivered plus remaining is pushed |
| `RingDeque.WindowAppend` | include/runtime/ChaseLevDeque.hpp:131-137 | Writing the slot of the next index appends to the window of live elements, wherever in the ring it lands |
| `RingDeque.NextPow2` | include/runtime/ChaseLevDeque.hpp:150-154 | The least power of two not below the argument |
| `RingDeque.RingBuffer.Get` | include/runtime/ChaseLevDeque.hpp:131-133 | Reads the element of an index |
| `RingDeque.RingBuffer.Put` | include/runtime/ChaseLevDeque.hpp:135-137 | Writes one slot and no other |
| `RingDeque.RingBuffer.Grow` | include/runtime/ChaseLevDeque.hpp:141-147 | A ring twice as large with the same elements at the same indices, and the old ring untouched |
| `RingDeque.ChaseLevDeque.constructor` | include/runtime/ChaseLevDeque.hpp:23-24 | An empty deque on a ring of the least power of two not below the argument |
| `RingDeque.ChaseLevDeque.Push` | include/runtime/ChaseLevDeque.hpp:40-59 | Appends one task; the ring is doubled exactly when it held its capacity less one, stays a power of two, and the old ring is retired unchanged |
| `RingDeque.ChaseLevDeque.Pop` | include/runtime/ChaseLevDeque.hpp:62-90 | Removes the newest task, or reports empty exactly on the empty sequence |
| `RingDeque.ChaseLevDeque.Steal` | include/runtime/ChaseLevDeque.hpp:93-114 | Removes the oldest task, or reports empty exactly on the empty sequence |
| `RingDeque.ChaseLevDeque.Size` | include/runtime/ChaseLevDeque.hpp:116-120 | The number of elements |
| `Wire.UnLEofLE` | include/net/Serialize.hpp:14-24 | Reading back the bytes of an integer that fits its width gives the integer |
| `Wire.LEofUnLE` | include/net/Serialize.hpp:60-80 | Writing the integer read from some bytes gives those bytes |
| `Wire.LEisLittleEndian` | include/net/Serialize.hpp:14-24 | The bytes written for an integer are its digits to base 256, lowest first |
| `Wire.RoundTrip` | include/net/Serialize.hpp:12-110 | For every format, decoding an encoding followed by anything gives the value and stops at its end |
| `Wire.RoundTripIff` | include/net/Serialize.hpp:31-39 | A value survives the trip exactly when its lengths fit their 32-bit prefixes |
| `Wire.Canonical` | include/net/Serialize.hpp:48-110 | For every format, whatever decodes is byte for byte the encoding of the result followed by what was left |
| `Wire.PrefixRejected` | include/net/Serialize.hpp:100-104 | No strict prefix of an encoding decodes |
| `Wire.ExtraBytesIgnored` | include/net/Serialize.hpp:100-104 | Bytes after a value never change what it decodes to |
| `Wire.UniquelyDecodable` | include/net/Serialize.hpp:12-110 | No encoding is a prefix of another |
| `Wire.ConsumesAtLeast` | include/net/Serialize.hpp:82-104 | A successful read consumes at least the least size of its format |
| `Wire.FixedDecodes` | include/net/Serialize.hpp:56-80 | Of a format without length prefixes any bytes are a value, if there are enough of them |
| `Wire.ByteWriter.UInt` | include/net/Serialize.hpp:14-24 | Appends the little-endian bytes of the value, cut to the width |
| `Wire.ByteWriter.Blob` | include/net/Serialize.hpp:31-39 | Appends the length cut to 32 bits and all the bytes |
| `Wire.ByteReader.Need` | include/net/Serialize.hpp:101-104 | Succeeds exactly when no read has failed and the bytes are there; failure is sticky |
| `Wire.ByteReader.UInt` | include/net/Serialize.hpp:56-80 | Reads the integer at the front, or fails without moving and returns zero |
| `Wire.ByteReader.Blob` | include/net/Serialize.hpp:82-95 | Reads the announced bytes, or fails and returns nothing |
| `Protocol.MessageRoundTrip` | src/net/Protocol.cpp:70-186 | decode(encode(m)) is m exactly when the lengths in m fit their prefixes, for every message type |
| `Protocol.DecodesUnique` | src/net/Protocol.cpp:123-186 | A buffer decodes to at most one message |
| `Protocol.MessageCanonical` | src/net/Protocol.cpp:123-186 | A buffer decodes to m exactly when m fits and the buffer starts with the encoding of m |
| `Protocol.TruncationRejected` | src/net/Protocol.cpp:123-186 | Every strict prefix of an encoding is rejected |
| `Protocol.AcceptsIffStartsWithEncoding` | src/net/Protocol.cpp:123-186 | A decoder accepts exactly the buffers that start with the encoding of some message of its kind |
| `MessageLayout.LayoutIff` | src/net/Protocol.cpp:28-121 | For all seven messages, with their task and node records, a buffer starts with the encoding exactly when every field stands at its byte offset, little-endian or behind its 32-bit length; and the encoding has exactly the length of its fields |
| `MessageLayout.EncodingLaidOut` | src/net/Protocol.cpp:28-121 | What is encoded holds every field at its offset and nothing else |
| `MessageLayout.DecodesIffLaidOut` | src/net/Protocol.cpp:38-186 | A decoder succeeds with a message exactly on the buffers that hold its fields at their offsets |
| `MessageLayout.TaskLayout` | src/net/Protocol.cpp:28-48 | The task record: 8, 8, 4, 4, 4 and 2 bytes and the payload behind its length, in the order of the source |
| `MessageLayout.NodeLayout` | src/net/Protocol.cpp:50-68 | The node record: id, host, port, workers, label and load at their offsets |
| `Protocol.EncodeTask` | src/net/Protocol.cpp:28-36 | Appends the encoding of the task's portable fields |
| `Protocol.EncodeNodeInfo` | src/net/Protocol.cpp:50-57 | Appends the encoding of the node record |
| `Protocol.EncodeRegister` | src/net/Protocol.cpp:70-77 | The encoding of the message |
| `Protocol.EncodeRegisterAck` | src/net/Protocol.cpp:79-83 | The encoding of the message |
| `Protocol.EncodeHeartbeat` | src/net/Protocol.cpp:85-91 | The encoding of the message |
| `Protocol.EncodeNodeList` | src/net/Protocol.cpp:93-98 | The encoding of the message, list and all |
| `Protocol.EncodeStealRequest` | src/net/Protocol.cpp:100-106 | The encoding of the message |
| `Protocol.EncodeStealResponse` | src/net/Protocol.cpp:108-114 | The encoding of the message, list and all |
| `Protocol.EncodeTaskResult` | src/net/Protocol.cpp:116-121 | The encoding of the message |
| `Protocol.DecodeTask` | src/net/Protocol.cpp:38-48 | Reads one task, or leaves the reader failed |
| `Protocol.DecodeNodeInfo` | src/net/Protocol.cpp:59-68 | Reads one node record, or leaves the reader failed |
| `Protocol.DecodeRegister` | src/net/Protocol.cpp:123-130 | Succeeds exactly on what the format accepts, with the decoded message |
| `Protocol.DecodeRegisterAck` | src/net/Protocol.cpp:132-136 | Succeeds exactly on what the format accepts, with the decoded message |
| `Protocol.DecodeHeartbeat` | src/net/Protocol.cpp:138-144 | Succeeds exactly on what the format accepts, with the decoded message |
| `Protocol.DecodeStealRequest` | src/net/Protocol.cpp:159-165 | Succeeds exactly on what the format accepts, with the decoded message |
| `Protocol.DecodeTaskResult` | src/net/Protocol.cpp:181-186 | Succeeds exactly on what the format accepts, with the decoded message |
| `Protocol.DecodeStealResponse` | src/net/Protocol.cpp:167-179 | As above, and for any announced count produces at most one task for 34 bytes of input, accepted or not |
| `Protocol.DecodeNodeList` | src/net/Protocol.cpp:146-157 | As above, and for any announced count produces at most one node for 26 bytes of input, accepted or not |
| `Protocol.ReadTasks` | src/net/Protocol.cpp:169-176 | The loop reads the list or stops at the first element that fails, and its elements and what remains fit the input at 34 bytes each |
| `Protocol.ReadNodes` | src/net/Protocol.cpp:148-155 | The loop reads the list or stops at the first element that fails, and its elements and what remains fit the input at 26 bytes each |
| `Framing.FrameRoundTrip` | src/net/Protocol.cpp:5-26 | A frame is read back whole, whatever follows, exactly when its payload is within the limit |
| `Framing.FrameCanonical` | src/net/Protocol.cpp:15-26 | What is accepted is the frame of the result exactly when the reserved field is zero |
| `Framing.ReservedIgnored` | src/net/Protocol.cpp:18-20 | Whatever both bytes of its reserved field hold, a frame yields the same message |
| `Framing.MessageLayoutIff` | src/net/Protocol.cpp:15-26 | A message is received from exactly the streams with 0x48594452 at offset 0, the type at 4, the length at 8 and the payload at 12, if it is at most 64 MiB |
| `Framing.FrameLayout` | src/net/Protocol.cpp:5-13 | A frame has that layout, with two zero bytes at offset 6 |
| `Framing.Frame` | src/net/Protocol.cpp:5-13 | The header and the payload |
| `Framing.ParseHeader` | src/net/Protocol.cpp:15-26 | Accepts exactly a whole header with the magic number and a length within the limit, and returns its fields |
| `Framing.Receiver.RecvAll` | src/net/Socket.cpp:150-166 | However the bytes arrive, yields exactly the next n, and fails exactly when the stream pauses or ends first |
| `Framing.Receiver.RecvMsg` | src/net/Socket.cpp:183-193 | Yields exactly the first message of the stream and leaves the rest; what a failure costs is stated case by case |
| `Framing.Receiver.Drain` | src/net/Socket.cpp:183-193 | For every list of messages within the limit and every cutting of their frames into chunks, repeated receiving yields exactly that list in order, up to the next pause |
| `Framing.Receiver.Serve` | src/cluster/Node.cpp:187-196 | A serving thread that goes on after timeouts receives every message of the stream in order, if the timeouts fall between frames |
| `Framing.ReceiveInterruptsDoNotMatter` | src/net/Socket.cpp:150-166 | An interrupted `recv` is tried again: wherever it falls, the same bytes arrive |
| `Framing.CutsDoNotMatter` | src/net/Socket.cpp:150-166 | Where the bytes are cut into chunks does not change what arrives |
| `Framing.PauseStopsFlow` | src/net/Socket.cpp:150-166 | Everything before a pause arrives and what is behind it is left |
| `Framing.PauseLosesFlow` | src/net/Socket.cpp:150-166 | A receive that fails at a pause goes on behind it: the stream is kept whole exactly when nothing had arrived before the pause |
| `Framing.PauseCanLoseMessage` | src/net/Socket.cpp:150-193 | A frame cut by a pause after its first byte is received neither before the pause nor after it |
| `Framing.SendInterruptsDoNotMatter` | src/net/Socket.cpp:133-148 | An interrupted `send` is tried again: wherever it falls, the same bytes are sent |
| `Framing.PiecesDoNotMatter` | src/net/Socket.cpp:133-148 | Nor does it matter into how many calls the bytes are split |
| `Framing.RoomIsTheSum` | src/net/Socket.cpp:133-148 | Up to the first refusal all that is offered is taken, and nothing after it |
| `Framing.Sender.SendAll` | src/net/Socket.cpp:133-148 | Puts the bytes on the wire in order; succeeds exactly when the socket takes them all, and else leaves the prefix it took |
| `Framing.Sender.SendMsg` | src/net/Socket.cpp:178-181 | Puts one whole frame on the wire, or the prefix of it that was taken |
| `Framing.SendEach` | src/net/Socket.cpp:178-181 | Messages sent one after the other leave exactly the concatenation of their frames, or a strict prefix of it when sending fails |
| `Stages.StageRoundTrip` | src/inference/InferenceJob.cpp:23-43 | decode_stage gives back what encode_stage was given, and a stage payload is never empty |
| `Stages.StageIffLong` | src/inference/InferenceJob.cpp:34-43 | decode_stage accepts exactly the payloads of at least 22 bytes |
| `Stages.StageLayoutIff` | src/inference/InferenceJob.cpp:23-43 | decode_stage yields a stage exactly from the payloads that hold its fields at offsets 0, 8, 9, 10, 14 and 18, and encode_stage produces those 22 bytes |
| `Stages.EncodeStage` | src/inference/InferenceJob.cpp:23-32 | The encoding of the payload |
| `Stages.DecodeStage` | src/inference/InferenceJob.cpp:34-43 | Succeeds exactly on what decodes, with the decoded payload |
| `RuntimeQueues.InjectionQueue.Push` | src/runtime/InjectionQueue.cpp:3-6 | Appends one task |
| `RuntimeQueues.InjectionQueue.Pop` | src/runtime/InjectionQueue.cpp:8-16 | Removes the oldest task, or reports empty exactly on the empty queue |
| `RuntimeQueues.SearchIsComplete` | src/runtime/Worker.cpp:55-111 | A worker's search and a helper's search find nothing exactly when every deque, injection queue and pool of the runtime is empty |
| `RuntimeQueues.RemovesOne` | src/runtime/Runtime.cpp:193-227 | Whatever a search takes, the runtime loses that one task and no other |
| `RuntimeQueues.AddsOne` | src/runtime/Runtime.cpp:58-122 | Whatever queue a submission goes to, the runtime gains that one task and no other |
| `RuntimeQueues.LineHead` | src/runtime/Runtime.cpp:124-137 | The next task given away is the head of the preferred pool followed by the other pools in type order, and the rest of that line stays |
| `RuntimeQueues.LineEmpty` | src/runtime/Runtime.cpp:124-137 | Nothing is given away exactly when that line is empty; a preference out of range is no preference |
| `RuntimeQueues.LineLength` | src/runtime/Runtime.cpp:124-143 | The line has as many tasks as the pools |
| `RuntimeQueues.Runtime.constructor` | src/runtime/Runtime.cpp:7-32 | Every queue of the new runtime is empty |
| `RuntimeQueues.Runtime.FindWork` | src/runtime/Worker.cpp:55-111 | Takes the newest of the worker's own deque, else the oldest of its own injection queue, else of the first non-empty pool, else of the first other injection queue, else of the first other deque; nothing else changes, and it finds nothing only if all are empty |
| `RuntimeQueues.Runtime.HelpOne` | src/runtime/Runtime.cpp:193-227 | Takes the newest of the caller's own deque if it has one, else the oldest of the first non-empty injection queue, else of the first non-empty pool, else of the first other deque; nothing else changes, and it finds nothing only if all are empty |
| `RuntimeQueues.Runtime.TakePortable` | src/runtime/Runtime.cpp:124-137 | Takes the oldest task of the preferred pool, or else of the first non-empty pool, and touches nothing else |
| `RuntimeQueues.Runtime.PortableAvailable` | src/runtime/Runtime.cpp:139-143 | The number of tasks in all pools |
| `RuntimeQueues.Runtime.SubmitTask` | src/runtime/Runtime.cpp:106-122 | One task more, under the next id, on the worker's deque or on the injection queue whose turn it is; ids wrap at 64 bits and the turn at 32 |
| `RuntimeQueues.Runtime.SubmitPortable` | src/runtime/Runtime.cpp:89-104 | One task more, under the next id, at the end of the pool of its type |
| `RuntimeQueues.Runtime.OnRemoteTaskComplete` | src/runtime/Runtime.cpp:145-151 | The observer sees the task once, and only after that is it counted as completed |
| `StealingNode.TrackedAll` | src/cluster/Node.cpp:429-436 | With fresh ids every task handed out is on record with its thief and time, and no other entry changes |
| `StealingNode.GivenConserves` | src/cluster/Node.cpp:199-230 | A steal moves tasks from the pools into the response: none is lost, copied or made up |
| `StealingNode.GivenAtMostLine` | src/cluster/Node.cpp:207-218 | What was given and what is left add up to what was queued |
| `StealingNode.Node.ServeSteal` | src/cluster/Node.cpp:199-230 | With two or more tasks queued the response is half of them rounded down, with one it is that one, never more than asked for; it comes from the preferred pool first, oldest first; pools before are response then pools after; all of it is tracked |
| `StealingNode.Node.TakeUpTo` | src/cluster/Node.cpp:212-218 | Takes from the head of the line until it has enough or the line is empty |
| `StealingNode.Node.TrackOutstanding` | src/cluster/Node.cpp:429-436 | Adds one entry; an id already there keeps its entry |
| `StealingNode.Node.ResolveOutstanding` | src/cluster/Node.cpp:438-452 | A result for an outstanding task removes it and completes it as it was handed out; any other result changes nothing |
| `StealingNode.SpreadKeeps` | src/runtime/Runtime.cpp:118-120 | Round robin queues every task once and loses none, counter wrap-round included |
| `StealingNode.RequeuedKeepsAll` | src/cluster/Node.cpp:474-498 | A reaper pass queues every recovered task once, out of thieves' reach, and loses nothing that was queued |
| `StealingNode.SettlingsNeverDip` | src/cluster/Node.cpp:491-497 | At no moment of a reaper pass is less pending than before it |
| `StealingNode.Node.CollectExpired` | src/cluster/Node.cpp:459-472 | An entry leaves the table exactly if it is older than the timeout, collected once; every entry that stays is not older |
| `StealingNode.Node.RerunAll` | src/cluster/Node.cpp:474-498 | Every collected task is submitted again with everything but its id kept, and only then is its original settled by a blank task; what is pending stays |
| `StealingNode.Node.ReapOutstanding` | src/cluster/Node.cpp:459-499 | One pass as a whole: an entry is collected exactly if it is older than the timeout; each collected task is in the injection queue whose turn it was, unchanged but for the next id; nothing queued is lost, pools and deques are as before, the observer is shown only blank tasks, and pending is unchanged |
| `TableRefinement.TrackRefines` | src/cluster/Node.cpp:429-436 | Tracking a task in the table is the transition system's step, and it was not in the table |
| `TableRefinement.ResolveRefines` | src/cluster/Node.cpp:438-452 | Resolving is the transition system's step for every id, and the observer is shown the same stage |
| `TableRefinement.CollectRefines` | src/cluster/Node.cpp:464-471 | Taking an expired entry out of the table is the step into the reaper's hands |
| `TableRefinement.RerunRefines` | src/cluster/Node.cpp:474-498 | One turn of the reaper's second loop is the transition system's re-submission, observation and settlement, with the table as it was |
| `JobManagers.CostRightIff` | src/inference/InferenceJob.cpp:81-83 | The cost is the clamped product exactly when the product lies in none of the windows of 2^32 - 1 just above a multiple of 2^64 |
| `JobManagers.TextDecodeRightIff` | src/inference/InferenceJob.cpp:71-83 | For the first stage of a text, exactly when (100 + length) times batch misses the first window |
| `JobManagers.TextPreprocessRightIff` | src/inference/InferenceJob.cpp:72-83 | For the second, exactly when (200 + 4 length) times batch misses the first four |
| `JobManagers.TextInferRightIff` | src/inference/InferenceJob.cpp:74-83 | For the quadratic stage, exactly when (1000 + length^2 / 4) times batch lies in no window |
| `JobManagers.CostCanWrap` | src/inference/InferenceJob.cpp:81-83 | A request whose huge cost wraps to a small one |
| `JobManagers.ImageNeverWraps` | src/inference/InferenceJob.cpp:57-67 | No stage of any image wraps; the four costs in the image's own fields |
| `JobManagers.ShortTextNeverWraps` | src/inference/InferenceJob.cpp:68-78 | No last stage of a text wraps, and no stage of a text shorter than 2^16; the four costs in the text's own fields |
| `JobManagers.UnknownCostsNothing` | src/inference/InferenceJob.cpp:45-84 | Any other kind or stage costs nothing |
| `JobManagers.UnitCostFits` | src/inference/InferenceJob.cpp:45-79 | Before the batch is multiplied in, no cost exceeds 64 bits |
| `JobManagers.DoneAfter` | src/inference/JobManager.cpp:106-148 | Ending a stage finishes at most the request it belongs to, and only at the last stage |
| `JobManagers.ObserverRefines` | src/inference/JobManager.cpp:106-148 | One call of the observer changes the records and the count as the transition system's step does |
| `JobManagers.SuccessorRefines` | src/inference/JobManager.cpp:106-131 | The task that the transition system submits for the next stage carries the bytes that the class's task carries |
| `JobManagers.JobManager.Submit` | src/inference/JobManager.cpp:75-100 | The request is recorded as not done and its first stage is the newest task of pool 1, every field of the payload at its offset; the completed count stays the number of done requests |
| `JobManagers.JobManager.OnStageDone` | src/inference/JobManager.cpp:106-148 | Queues exactly the next stage, stage 2 in pool 2 and any other in pool 1, every field of the payload at its offset, and records it; or finishes the request once; no other record changes and the completed count stays the number of done requests |
| `JobManagers.JobManager.Observe` | src/inference/JobManager.cpp:67-72 | An empty payload or one that is no stage changes nothing; any other advances its request by one stage |
| `JobManagers.JobManager.CompleteTask` | src/runtime/Runtime.cpp:145-178 | The observer, then the stage it submits, then the count of this task: a stage with a successor leaves pending as it was and never lower in between; only tasks run here count as executed here |
| `ClusterNode.SubmitAppKeeps` | src/runtime/Runtime.cpp:58-104 | Submitting keeps a node's books, whatever the payload |
| `ClusterNode.TrackKeeps` | src/cluster/Node.cpp:219-240 | Handing out keeps the books: the id was never handed out before |
| `ClusterNode.AcceptKeeps` | src/cluster/Node.cpp:409-422 | Accepting a stolen task keeps the books |
| `ClusterNode.ResolveKeeps` | src/cluster/Node.cpp:438-452 | Resolving keeps the books, whatever id the result names |
| `ClusterNode.ReassignKeeps` | src/cluster/Node.cpp:474-498 | Re-submitting before settling keeps the books and hands the request over to the re-run, at the same stage |
| `ClusterNode.ObserveKeeps` | src/inference/JobManager.cpp:67-72 | The observer keeps the books, whatever it is shown: the next stage of a request becomes its carrier, no stage of an unspoiled request is logged twice, and no other request is touched |
| `ClusterNode.FinishKeeps` | src/runtime/Runtime.cpp:171-178 | Counting a completion keeps the books |
| `ClusterNode.OpenKeeps` | src/inference/JobManager.cpp:75-95 | Recording a request keeps the books, even if its id has come round again |
| `ClusterNode.FirstStageKeeps` | src/inference/JobManager.cpp:97-104 | Submitting the first stage makes it the request's one carrier |
| `ClusterSafety.StepInv` | src/cluster/Node.cpp:187-245 | Every step of every node and of the network keeps the invariant of the whole cluster |
| `ClusterSafety.RunInv` | src/cluster/Node.cpp:187-245 | The invariant holds after every run from fresh nodes |
| `ClusterTheorems.PendingIsAccountedFor` | src/runtime/Runtime.cpp:58-178 | Submitted less completed is exactly what is queued, in a serving hand, executing, with a thief, with the reaper, or observed and not yet counted; the two counters meet exactly when nothing is live |
| `ClusterTheorems.WaitAllReturnsIff` | src/runtime/Runtime.cpp:153-160 | In every reachable state the predicate of `wait_all` holds exactly when some task was given an id at the node and nothing is live there |
| `ClusterTheorems.StolenOutBalance` | src/cluster/Node.cpp:219-240 | What was handed out is resolved, reassigned, outstanding or in the reaper's hands, with nothing over |
| `ClusterTheorems.HandedOutOnce` | src/cluster/Node.cpp:429-499 | Every id handed out is exactly one of resolved, reassigned and still owed |
| `ClusterTheorems.NeverOwedAgain` | src/cluster/Node.cpp:438-499 | An id that has left the outstanding table never comes back and keeps the way it left, however the run goes on |
| `ClusterTheorems.LateResultChangesNothing` | src/cluster/Node.cpp:441-447 | A result for a task already resolved or reassigned leaves the whole cluster as it was |
| `ClusterTheorems.AtMostTwice` | src/cluster/Node.cpp:409-499 | No task's handler runs more than twice in any run, and twice exactly when a thief has run it and its re-run has run as well |
| `ClusterTheorems.ExactlyHowOften` | src/cluster/Node.cpp:409-499 | Once a submitted task is neither live at its own node nor has a live re-run there, whatever other nodes still do, it has run: twice if a thief ran it and it was also reassigned, and once if not; a closure once |
| `ClusterTheorems.WaitAllMeansRun` | src/runtime/Runtime.cpp:153-160 | When `wait_all` may return at a node every task submitted there has run, that often |
| `ClusterWitnesses.TwiceCanHappen` | src/cluster/Node.cpp:459-499 | A run on which a handler runs twice, so the bound is met |
| `ClusterPayloads.PayloadIsKept` | src/cluster/Node.cpp:409-491 | Wherever a task is run, on its node, on a thief or again, its handler is given the payload that a step of the run submitted under its id at its node |
| `ClusterPayloads.RunsAreCalls` | src/runtime/Runtime.cpp:145-169 | The executions that the bounds count are the steps of the run that call the task's handler |
| `ClusterPayloads.EverySubmissionRuns` | src/runtime/Runtime.cpp:153-160 | When `wait_all` may return, the handler of every task that a step of the run submitted there has been called: twice if a thief ran it and it was also reassigned, and once if not |
| `ClusterPayloads.StagesShareTheirRequest` | src/inference/JobManager.cpp:106-131 | All stages of an unspoiled request that are ever submitted have the kind, sizes and batch of its first stage, wherever they were run |
| `ClusterTheorems.ExecutionBounds` | src/runtime/Runtime.cpp:162-169 | Once all nodes are quiescent the executions of all nodes lie between the application's tasks and those plus the reassignments, and equal them when nothing was reassigned |
| `ClusterRequests.SpoiledIff` | src/inference/JobManager.cpp:67-76 | A request is spoiled exactly from the first submission at its node of a payload that reads as one of its stages, or when its id comes round again |
| `ClusterRequests.SubmitKeepsOneLiveIff` | src/inference/JobManager.cpp:67-72 | A submission leaves a request its one live stage if and only if the payload has less than 22 bytes or names another request |
| `ClusterCompletion.RunDriven` | src/inference/JobManager.cpp:106-148 | In every run each recorded request not inside `submit` is Done, or a live task carries a stage of it; and has had all four stages advanced, or a live task carries one of which all earlier were |
| `ClusterCompletion.OneLiveStage` | src/inference/JobManager.cpp:106-148 | At its origin every unfinished request not inside `submit`, spoiled or not, has a live stage, wherever it is; if unspoiled it has exactly one, and none once it is Done |
| `ClusterRequests.AdvancedExactlyOnce` | src/inference/JobManager.cpp:106-148 | No stage of an unspoiled request is advanced twice, it is Done exactly when all four were advanced, and never a later one without the earlier ones |
| `ClusterWitnesses.PayloadCanFinishRequest` | src/inference/JobManager.cpp:67-72 | A run on which a payload of the application marks a request Done that was never started |
| `ClusterOrigins.OnlyOwnStagesAdvance` | src/cluster/Node.cpp:409-422 | No step of the cluster advances a request at a node but the observer's call with a task of that node's own that carries a stage |
| `ClusterOrigins.AdvancesAreOwn` | src/cluster/Node.cpp:409-422 | In every run each stage a node has advanced is one it submitted itself, whatever tasks it stole and whatever request ids they carried |
| `ClusterCompletion.WaitAllMeansDone` | src/runtime/Runtime.cpp:153-160 | When `wait_all` may return nothing is live, and every recorded request that no thread is still submitting is Done with all four stages advanced, whatever payloads were submitted; with none inside `submit`, JobManager's count is the number of all requests. An unspoiled Done request is never inside `submit` |
| `ClusterWitnesses.WaitAllCanReturnEarly` | src/inference/JobManager.cpp:86-98 | A run on which `wait_all` may return while a recorded request is not started |
| `ClusterProgress.NoTaskIsStuck` | src/cluster/Node.cpp:459-499 | In every reachable state every live task has a step that brings its node nearer to the end |
| `ClusterProgress.CanAlwaysFinish` | src/cluster/Node.cpp:459-499 | Whatever was lost so far, every run can go on to a state in which nothing is live on any node, no thread is inside `submit`, and every request is Done with all four stages advanced |
| `Futures.RunInv` | include/Futures/Future.hpp:24-70 | After every interleaving each returned continuation is in exactly one place: waiting, taken by `set`, or run |
| `Futures.FirstSetWins` | include/Futures/Future.hpp:24-42 | From the first call of `set` on, the value is the one it was given |
| `Futures.SetRunsInOrder` | include/Futures/Future.hpp:24-42 | `set` runs the continuations registered before it in the order of their registration, and all of them |
| `Futures.EveryContinuationRunsOnce` | include/Futures/Future.hpp:24-70 | No continuation runs twice or with another value, and once all calls have returned each has run exactly once with the value that was set |

## Left out

- Weak memory: fences and memory orders; every atomic step is sequentially consistent.
- Waking, sleeping and backing off: that a thread waiting in `wait_all` or in a worker's idle loop is ever
  woken depends on the scheduler. The predicate is modelled, and that it can always become true.
- 64-bit wrap-around of deque indices and, in the transition systems, of task ids. The classes do wrap their
  counters, and request ids wrap everywhere.
- The batches of one steal: in `Cluster` each task of a response is recorded, counted, sent, lost and
  accepted on its own, and one turn of the reaper's second loop is one step; a batch sent or lost as a
  whole is one of its runs. At a handler's boundary the counters agree.
- Task types in `Cluster`: its pools are one place. The order in which the pools are served is in
  `RuntimeQueues` and `StealingNode`.
- The closure of a task: where it matters it is a case of `Cluster.Work`; `Tasks.Task` has only the
  portable fields, so in `StealingNode` a re-run is non-portable by the queue it is put in.
- Exceptions thrown by handlers or continuations, and handlers that are not registered.
- Continuations that call back into the same future, and a future that is set twice.
- `JobStatus.stage` under concurrency: the next stage is submitted before the field is written.
- Coordinator, peer table, victim selection, heartbeats and reported load: any node may steal from any
  other at any time.
- Real sockets, connecting and reconnecting, file descriptors and threads; a script of outcomes stands for
  the operating system.
- Metrics, tracing, CSV output, printing, the HTTP server, the ONNX model and the applications.
- ClusterTheorems.StolenOutBalance: counts the tasks in the reaper's hands as a class of their own, because the
  source has them in no table while a pass is under way; outside a pass that class is empty.
- Framing.Receiver.Serve: covers timeouts between frames; what one inside a frame costs is in `PauseLosesFlow`.
