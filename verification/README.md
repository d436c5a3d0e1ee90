# Verification of the message channel

The repository gives an application a message channel (`send`, `recv`, `flush`) in two forms.
This project models both in Dafny and proves what they are for: every message arrives exactly
once and in order, whatever breaks, and nobody is left waiting.

## What is modelled

**The resumable stream** (`src/grpc_client.cpp`, driven by `src/channel.cpp`).

- `Protocol.dfy` is one direction as a machine of atomic steps: the sender's application
  thread, its ack thread, the server behind every stream ever opened, and the receiver that
  pops its list.  A step that is not enabled leaves the state alone, so "every run" is "every
  list of actions".  Abandoned streams stay in the state and the server may go on draining
  them in any interleaving with the live one.
- `ProtocolInvariant.dfy` has what every step keeps; `ExactlyOnce.dfy` the theorems over
  every run, whatever is given up on the way; `GivingUp.dfy` when giving a message up does harm.
- `RpcClient.dfy` and `Channel.dfy` are the client and the drivers as classes with the fields
  and loops of the source.  `Environment.dfy` is what their code cannot see: between any two
  of their own steps the server, the other party and the ack thread run for any number of
  steps.  Each method is proved to move the machine only along its own steps, so the theorems
  about the machine hold for what the code does.  The environment keeps a record of what the
  code asked of it (each `Write`, each answer of the list, each sleep, each time the stream was
  found unfit), and the methods say what they add to it: that is how they say what they may not
  leave out, and when they may give up.
- `ChannelRuns.dfy` has runs in which the drivers report what did not happen, and proves that
  an empty queue is exactly what `flush` has to wait for.
- `Codec.dfy` is the list elements as bytes.

**The shared-memory channel** (`src/memchannel.cpp`).

- `Ring.dfy` is the ring as a class over an array, with 32-bit counters that wrap, masks and
  two-piece copies, proved to be a FIFO queue; `SpinRing.dfy` is the same ring with every
  load, byte copy and counter add a step of its own.
- `Framing.dfy` and `MemChannel.dfy` are the 4-byte headers and chunk loops.
- `Mirror.dfy` is two parties that call `send` and `recv` over their two rings, in spin mode
  or with mutex and condition variable.  `TwoParties.dfy` proves, for any calls the two make,
  that no wake-up is lost, that traffic is conserved and that messages arrive in order;
  `MirrorProgress.dfy` and `MirrorTheorems.dfy` prove that the complementary calls of a common
  script never block each other and come to an end.  A ring operation is one step there;
  `SpinParties.dfy` shows that in spin mode two parties whose loads and byte copies interleave
  in any way refine that machine, and that they make progress step by small step.
- `KeyLocks.dfy` is the table of reference-counted key locks for any number of threads, and
  `LockTable.dfy` its two functions as one thread runs them.

`Bytes.dfy` holds the words, masks and residues both halves use.

## What is relied on

The server, redis and gRPC are not in the repository.  The model relies on this of them:

- a stream is FIFO and delivers a prefix of what was written to it;
- the server pushes a packet to the receiver's list before it acknowledges it, and
  acknowledges in the order it read, with the packet's number;
- once a `Write` has returned false the stream accepts nothing more; that last packet is never
  acknowledged, but may be delivered, then with its own number and content;
- the list is FIFO, and a `brpop` that answers nothing or throws has taken nothing off it; in a
  v2 list the first element and no other carries the version magic and every element has its
  four index bytes, and a v1 list does not begin with the magic;
- `Finish` makes the ack thread's next `Read` fail, so that it can be joined.

Of callers: no two calls on one channel object overlap, since `real_send`, `real_recv` and
`flush` all tear down and replace the one client they share; fewer than 2^31 messages are sent.
A message given up by `real_send` may be retried or another one sent; what arrives is in order
as long as none is given up with a copy left on a stream (`GivingUp.GivingUpIsSafeIff` shows that
this is exactly what is needed, and `GivingUp.CopyLeftIff` which of the sender's own calls leave
one), and otherwise differs at most at the numbers of those messages.  A thread may take several
keys of the lock table at once and counts as several there; that calls end
(`KeyLocks.EveryCallCanEnd`) is for holders that do give their keys back. Of the machine: atomics are sequentially consistent, and the ring size is a
power of two between 8 (as the source asserts) and 2^30.

## Where the code does not do what one would expect

The model follows the code in each case.

- `real_send` and `real_recv` return as if they had worked when the 120th attempt failed but
  the reconnect after it succeeded (`src/channel.cpp:147-160`, `src/channel.cpp:200-208`).
  `RealSend` and `RealRecv` say exactly when; `ChannelRuns.UnsentRun` and
  `ChannelRuns.UnreceivedRun` are such runs.
- `flush` returns true after 120 failed rounds (`src/channel.cpp:318`);
  `ChannelRuns.UnflushedRun` is such a run.
- After `real_send` has given up on a message, the next one gets the same number; the receiver
  may then be handed the dropped message in its place.  `GivingUp.LostMessageExample` is a
  concrete run, and `ExactlyOnce.ExactlyOnceInOrder` says that this is all that can happen.
- Below v2 a reconnect loses the receive index: `m_recv_idx` is -1 on a new client and is not
  restored (`src/grpc_client.cpp:454-475`).
- `MemChannel::send` of more than 2^31 bytes addresses memory before the buffer, or sends only
  part of it: the offset is an `int` and the length is cut to 32 bits
  (`src/memchannel.cpp:385-396`).

## Model

| member | source | states |
|---|---|---|
| ProtocolInvariant.StepKeeps | src/grpc_client.cpp:105-146 | every step of sender, ack thread, server, reconnect and receiver, and every giving up of a message, keeps the invariant that ties streams, queue, acks, list and received messages to one numbered log and to the messages given up with a copy left |
| ProtocolInvariant.HandoverKeeps | src/grpc_client.cpp:439-475 | the new stream starts at the first unacknowledged number and the server has already reached it, so a reconnect loses and skips nothing |
| ProtocolInvariant.PushDelivers | src/grpc_client.cpp:312-321 | whatever stream the server drains, live or abandoned, the element it pushes is never beyond one past all that was pushed, and is the message of its number or one given up under it |
| ProtocolInvariant.GiveUpKeeps | src/channel.cpp:130-164 | giving a message up, at any time and with or without a copy left, keeps the invariant |
| ProtocolInvariant.PopReceives | src/grpc_client.cpp:312-321 | the filter in `Recv` appends what stands for the next number or nothing, and never meets a number above the expected one |
| ExactlyOnce.ExactlyOnceInOrder | src/grpc_client.cpp:212-333 | in every reachable state, over any number of broken streams and whatever was given up, no gap was ever seen and each message `Recv` returned is the one of its number, or one given up under that number with a copy left; as long as none was, they are a prefix of those `Send` accepted followed by the one in hand |
| ExactlyOnce.NoStreamSkips | src/grpc_client.cpp:312-321 | whatever was given up, the next packet of every stream, live or abandoned, carries at most the number after the highest one pushed |
| ExactlyOnce.RetriesCarryTheSameMessage | src/channel.cpp:126-150 | two packets with one number carry the same message, on whatever streams and attempts, unless one of them was given up with a copy left |
| ExactlyOnce.QueueShape | src/grpc_client.cpp:241-267 | whatever was given up, the unacknowledged queue is the contiguous run of numbers up to `m_seq - 1`, each with its own message |
| ExactlyOnce.AcksMatch | src/grpc_client.cpp:114-131 | whatever was given up, every ack read is for the front of the queue, also right after a resend; the ack thread waits for the queue only while a `Send` is about to append that very packet |
| ExactlyOnce.FlushIsDurable | src/grpc_client.cpp:386-401 | with the queue empty, what the receiver has plus what it will take off its list covers every accepted number, each with what stands for it; unless one was given up with a copy left it begins with all accepted messages in order, and with none in hand it is exactly those |
| ExactlyOnce.DeliveriesFillTheGap | src/grpc_client.cpp:312-333 | popping a list without gaps delivers one message for each number between the expected one and the highest on the list, and what stands for it |
| ExactlyOnce.PopAll | src/grpc_client.cpp:290-333 | some run of the receiver alone empties its list, and what it then has received is what it had followed by exactly the deliveries the durability theorems speak of |
| ExactlyOnce.AlwaysRecoverable | src/channel.cpp:126-150 | from every reachable state, whatever was given up, some run gets the message in hand accepted and every accepted number delivered and acknowledged; delivered exactly once in order unless one was given up with a copy left |
| GivingUp.GivingUpIsSafeIff | src/channel.cpp:130-164 | in every reachable state in which nothing was given up with a copy left, giving up the message in hand keeps order for ever if and only if no stream has a copy of it |
| GivingUp.CopyLeftIff | src/grpc_client.cpp:242-279 | from the moment a message is taken up and until it is accepted or given up, a copy is left under its number if and only if one of its `Write`s was the first on its stream to return false, or one given up before had left one |
| GivingUp.OthersLeaveCopies | src/grpc_client.cpp:454-475 | no step but a `Write` of the message in hand, rewriting the queue and reconnecting included, leaves or removes a copy |
| GivingUp.DroppedMessageReappears | src/channel.cpp:147-160 | with a copy left and a different next message, some run hands the receiver the dropped message in its place |
| GivingUp.CarefulIff | src/channel.cpp:130-164 | a run leaves no message behind exactly when each was given up while no stream had a copy of it |
| GivingUp.ExactlyOnceWithCare | src/channel.cpp:130-164 | exactly once and in order over every run that gives messages up only so |
| GivingUp.LostMessageExample | src/channel.cpp:131-150 | a concrete run: the first message's only write fails, it is dropped, and the receiver gets it where the second one belongs |
| Codec.DecodeEncode | src/grpc_client.cpp:298-313 | index and body are read back as written for every index and command; an empty body is never taken for a command |
| Codec.ListRoundTrip | src/grpc_client.cpp:294-313 | a whole list, magic on the first element, data and commands in any order, is read back as written |
| Codec.PlainListRoundTripIff | src/grpc_client.cpp:201-210 | a v1 list is read back if and only if it is empty or its first message does not start with the magic |
| Client.HandoverConservesIff | src/grpc_client.cpp:439-475 | what a new client is given equals what the old one had if and only if the service is v2 or there was nothing to carry |
| Client.RpcClient.PopAcked | src/grpc_client.cpp:116-131 | the commented-out assertion holds: the front packet has the number of the ack, and it alone is popped |
| Client.RpcClient.ReadAck | src/grpc_client.cpp:112-144 | the next ack is read, and it is what `Read` answered, or the thread ends; the queue is left alone |
| Client.RpcClient.Send | src/grpc_client.cpp:212-282 | true exactly when the message joins the accepted ones; one `Write` is made, of this message under the next number, and its answer is the answer; only with the ack thread ended there is none; false means that thread has ended or the stream accepts nothing more, leaves the accepted ones and the content as they were, ready for the same number again, and reports whether this call left a copy |
| Client.RpcClient.Append | src/grpc_client.cpp:260-267 | the written packet joins the queue even when its ack was read before |
| Client.RpcClient.InitDataVersion | src/grpc_client.cpp:201-210 | the version is v2 exactly when the element is the magic followed by what is handed back; otherwise all of it is handed back |
| Client.RpcClient.Sort | src/grpc_client.cpp:294-333 | any element, of a v1 or v2 list and in the version known or just detected: a command is skipped, the number after the last one taken, a number up to it ignored as repeated, a larger one rejected; the receive index moves exactly with a taken one |
| Client.RpcClient.NumberedTaken | src/grpc_client.cpp:298-322 | whatever verdict fits an element the server wrote moves the client as it moves the protocol, and is never a rejection |
| Client.RpcClient.Judge | src/grpc_client.cpp:294-333 | a popped element, numbered or plain, moves the client as it moves the list it came from; it is skipped exactly if it is a command, called repeated only if it is data, and never rejected |
| Client.RpcClient.TakeOne | src/grpc_client.cpp:290-343 | one `brpop` hands out the next message, numbered or plain, or none; an attempt is wasted only by a silence, an exception or a command, and a silence asks for a resend exactly when the ack thread has ended with packets unacknowledged and the caller wants to know; the "larger than expected" branch is never taken |
| Client.RpcClient.Attempts | src/grpc_client.cpp:288-349 | the attempt loop hears only wasted answers up to its last one; it ends with a skip exactly when all its attempts were wasted |
| Client.RpcClient.Recv | src/grpc_client.cpp:284-351 | returns the next message, in order of its number or, in a v1 list, of its arrival, or leaves the received ones alone; times out only after `m_redis_timeout` wasted answers in a row, counted anew behind each repeated message; asks for a resend only when the ack thread has ended with packets unacknowledged, and then at the first silence; ends although it calls itself |
| Client.CourseGoesOn | src/grpc_client.cpp:315-317 | what a call made behind a repeated message ends with is what the whole call has to end with, the wasted answers before that message no longer counting |
| Client.RpcClient.PlanSleep | src/grpc_client.cpp:415-427 | the next sleep is positive and not past the limit, and keeps the doubling |
| Client.RpcClient.LookAtQueue | src/grpc_client.cpp:391-412 | under the mutex: empty exactly if the queue is, broken exactly if it is not and the ack thread has ended or the connection is not ready |
| Client.RpcClient.WaitFlush | src/grpc_client.cpp:386-435 | true exactly when the queue was seen empty; a resend is asked for exactly when it was not and the ack thread has ended or the connection is not ready; neither only after `max_msec`; its sleeps double, add up to at most `max_msec`, and are logarithmic in number, on any clock that advances at least as asked |
| Client.RpcClient.FlushedMeansDelivered | src/grpc_client.cpp:386-401 | an empty queue means that every accepted message is durable in the sense of `FlushIsDurable`, whatever is in hand or was given up |
| Client.RpcClient.Finish | src/grpc_client.cpp:485-490 | the join returns: a held ack finds its packet, and the thread has ended |
| Client.RpcClient.GetContinueStatus | src/grpc_client.cpp:439-452 | what is handed over and what stays make up the old queue; at v2 a new client restored from it is the same |
| Client.RpcClient.SetContinueStatus | src/grpc_client.cpp:454-475 | for a status of any version the fields become what the status restores, whether or not the rewriting gets through; below v2 nothing else happens, at v2 one stream is opened, the queue is written on it in order up to the first failure, and it is true exactly when everything unacknowledged is on the new stream, which is exactly when that still accepts |
| Client.RpcClient.WriteAgain | src/grpc_client.cpp:464-471 | the loop writes each packet of the queue once and in order, stopping at the first failure, and leaves the queue as it is; true exactly when all of it is on the stream |
| ChannelDrivers.Channel.Reconnect | src/channel.cpp:138-147 | finish, take the status, build a new client, set the status: no packet, number or index is lost in either direction, one stream is opened, and the answer is true exactly when everything unacknowledged is on it |
| ChannelDrivers.Channel.TrySend | src/channel.cpp:131-150 | one attempt: a `Send`, then a reconnect exactly when it failed; the writes made are that of the message, if the stream was up, and those of the reconnect |
| ChannelDrivers.Channel.RealSend | src/channel.cpp:126-165 | for any message, also a different one after a give-up: it is accepted exactly once, and then its own `Write` under the next number was the last one; otherwise nothing is accepted, the content is intact after 120 attempts, it returns without an exception exactly when the last reconnect has everything unacknowledged on its stream, and a copy is left exactly when some `Send` reported one or one was there; there is one reconnect for each `Send` that found the stream unfit, and none without; the message given up before is remembered exactly if it had left a copy; statistics |
| ChannelDrivers.Channel.RealRecv | src/channel.cpp:178-219 | the next message in order or none, as the answers its last `Recv` had from the list call for; one reconnect for each `Recv` that asked to resend, and none without; after 120 of them it returns empty exactly when the last reconnect has everything unacknowledged on its stream, else throws; it throws before only when timed out; statistics |
| ChannelDrivers.Channel.Flush | src/channel.cpp:290-319 | true from inside the loop means every accepted message is durable, also after a give-up; true after 120 rounds is stated apart; false only when, in its last round, the ack thread runs, the connection is ready and the whole waiting time has passed; one reconnect for each time packets were unacknowledged on a broken stream or connection, and none without |
| ChannelRuns.UnsentRun | src/channel.cpp:131-160 | a run of 120 failing writes and working reconnects: `ret` is true at the end with nothing accepted |
| ChannelRuns.UnflushedRun | src/channel.cpp:291-318 | a run of 120 broken streams and working reconnects: `flush` returns true with the accepted message delivered nowhere |
| ChannelRuns.UnreceivedRun | src/channel.cpp:181-208 | the same run seen by `real_recv`: in each of the 120 rounds the ack thread has ended with a packet unacknowledged and the reconnect works |
| ChannelRuns.FlushExact | src/channel.cpp:290-296 | the queue is empty if and only if every reachable state that looks the same to the sender is durable |
| SharedRing.MaskedWrap | src/memchannel.cpp:90-92 | masking a counter that wraps at 2^32 finds the slot of the unbounded position |
| SharedRing.WrappedDistance | src/memchannel.cpp:105-111 | `in - out` in 32 bits is the true occupancy however often the counters have wrapped |
| SharedRing.CanPutIff | src/memchannel.cpp:105-107 | `can_put` is right if and only if the sum does not wrap to a small number, and it does not for any size up to the ring size |
| SharedRing.CanGetIs | src/memchannel.cpp:109-111 | `can_get` compares the true occupancy |
| SharedRing.RoomIs | src/memchannel.cpp:89-89 | the wrapped expression in `put`'s `min` is the true room |
| SharedRing.CopySlotIs | src/memchannel.cpp:90-92 | the two `memcpy` pieces of a copy are consecutive positions modulo the ring size |
| SharedRing.HoldsMore | src/memchannel.cpp:87-94 | filling the slots behind `in` extends the queue and touches no byte still in it |
| SharedRing.PiecesRead | src/memchannel.cpp:96-103 | the two pieces copied out are the next bytes of the stream |
| SharedRing.SharedMemoryView.Put | src/memchannel.cpp:87-94 | appends as much of the buffer as fits to the queue, on the array and wrapped counters |
| SharedRing.SharedMemoryView.Get | src/memchannel.cpp:96-103 | takes the front of the queue |
| SharedRing.SharedMemoryView.Write | src/memchannel.cpp:129-144 | publishes all of the buffer and nothing else once the guard is true, while the other process reads; still blocked only if the buffer does not fit behind the unread bytes |
| SharedRing.SharedMemoryView.Read | src/memchannel.cpp:113-127 | takes exactly the next `len` bytes of the stream, while the other process writes; still blocked only if fewer are there |
| SpinRing.RefinesQueue | src/memchannel.cpp:87-143 | with every load, byte copy and counter add a step of its own, each step of either side is a step of a FIFO queue: nothing, a whole write, or a whole read |
| SpinRing.CountersAndClamps | src/memchannel.cpp:87-111 | over every interleaving the bytes read are a prefix of those written, the counters give the occupancy, and neither `min` cuts anything off |
| SpinRing.CopiesNeverOverlap | src/memchannel.cpp:87-103 | while a write and a read are both copying, no slot belongs to both |
| SpinRing.QueuedBytesNeverChange | src/memchannel.cpp:87-111 | in every reachable state the slots in `[out, in)` hold their own bytes, and no step changes one that stays there |
| Framing.PiecesCover | src/memchannel.cpp:388-396 | the chunks cover the body exactly once; none is empty or larger than the ring, also for empty bodies and exact multiples |
| Framing.SendCoversIff | src/memchannel.cpp:385-396 | in the source's 32-bit arithmetic the chunk loop sends the message from first to last byte if and only if it has at most 2^31 bytes |
| Framing.FrameUnique | src/memchannel.cpp:385-396 | a stream can be cut into frames in only one way |
| Framing.ReceivedArePrefix | src/memchannel.cpp:379-454 | if the received frames are a prefix of the sent bytes, the received messages are a prefix of the sent messages |
| MemoryChannel.ChunksAdvance | src/memchannel.cpp:391-396 | each turn of the loop moves `pos` and `body_len` to the next chunk without the `int` offset overflowing while it is used |
| MemoryChannel.MemChannel.Send | src/memchannel.cpp:379-399 | publishes exactly one frame, its header and each chunk by one `write`; a call still blocked has published a prefix of it, in the same pieces, and the next of them does not fit; statistics |
| MemoryChannel.MemChannel.SendBody | src/memchannel.cpp:388-396 | the chunk loop publishes the body chunk by chunk, or a prefix of it behind which the next chunk does not fit |
| MemoryChannel.MemChannel.Recv | src/memchannel.cpp:445-454 | the bytes taken off the stream are exactly the frame of the message returned, taken in the pieces its sender writes; a call still blocked has taken part of one frame and not all of it, and the ring holds less than its next read needs; statistics |
| MemoryChannel.MemChannel.RecvBody | src/memchannel.cpp:428-440 | the chunk loop takes the announced number of bytes in order and in the same chunks; still blocked only if the ring holds less than the next chunk |
| MirrorProgress.NextPiece | src/memchannel.cpp:379-454 | the read a receiver derives from headers is, in size and place, the write its sender makes next |
| MirrorProgress.PerformKeeps | src/memchannel.cpp:379-454 | every ring operation keeps the invariant: the party ahead has its pieces on its ring and nothing is on the other |
| MirrorTheorems.MirroredScriptsProgress | src/memchannel.cpp:113-144 | in every reachable state that is not the end some party has a step, and it decreases the measure, in both modes and for messages larger than the ring |
| MirrorTheorems.NoDeadlock | src/memchannel.cpp:113-144 | two parties on mirrored scripts are never blocked at once |
| MirrorTheorems.BusyRunsEnd | src/memchannel.cpp:113-144 | under every schedule the parties make at most as many steps as the measure says, and three more for each spurious wake-up |
| MirrorTheorems.RunToEnd | src/memchannel.cpp:113-144 | from every reachable state some schedule finishes both scripts |
| TwoParties.NoLostWakeup | src/memchannel.cpp:113-144 | for any calls of the two parties, a sleeper's guard is false or the other party has still to signal that ring; if both sleep neither could go on; no mutex is held twice |
| MirrorTheorems.NeverBothAsleep | src/memchannel.cpp:113-144 | on mirrored scripts the two are never asleep at once |
| TwoParties.DeliveredInOrder | src/memchannel.cpp:379-454 | for any calls of the two parties and in every interleaving, what a party has received is a prefix of what the other one has completely sent, and that a prefix of what it was asked to send |
| MirrorTheorems.MirroredScriptsDeliver | src/memchannel.cpp:379-454 | on mirrored scripts each party has received all of it at the end, with both rings empty |
| TwoParties.TrafficIsConserved | src/memchannel.cpp:379-443 | for any calls of the two parties, the bytes one has sent, with the progress of a send in flight, are byte for byte those the other has received followed by the ring; so packet and byte statistics add up, and between calls they agree if and only if the ring is empty |
| SpinParties.RunRefines | src/memchannel.cpp:87-143 | every run of two spinning parties, loads and byte copies interleaved in any way, is a run of the machine in which a ring operation is one step |
| SpinParties.DeliveredInSmallSteps | src/memchannel.cpp:87-143 | so messages arrive in order at that granularity, for any calls of the two |
| SpinParties.SmallStepsProgress | src/memchannel.cpp:113-143 | and on mirrored scripts some party always has a small step, which decreases the measure |
| SpinParties.SmallStepsEnd | src/memchannel.cpp:113-143 | no schedule makes the parties take more small steps than the measure says |
| KeyLocks.MutualExclusion | src/memchannel.cpp:151-171 | for any number of threads and of keys held by each, at most one use of a key is between the return of `get_key_lock` and the unlock in `free_key_lock` |
| KeyLocks.CountsAreUsers | src/memchannel.cpp:151-171 | a count is the number of threads that hold, await or are giving back the entry; no thread locks or unlocks an erased mutex; with all threads outside the table is empty |
| KeyLocks.ErasedByTheLastUser | src/memchannel.cpp:167-169 | an entry is erased only by its one user, and then nobody holds or awaits it |
| KeyLocks.NobodyStuck | src/memchannel.cpp:151-171 | for a thread inside a call, that thread, the one with the table's mutex or the one with its key has a step, or the thread waits for a holder that has yet to give its key back |
| KeyLocks.EveryCallCanEnd | src/memchannel.cpp:151-171 | from every reachable state some run in which holders give their keys back and nobody starts a new call brings a thread inside a call to its end: it has its key, or is out |
| LockTables.LockTable.GetKeyLock | src/memchannel.cpp:151-157 | on return the thread has locked the mutex stored for the key and nobody else has it; still blocked only if another thread holds the mutex it waits for |
| LockTables.LockTable.CountUp | src/memchannel.cpp:153-154 | the entry is found or created, and counted, as the machine of all threads does |
| LockTables.LockTable.UnlockEntry | src/memchannel.cpp:161-165 | the key is in the map, as the source asserts, and it is this thread that has locked it |
| LockTables.LockTable.CountDown | src/memchannel.cpp:167-169 | the key leaves the map exactly when this was its last user; every other key is untouched |
| LockTables.LockTable.FreeKeyLock | src/memchannel.cpp:159-171 | on return the thread is out and counts for no key; still blocked only if another thread holds the mutex of the table |

## Left out

- The v1 push path, the pull path without redis, and the usage report of `finish` (`src/grpc_client.cpp:352-383`, `src/grpc_client.cpp:495-521`): no protocol state.
- `init_rpc_version` and `create_channel` throwing, metadata, deadlines and connection setup: `InitSender` is the case of a server that speaks v2.
- The LZ4 wrappers (`src/channel.cpp:15-39`): a header around a library.
- Creating, attaching and unlinking shared memory, file locks and `client_attached` (`src/memchannel.cpp:173-300`, `src/memchannel.cpp:341-374`): operating-system behaviour.
- `MemChannel::recv(void*, uint64_t)` and `channel::recv(void*, uint64_t)`: the string forms plus a length check.
- `src/ThreadPool.h`, `src/gaiathread.cpp`, random numbers and logging: not part of the channel.
- Client.RpcClient.Recv: `m_redis_timeout == 0` polls for ever; the model watches such a call for `patience` polls, any number.
- Client.RpcClient.Sort: v2 elements of fewer than four bytes, from which the source copies four all the same.
- ChannelDrivers.Channel.Reconnect: service v1, which has no sender after `set_continue_status`; `SetContinueStatus` covers what happens to the fields. The three drivers reconnect only at v2 when the server speaks it.
- MemoryChannel.MemChannel.Send: more than 2^31 bytes, where the source addresses memory before the buffer or drops part of the message; `Framing.SendCoversIff` is the exact bound.
- MemoryChannel.MemChannel.SendBody: more than 2^31 bytes, as for `Send`.
- MemoryChannel.MemChannel.RecvBody: an announced length above 2^31, as for `Send`.
- MemoryChannel.MemChannel.Recv: a header above 2^31, which no `send` of the model writes, ends in `TooLong`; the source would go on with a wrapped offset.
- SharedRing.SharedMemoryView.Write: the blocking loops of `write` and `read` are watched for `patience` polls, any number; that they end is proved of the mirrored parties instead.
- MirrorTheorems.MirroredScriptsProgress: a ring operation is one step here; `SpinParties.RunRefines` is what allows that in spin mode, and the mutex with a condition variable.
- LockTables.LockTable.GetKeyLock: blocking is watched for `patience` polls at each lock; `KeyLocks.EveryCallCanEnd` is the progress statement.
- Client.RpcClient.Send: `m_seq` and `m_recv_idx` are mathematical integers bounded by the assumption of fewer than 2^31 messages; the `taskid` and party fields of a packet are constant and not modelled.
- KeyLocks.CountsAreUsers: `KeyLocks` is a machine on values, since it is about any number of threads; update in place of the global map is in `LockTables.LockTable`.
