# Satori video: a model and its proofs

The repository streams video over a publish/subscribe service. This project models the parts of
it whose correctness is a matter of order, counting or state, and proves what they promise.

- **Streams.** The demand-driven engine: a generator's drain loop, `flat_map` on top of it
  (hence `concat` and `flatten`), `merge`, `delay`, `repeat_if`, all with sinks that request
  and cancel from inside `on_next`.
- **Threads.** The bounded channel and the threaded worker, over every interleaving.
- **The frame codec.** Chunking, base64, JSON, CBOR items and back, and the reassembler.
- **The RTM client.** Its write queue, its table of unsettled requests and its subscription index.
- **The file sink** and **deferred values**.

## How it is modelled

A conversation between a source and its sink is a log of what was asked, delivered, cancelled
and ended (`histories.dfy`, `demand.dfy`). A sink is any function from the log so far to what it
does next, so every theorem about a stream holds for every sink. `Serve` is the reference meaning
of a source: a list cut at the demand given. Objects whose methods update fields are classes.
Where calls nest inside calls (`merge`, `delay`, the RTM client, deferreds), a reference function
says what each call does to the whole state, failing `CHECK`s included; every method is proved
equal to it, and the theorems are about it. The two threaded components are step systems: a step
is what one thread does without another one being able to interfere. Streams are finite, which
is what makes drains end.

What the reference functions decide is stated without them as well: what reactions and calls come
to (`demand.dfy`, `merge_heeds.dfy`, `delay_turns.dfy`, `deferred_programs.dfy`), what ends a
stream (`flat_map_endings.dfy`), what each call and event of the client means field by field
(`rtm_meanings.dfy`), what CBOR, base64 and frames stand for (`cbor_meanings.dfy`,
`base64_numbers.dfy`, `frame_fields.dfy`), and what the threads' states owe to the events of the
run (`EventsTell`, `EveryRunIsSentByCallers`).

A failing `CHECK` or `ABORT` is treated as follows.

- Generator, merge: a precondition, proved at every call.
- Channel: there is none.
- `flat_map`: a flag `aborted` that ends the run, set exactly when `FlatSession` says so.
- RTM client: a flag `aborted` that ends the run, set exactly when the reference functions say so; `RtmTheorems` gives the conditions in terms of the calls and the subscriptions.
- Worker: a flag `aborted`; it is set only after a cancellation.
- Deferred: `fault`, which is set exactly by a second registration or a second resolution.
- `delay`: `fate` tells which of the two `CHECK`s that can fail has failed; the others are preconditions, and proved.
- Subscription index: `Add` returns false. Parsers and converters: no result (`None`, `BadMessage`, `Aborted`).

Further conventions:

- Sinks do not call back from terminal signals. An error is an `error_condition` that is not zero.
- In `flat_map`, the outstanding demand never exceeds `INT_MAX` during the run, as its `int` counters require, and sources and inner streams are synchronous generators. Upstreams of `merge` and `delay` are arbitrary sources that signal only on demand, at once or later.
- The RTM client's iterators into its request table are keys here; a message is its text. In `process_input` the channel is read before the record is erased; the source erases first and reads through the iterator afterwards (rtm_client.cpp:841-842, 849-850, 860-861). A confirmation comes only after the write it answers has completed.
- The deferreds of one program are cells numbered in the order they are made; a function given to `then` returns one that was made before its `then`.
- An octet is its four pairs of bits, a base64 sextet its three.
- libavcodec's knowledge of the image size is a function of the frames it has been fed. Timestamps of the file sink are whole nanoseconds.

## What the proofs found

- `flat_map`: a sink that cancels from `on_next` while the inner stream still owes it items makes a `CHECK` fail. A sink that asks for n items and cancels on the k-th does so exactly if k < n and that item is not what an inner stream closes with, whatever the inner streams are; for any session and any sink, a `CHECK` fails exactly if the sink cancels while the inner stream owes it something, on an item that does not close that stream, which can be told from the conversation and the lengths of the inner lists; a sink that cancels only when it has all it asked for is safe.
- `delay` asks its source for more than the sink wants exactly when something is buffered or on its way and the sink wants fewer than 20; and once the source has ended, requests are ignored (asio_streams_impl.h:120-123). Either way an item can come up that the sink has not asked for, or can no longer ask for, and `CHECK_GT(_sink_needs, 0)` fails.
  - For a sink that asks at first and, at most once, from each `on_next`, `DelaySinks.Exposed` says exactly whether some source and some timers make that happen.
  - With n items asked for at first and one more from every `on_next`, as the program's own sinks do with n = 1, it happens exactly if n < 20 and the list has n + 2 items or more. A source that answers at once is safe for n = 1.
  - With a single request for n items it happens exactly if 2 <= n < length. Asking for everything at once is safe.
  - A sink that never asks from `on_next`, and for one item only when nothing is outstanding, is safe. One that does the same from `on_next` is not: the operator then asks its source in the request, and again for the same item after the delivery.
  - A timer that reports an error stalls the operator for good.
- `channel::clear` wakes no sender. Afterwards a sender can sleep for good beside a free slot exactly if one sleeps, the channel has more slots than senders on the way, and those are none or the sleepers outnumber the receivers.
- The threaded worker can let the terminal signal overtake accepted items exactly if, when the source ends, something is buffered that the worker is not about to take (the loop condition at threaded_worker.h:97); for a sink that asks only on the worker's thread, a worker on its way to a drain is about to take it if there is demand. `cancel` from another thread can leave it asleep, and it then sleeps until it is woken by an accepted item, the source's end or spuriously.
- The reassembler's counter is eight bits wide: frames of more than 255 chunks are lost, and after 255 chunks of one a packet numbered 0 leaves all that data in front of the next frame.
- The file sink can overwrite one of its own files exactly if the segment duration is less than a millisecond (for timestamps since the epoch).
- The RTM client drops a subscription's record after the callback of the confirmation, so subscribing to the same channel again from that callback fails a `CHECK` exactly if the record is there (or the subscription object is in use).

## Model

| member | source | states |
|---|---|---|
| Demand.ServeCutsListAtDemand | src/streams/streams_impl.h:104-114 | The reference source gives any sink exactly the first min(requested, length) items in order, no item beyond the demand, and the end if and only if more was requested than there is, after all items and as the last event. |
| Demand.SessionCutsListAtDemand | src/streams/streams_impl.h:152-169 | The same over any sequence of outside calls mixed with re-entrant reactions. |
| Demand.SessionObeys | src/streams/streams_impl.h:152-169 | Over a session every reaction of the sink follows its item; and while the conversation is open every outside call has been made and the demand is what all of them and all reactions asked for. |
| Demand.AskIsInOrder | src/streams/streams_impl.h:162-169 | All requests of a reaction are made, in order, and counted. |
| Generators.Generator.Request | src/streams/streams_impl.h:86-169 | request from inside on_next only counts; from outside it shows the sink exactly what the reference source would, and the source is destroyed exactly when the conversation is over. |
| Generators.Generator.Cancel | src/streams/streams_impl.h:152-160 | The death of a source is deferred while a drain frame is on the stack, and immediate otherwise. |
| Generators.Generator.DrainImpl | src/streams/streams_impl.h:297-308 | A drain step delivers the item at the index and advances the index only afterwards, without skipping or repeating one however the sink calls back. |
| Generators.Generator.Run | src/streams/streams_impl.h:338-385 | Over every session the generator is the reference source; it dies once, and never inside a drain. |
| FlatMaps.FlatServeIsServe | src/streams/streams_impl.h:752-932 | The two layers of demand accounts add up: flat_map's event order is that of one source of the concatenated list. |
| FlatMaps.FlatServeLeavesTheRest | src/streams/streams_impl.h:819-848 | What was delivered and what is left of the inner and outer streams make up the whole list, at every rest. |
| FlatMapFailures.FailsExactlyWhenCancelledInside | src/streams/streams_impl.h:122-139 | Over every session and for every sink: a CHECK fails if and only if the sink cancels while the inner stream owes it something, on an item that does not close that stream, told from the log and the lengths of the inner lists. |
| FlatMapFailures.ServedCancelIsSafe | src/streams/streams_impl.h:774-782 | A session in which the sink cancels, if it does, with nothing outstanding never makes a CHECK fail. |
| FlatMapEndings.SessionsEndAsTheyShould | src/streams/streams_impl.h:859-895 | On what the mapped function returned: if some publisher fails, the sink gets the items up to and with those of the first that does, and then its error; if none does, all items and the source's own ending. |
| FlatMaps.CancelFailsExactlyInsideABatch | src/streams/streams_impl.h:122-139 | A sink that asks for n items more at any rest and cancels on the k-th makes a CHECK fail if and only if k < n and that item is not what an inner stream closes with, for any inner streams and any endings. |
| FlatMapMachine.FlatMap.SourceOnNext | src/streams/streams_impl.h:791-798 | An outer item subscribes to its inner stream and passes on the demand then outstanding; the sink sees what FlatServe says. |
| FlatMapMachine.FlatMap.DrainImpl | src/streams/streams_impl.h:819-848 | Each round of the drain asks the inner stream, or the next outer item, or ends, so that the sink sees what FlatServe says. |
| FlatMapMachine.FlatMap.Request | src/streams/streams_impl.h:162-169 | request on flat_map shows the sink what FlatServe says, for any re-entrant sink. |
| FlatMapMachine.FlatMap.Run | src/streams/streams_impl.h:752-932 | For every session whose outstanding demand stays within an int, flat_map over a generator of generators is observationally a single generator of the concatMap; a CHECK fails exactly when the reference session says so. |
| MergeInvariants.ReceivedInterleaves | src/streams/streams_impl.h:457-482 | At every moment the sink has received an interleaving of beginnings of the upstreams' lists. |
| MergeInvariants.CompletionIsComplete | src/streams/streams_impl.h:587-601 | Completion is signalled only when every upstream has completed and the sink has received an interleaving of all their lists. |
| MergeInvariants.SignalKeepsGood | src/streams/streams_impl.h:457-521 | An upstream's item, completion or error, with whatever the sink calls meanwhile, keeps order, demand, coverage of the demand and the reasons for the end. |
| MergeInvariants.RequestKeepsGood | src/streams/streams_impl.h:524-561 | The same for a request, from outside or from inside on_next, and whatever the upstreams signal meanwhile. |
| MergeTheorems.RequestAsksForTheRest | src/streams/streams_impl.h:530-551 | When nobody calls back, a request asks every live upstream for exactly what the buffer has not met, and nobody else for anything. |
| MergeTheorems.EveryRun | src/streams/streams_impl.h:387-671 | Over every run: arrivals are delivered or buffered in order; the sink waits only while nothing is buffered, and then every live upstream owes it at least that; only the sink cancels; completion comes once, last, after an interleaving of all lists; a sink that never cancels hears the end once all upstreams are done and nothing is buffered. |
| MergeHeeds.EveryRunHeedsTheSink | src/streams/streams_impl.h:524-584 | While the conversation is open, the demand is what the sink asked for from outside and in its reactions, all of them, and nobody has cancelled from outside or in a reaction. |
| MergeHeeds.SignalsAreHeard | src/streams/streams_impl.h:457-521 | A signal of a live upstream is its next item, if asked for, or, when it has none left, its end. |
| MergeHeeds.RunsAreTheirEvents | src/streams/streams_impl.h:387-671 | A run is its events, one after the other. |
| Merges.Merge.OnNext | src/streams/streams_impl.h:457-482 | on_next is the reference's step, for re-entrant sinks and synchronous upstreams, and the merge is deleted only with no frame on the stack. |
| Merges.Merge.Request | src/streams/streams_impl.h:524-561 | request is the reference's step, at any re-entrancy depth. |
| Merges.Merge.OnError | src/streams/streams_impl.h:484-506 | An upstream's error cancels the others and is signalled at once. |
| Merges.Merge.Run | src/streams/streams_impl.h:387-671 | Every run is the reference's, cancelled only by the sink and ended when it should be. |
| DelayInvariants.OverasksExactlyWhenRash | src/streams/asio_streams_impl.h:192-215 | maybe_request asks for more than the sink wants if and only if something is buffered or on its way and the sink wants less than the watermark. |
| DelayInvariants.FireKeepsSettled | src/streams/asio_streams_impl.h:132-170 | A due item is handed over while still in front of the buffer, with whatever the sink and the source do meanwhile, and then the timer, the source or the end follows. |
| DelayTheorems.EveryRun | src/streams/asio_streams_impl.h:36-231 | Over every run: at most 20 buffered or outstanding, outstanding is requested minus received, delivered and buffered items are what the source sent, CHECK_LE fails exactly when the demand exceeds an int, only the sink cancels, and the end comes after all items. |
| DelayTurns.EveryRunIsInTurn | src/streams/asio_streams_impl.h:132-190 | Over every run: a timer that fires hands over the item whose delay it was started with; an item handed over without one had no delay when it came to the front; every call of the sink is heard and every reaction done. |
| DelayTurns.RunsAreTheirEvents | src/streams/asio_streams_impl.h:36-231 | A run is its events, one after the other, until a CHECK fails or the operator is deleted. |
| DelayTheorems.OneRequestForAll | src/streams/asio_streams_impl.h:117-215 | A sink whose one request covers the list meets no failing CHECK, and unless it cancels or a timer fails it has all items and the end when nothing can happen any more. |
| DelayFailures.FailsExactlyWhenExposed | src/streams/asio_streams_impl.h:117-160 | For a sink that asks for n items at first and, at most once, from each on_next: some source, timers and order of events make a CHECK fail if and only if n is no int or the course of single items is exposed. |
| DelaySinks.NotExposedIsSafe | src/streams/asio_streams_impl.h:117-160 | A sink that asks from on_next as often as it likes meets no failing CHECK, with any source, timers and order of events, if that course is not exposed. |
| DelayFailures.OneMoreFailsExactlyWhen | src/streams/asio_streams_impl.h:120-160 | For a sink that asks for n items at first and for one more from every on_next: some run fails a CHECK if and only if n < 20 and the list has n + 2 items or more, or n is no int. |
| DelayFailures.OneMoreIsSafeWithAnswersAtOnce | src/streams/asio_streams_impl.h:192-215 | With a source that answers at once, asking for one item at a time from on_next is safe, whatever the timers do. |
| DelaySinks.OneAtATimeIsSafe | src/streams/asio_streams_impl.h:117-160 | A sink that never asks from on_next, and for one item only when nothing is outstanding, is safe with any source, timers and order of events. |
| DelayTheorems.FailedTimerStalls | src/streams/asio_streams_impl.h:182-188 | After a timer has reported an error the sink gets no item and no end, and the operator is never deleted, whatever happens. |
| DelayTheorems.SingleRequestFailsExactlyWhen | src/streams/asio_streams_impl.h:140-142 | For a sink that asks once, for n items: some source, timers and order of events make a CHECK fail if and only if 2 <= n < length. |
| DelayTheorems.SingleRequestCanFail | src/streams/asio_streams_impl.h:157-160 | The failing run: a source that sends one item at a time, later, and timers that fire at once. |
| Delays.Delay.OnTimer | src/streams/asio_streams_impl.h:132-170 | on_timer is the reference's step, for re-entrant sinks and immediate timers. |
| Delays.Delay.MaybeRequest | src/streams/asio_streams_impl.h:192-215 | It asks for the lesser of the room left and the demand, as the reference does. |
| Delays.Delay.Run | src/streams/asio_streams_impl.h:36-231 | Every run is the reference's. |
| Repeats.Pieces | src/streams/streams_impl.h:1297-1310 | The stateful function inserts the last matching item before exactly those items that the distance to it says, and the pieces in a row are the stream with its repetitions. |
| Repeats.StepReaches | src/streams/streams_impl.h:1298-1309 | The captured state is the last matching item and the distance to it, counted modulo N+1. |
| Repeats.RepetitionsInAStretch | src/streams/streams_impl.h:1301-1306 | A stretch of k non-matching items after a matching one gets exactly floor(k/(N+1)) insertions. |
| Repeats.NoneBeforeTheFirst | src/streams/streams_impl.h:1302 | Nothing is inserted before the first matching item. |
| Repeats.WithoutRepetitions | src/streams/streams_impl.h:1286-1313 | Without the insertions the output is the input. |
| Repeats.RepetitionsLengthen | src/streams/streams_impl.h:1286-1313 | The output is longer than the input by the number of insertions. |
| Repeats.RepeatIfServesTheRepetitions | src/streams/streams_impl.h:1286-1313 | The whole operator, through flat_map, over every session and for every sink: what one source of the stream with its repetitions would have shown. |
| Channels.StepLosesNoWakeup | src/streams/channel.h:18-49 | Each step of send, try_send or recv, barging or woken spuriously, keeps: a receiver sleeps only while buffered items have signalled receivers, and dually for free slots. |
| Channels.EveryRunIsSafe | src/streams/channel.h:18-49 | Over every run without clear: no lost wake-up, the buffer within capacity, received followed by buffered equal to sent. |
| Channels.EveryRunIsSentByCallers | src/streams/channel.h:18-37 | What was sent is an interleaving of what the callers handed over: thread by thread the items of its send() calls in order, all but one that is still inside, and those try_send() items that met a free slot. |
| Channels.RecvReturnsItems | src/streams/channel.h:39-49 | A call of recv() is inside until it returns an item, the front one at that moment. |
| Channels.QuietChannelIsStuckOnlyForGoodReason | src/streams/channel.h:18-49 | When all threads sleep, receivers do so on an empty and senders on a full buffer, never both. |
| Channels.CanGetStuckExactlyWhenStranded | src/streams/channel.h:18-59 | From any reachable state, some run without clear ends with all threads asleep, a sender among them, beside a free slot, if and only if a count of sleepers, free slots, senders on the way and receivers says so. |
| Channels.ClearStrandsExactlyWhen | src/streams/channel.h:56-59 | After clear such a run exists if and only if a sender sleeps, there are more slots than senders on the way, and those are none or the sleepers outnumber the receivers. |
| Channels.CarefulRunsNeverGetStuck | src/streams/channel.h:18-59 | A run whose every clear avoids that never gets stuck. |
| Channels.LostWakeupCanBeHarmless | src/streams/channel.h:56-59 | A run in which clear loses a wake-up and nobody can get stuck. |
| Channels.ClearLosesAWakeup | src/streams/channel.h:56-59 | A run after which a sender sleeps forever beside an empty buffer. |
| ThreadedWorkers.EveryRunIsGood | src/streams/threaded_worker.h:61-176 | Every interleaving of source, worker and sink keeps: batches, batch in hand and buffer are the accepted items in order; the queue within its limit; batches within the demand. |
| ThreadedWorkers.WhatTheSinkSees | src/streams/threaded_worker.h:92-176 | Batches are non-empty, in order and at most as many as requested; a terminal signal matches how the source ended. |
| ThreadedWorkers.EventsTell | src/streams/threaded_worker.h:61-90 | Over every run: an item is accepted if and only if it meets room, so that without a limit all are, in order; demand, cancellation and the way the source ended are those of the events. |
| ThreadedWorkers.AbortsExactlyWhen | src/streams/threaded_worker.h:173-175 | A CHECK fails at exactly one kind of step: a batch is in hand and the sink has cancelled in a drain since. |
| ThreadedWorkers.WaitingItemsAreDelivered | src/streams/threaded_worker.h:97-176 | With demand and no cancellation, a worker at the wait or on its way to the drain hands over all that is buffered, as one batch. |
| ThreadedWorkers.StoppedIsQuiet | src/streams/threaded_worker.h:97-109 | A worker told to stop outside of its drain delivers nothing more, whatever happens, until the source ends. |
| ThreadedWorkers.WhatCanHappen | src/streams/threaded_worker.h:61-152 | What can happen next is told from the events so far: the source goes on until it has ended, the sink until it has cancelled, the worker unless it sleeps. |
| ThreadedWorkers.DyingEnds | src/streams/streams_impl.h:86-114 | A worker that was cancelled in its drain runs out of it and is gone without another signal; with a batch to deliver, a CHECK fails. |
| ThreadedWorkers.NothingAfterTheEnd | src/streams/threaded_worker.h:129-139 | Nothing follows the terminal signal. |
| ThreadedWorkers.AbortsOnlyAfterCancel | src/streams/threaded_worker.h:114-123 | The unreachable branch and the CHECKs can be hit only after a cancellation. |
| ThreadedWorkers.AsleepMeans | src/streams/threaded_worker.h:97-109 | The worker sleeps only with nothing to deliver, and sleeps although it should stop only after a cancellation. |
| ThreadedWorkers.EndDeliversAllExactlyWhenBound | src/streams/threaded_worker.h:72-139 | Once the source has ended, every way on to the terminal signal delivers all accepted items if and only if nothing is buffered or the worker is about to take the buffer. |
| ThreadedWorkers.EndDeliversAllExactlyWhenBoundAlone | src/streams/threaded_worker.h:72-139 | The same for a sink that asks only from on_subscribe and on_next: there a worker on its way to a drain takes the buffer if there is demand. |
| ThreadedWorkers.EndOnAnEmptyBufferLosesNothing | src/streams/threaded_worker.h:72-139 | A source that ends while nothing is buffered loses nothing, over every run. |
| ThreadedWorkers.SleepsUntilWoken | src/streams/threaded_worker.h:101-104 | A sleeping worker, cancelled or not, sleeps on exactly while no item is accepted, the source does not end and no spurious wake-up comes. |
| ThreadedWorkers.LastItemCanBeLost | src/streams/threaded_worker.h:97-109 | A run that completes without delivering an accepted item the sink has asked for. |
| ThreadedWorkers.CancelCanLeaveTheWorkerAsleep | src/streams/threaded_worker.h:141-152 | A run in which cancel leaves the worker asleep. |
| Base64.DecodeEncode | src/base64.cpp:16-40 | Decoding an encoding gives the bytes back, for all byte strings. |
| Base64.EncodeDecode | src/base64.cpp:16-40 | Encoding a decoding gives the text back if and only if the text is canonical (section 4 of RFC 4648). |
| Base64.EncodedLength | src/base64.cpp:35-40 | An encoding has four characters for each started group of three bytes. |
| Base64.EncodeConcat | src/base64.cpp:35-40 | Encodings of pieces in a row are the encoding of the whole when the first length is a multiple of three. |
| Base64.CanonicalIsEncoded | src/base64.cpp:16-33 | Every canonical text is the encoding of what it decodes to. |
| Base64Numbers.EncodingSpellsTheOctets | src/base64.cpp:35-40 | Each group of four characters, in the table of section 4 of RFC 4648, is the number of its three octets; = stands where there is no octet. |
| Base64Numbers.OctetsSpellTheSextets | src/base64.cpp:17-22 | The same for decoding, for texts of any length: bits that do not fill an octet are discarded. |
| Base64Numbers.DecodingFailsExactlyWhen | src/base64.cpp:21-26 | Decoding fails if and only if a character is neither in the table nor =. |
| Base64Numbers.DecodingCuts | src/base64.cpp:28-32 | As many octets are cut off as there are characters from the first = on. |
| CborJson.LeastWidth | src/cbor_json.cpp:19-48 | Each integer of int64 gets the narrowest of the four widths that holds it and comes back (section 2.1 of RFC 7049). |
| CborJson.RoundTripIdentity | src/cbor_json.cpp:15-216 | A document of any depth comes back unchanged if and only if it is faithful: strings and keys without NUL, payload texts canonical base64, integers in range. |
| CborJson.CStringIdentity | src/cbor_json.cpp:16-18 | A string survives c_str() if and only if it has no NUL. |
| CborMeanings.ToCborSends | src/cbor_json.cpp:15-105 | Every document is sent as what stands for it, case by case, and it is sent if and only if its integers fit and its binary texts can be decoded. |
| CborMeanings.ToJsonReads | src/cbor_json.cpp:107-216 | Every item is read as what stands for it; an object has its keys in order, each with the value of the first pair of that key; it is read if and only if it has no tag, no integer out of range and only texts or bytes as keys. |
| CborConverters.JsonToCborItem | src/cbor_json.cpp:15-105 | The recursive converter with its loops computes the specification function, aborting where it does. |
| CborConverters.CborItemToJson | src/cbor_json.cpp:107-216 | The same for the way back, where an object keeps the first of equal keys. |
| Frames.ToNetwork | src/data.cpp:73-95 | A frame becomes its slices of 48750 bytes, numbered from one, each within 65000 characters. |
| Frames.PayloadBound | src/data.cpp:76-84 | A payload fits 65000 characters if and only if it has at most 48750 bytes. |
| Frames.PayloadsAreOneEncoding | src/data.cpp:79-92 | The payloads in a row are the encoding of the whole frame. |
| Frames.FieldsOfDocument | src/data.cpp:30-44 | The fields of a network frame's document, by name. |
| Frames.ParseOfToJson | src/data.cpp:108-169 | Parsing undoes to_json, except for the departure time. |
| FrameFields.ParsingReadsTheFields | src/data.cpp:108-169 | A frame is parsed from a document if and only if that has what a frame needs, and it says, field by field, what the document says, with the defaults for what is missing. |
| Frames.TravelsUnchanged | src/data.cpp:30-44 | A network frame survives to_json, CBOR items and back, and parsing. |
| Reassembly.PacketVisitor.OnFrame | src/video_streams.cpp:42-79 | One packet moves the visitor as the step function says: mismatch, first chunk, last chunk, eight-bit counter. |
| Reassembly.PacketVisitor.Run | src/video_streams.cpp:30-103 | Any sequence of packets gives what feeding the step function gives. |
| Reassembly.FrameComesBack | src/video_streams.cpp:42-85 | A reset decoder fed the pieces of a frame of 1 to 255 chunks emits exactly that frame and is reset. |
| Reassembly.PacketsInARowAreAFrame | src/video_streams.cpp:42-79 | Whatever packets come numbered in a row, from one to the one marked as the last: they are one frame of all their data, with id, time and kind of the first. |
| Reassembly.MismatchesAndFailures | src/video_streams.cpp:43-57 | A packet that does not match is dropped with all that was in; a CHECK fails exactly for one that matches and cannot be decoded. |
| Reassembly.LongFrameIsLost | src/video_streams.cpp:87 | A frame of more chunks emits nothing and leaves the decoder reset. |
| Reassembly.EveryPieceArrives | src/data.cpp:73-169 | Every piece of every frame survives the way from sender to receiver, with the departure time set. |
| Reassembly.EndToEnd | src/data.cpp:73-169 | The whole way, sender to receiver: the same frame if and only if it has 1 to 255*48750 bytes, else nothing. |
| Reassembly.SelfStabilising | src/video_streams.cpp:42-85 | Whatever came before with chunk numbers from one up, the complete frames that follow come back exactly, except that the first is lost if and only if the decoder waits for a later chunk. |
| Reassembly.StabilityEndsExactlyWhen | src/video_streams.cpp:42-85 | One packet ends stability if and only if the counter is zero, the packet is numbered zero and not the last, and some data is then in. |
| Reassembly.ChunkZeroSpoilsTheNextFrame | src/video_streams.cpp:77 | A run from a reset decoder: 255 pieces of a long frame, a packet numbered zero, and a complete frame that comes out with all the earlier data in front. |
| Reassembly.LeftoverSpoilsTheFrame | src/video_streams.cpp:59-65 | Such a leftover becomes part of the next frame. |
| Subscriptions.ErasingANodeRemovesItsChannel | src/rtm_client.cpp:333 | Erasing one list node is removing its channel and nothing else. |
| Subscriptions.SubscriptionsMap.Add | src/rtm_client.cpp:295-305 | The list and both indexes gain one record and stay a bijection; refused exactly when a linear search finds the channel or the subscription. |
| Subscriptions.SubscriptionsMap.FindByChannel | src/rtm_client.cpp:307-314 | Lookup by channel is a linear search of the list. |
| Subscriptions.SubscriptionsMap.FindBySub | src/rtm_client.cpp:316-322 | Lookup by subscription is a linear search of the list. |
| Subscriptions.SubscriptionsMap.DeleteByChannel | src/rtm_client.cpp:324-335 | The record leaves all three structures, and only it. |
| Subscriptions.SubscriptionsMap.Run | src/rtm_client.cpp:293-350 | After every sequence of changes the three structures agree and are what the plain list would be. |
| RtmLogs.WireIsFifo | src/rtm_client.cpp:870-926 | Operations reach the wire in the order of submission with at most one outstanding. |
| RtmLogs.SettledAtMostOnce | src/rtm_client.cpp:488-526 | A request is told at most once, by exactly one of ok and error, before its record is dropped, which happens at most once. |
| RtmLogs.IdsAreDistinct | src/rtm_client.cpp:282-285 | No request or ping id is given out twice. |
| RtmInvariants.IssuingKeepsValid | src/rtm_client.cpp:543-555 | A request gets a new id, its own record and a write at the end of the queue, started at once if the wire is free, and all accounts stay in order. |
| RtmInvariants.CompletingKeepsValid | src/rtm_client.cpp:920-926 | A completion makes heard exactly what it should, its operation leaves the queue and the next one starts, also when the callback submits more; a failed write settles its request. |
| RtmTheorems.ConfirmationSettles | src/rtm_client.cpp:813-862 | A confirmation settles exactly its request with the outcome it carries, and drops exactly the subscription it should. |
| RtmMeanings.ConfirmationIsHeard | src/rtm_client.cpp:813-862 | On the fields of the PDU, action by action: ok is told if and only if it says ok, else the error of its action; the record goes after unsubscribe/ok, unsubscribe/error and subscribe/error. |
| RtmMeanings.CallsDoWhatTheySay | src/rtm_client.cpp:528-614 | Which write each call submits, with which channel, and what it does to subscriptions and state. |
| RtmMeanings.UserCodeIsObeyed | src/rtm_client.cpp:528-614 | What user code calls from a callback is done, all of it, in order. |
| RtmMeanings.CompletionIsHeard | src/rtm_client.cpp:488-526 | A completed write is not heard of; a failed one tells the error of its action and drops the record; a failed ping is a common error. |
| RtmMeanings.SubscriptionHears | src/rtm_client.cpp:789-812 | All messages of a PDU, in order, and subscription errors reach the subscriber of that channel and nobody else. |
| RtmMeanings.TimersAndReads | src/rtm_client.cpp:636-748 | What the ping timer queues, and what a failing read means in each state. |
| RtmMeanings.WhatIsPossible | src/rtm_client.cpp:751-926 | Which events can come in which state: completions while an operation is on the wire, confirmations when no write of that id is queued, all else any time. |
| RtmMeanings.RunsAreTheirEvents | src/rtm_client.cpp:363-926 | A run is its events, one after the other, until a CHECK fails. |
| RtmTheorems.ConfirmationFailsExactlyWhen | src/rtm_client.cpp:751-767 | A confirmation fails a CHECK if and only if nobody waits for it, its callback makes a refused call, or there is no subscription to drop. |
| RtmTheorems.CompletionFailsExactlyWhen | src/rtm_client.cpp:498-516 | A completion fails a CHECK if and only if it is a failure whose callback makes a refused call. |
| RtmTheorems.DataFailsExactlyWhen | src/rtm_client.cpp:803-806 | Data for a known channel fails a CHECK if and only if the callback of one of its messages makes a refused call. |
| RtmTheorems.MessagesAreHeard | src/rtm_client.cpp:789-806 | All messages of a PDU reach the subscription of its channel, each once. |
| RtmTheorems.CallsFailExactlyOnAClash | src/rtm_client.cpp:528-614 | While the client runs, calls fail a CHECK if and only if one subscribes with a channel or object in use or taken by an earlier one, unsubscribes an unknown one, or starts the client. |
| RtmTheorems.CallsFailExactlyWhen | src/rtm_client.cpp:399-614 | The same in every state, with calls that stop and start the client. |
| RtmTheorems.SubscribingAgainFromTheCallback | src/rtm_client.cpp:844-851 | Subscribing again to the same channel from the callback of the confirmation that drops it fails a CHECK if and only if the record or the object is still in use. |
| RtmTheorems.QuietEventsFailExactlyWhen | src/rtm_client.cpp:640-868 | With callbacks that call nothing, all the conditions under which an event fails a CHECK. |
| RtmTheorems.EveryRun | src/rtm_client.cpp:363-926 | Over every run: first in first out, one operation at a time and none waiting while the wire is free; the table's keys are the issued and unsettled ids; every request is told at most once, and once if it is settled and has callbacks. |
| RtmClients.Client.Subscribe | src/rtm_client.cpp:558-587 | subscribe is the reference's step, failing CHECKs included. |
| RtmClients.Client.OnRequestDone | src/rtm_client.cpp:920-926 | on_request_done is the reference's step. |
| RtmClients.Client.ProcessInput | src/rtm_client.cpp:782-868 | process_input is the reference's step. |
| RtmClients.Client.Run | src/rtm_client.cpp:363-926 | Every run is the reference's. |
| Segments.OneGreedyCutting | src/video_file_sink.cpp:241-252 | There is only one greedy cutting of a stream of frames. |
| Segments.GreedyMeans | src/video_file_sink.cpp:241-252 | What a greedy cutting is, on keys and timestamps alone. |
| Segments.FilesHoldTheirFrames | src/video_file_sink.cpp:154-177 | A file holds each frame's data and kind, at its distance from the first in whole milliseconds. |
| Segments.FilesAreNamed | src/video_file_sink.cpp:272-290 | A file is named after the milliseconds of its first and last frame, or plainly if there is only one. |
| Segments.ExtendedCuts | src/video_file_sink.cpp:241-256 | Extending the last segment, or starting one when a key frame is due, keeps the cutting greedy, for arbitrary timestamps. |
| Segments.LongSegmentsAreAllKept | src/video_file_sink.cpp:272-290 | With one file, or durations of a millisecond or more, no segment's file overwrites another's. |
| Segments.ShortSegmentsCanBeLost | src/video_file_sink.cpp:277-286 | For every shorter duration a segment can be lost. |
| FileSinks.VideoFileWriter.WriteFrame | src/video_file_sink.cpp:154-177 | A file holds its frames in order, at milliseconds from its first frame. |
| FileSinks.VideoFileSink.OnFrame | src/video_file_sink.cpp:226-257 | A frame extends the greedy segments, or only feeds the decoder while the image size is unknown. |
| FileSinks.SizedFromTheFirst | src/video_file_sink.cpp:226-240 | Recorded is everything from the first frame with which the decoder can tell the size. |
| FileSinks.HeardSinceMetadata | src/video_file_sink.cpp:209-240 | Frames before the first metadata packet are not heard of, all those after it are. |
| FileSinks.VideoFileSink.ReleaseWriter | src/video_file_sink.cpp:260-270 | The open segment is renamed into place under its start and last timestamps. |
| FileSinks.RecordAll | src/video_file_sink.cpp:200-257 | The files of a whole recording are the greedy cutting of the frames from the first key frame after the image size is known. |
| Deferreds.EveryDeferredIsItsMeaning | src/streams/deferred.h:393-428 | Between calls every deferred is resolved exactly when, and to what, the pure error-monad chain says, for every order of registering and resolving. |
| Deferreds.UserHearsTheMeaning | src/streams/deferred.h:271-309 | Each registered callback is run exactly once, with that value, and not before. |
| Deferreds.FunctionsSeeTheMeaning | src/streams/deferred.h:400-427 | Functions given to map and then run once, on their source's value, and never on an error. |
| Deferreds.ResolvingHolds | src/streams/deferred.h:289-309 | Resolving keeps the equations between a deferred and those made from it. |
| DeferredPrograms.EveryProgramIsDone | src/streams/deferred.h:271-428 | Every program, command by command: it makes the deferreds it says; what it and its callbacks register and resolve is registered and resolved with that value, all of it and nothing else; what is there stays. |
| DeferredPrograms.ProgramsAreTheirCommands | src/streams/deferred.h:244-428 | A program is its commands, one after the other, until a CHECK fails. |
| Deferreds.Deferreds.Perform | src/streams/deferred.h:271-309 | A call of user code does what the reference does; a second registration or resolution, and nothing else, is a fault. |
| Deferreds.Deferreds.RunCallback | src/streams/deferred.h:301-309 | A callback, including those of map and then, does what the reference does and resolves what it should before it counts as done. |
| Deferreds.Deferreds.Run | src/streams/deferred.h:244-428 | Every program does what the reference does; a CHECK fails if and only if somebody registers with or resolves a deferred a second time; until then every deferred is its meaning, every listener has heard it once and every function has been called once. |

## Left out

- FFmpeg, OpenCV, libcbor's byte serialisation, Boost.Asio and Beast, TLS, sockets, threads' start-up: foreign code. Boost's base64 iterators are regrouping of bits: zero fill when encoding, left-over bits discarded when decoding (for a text of 4k + 1 characters they read beyond it, which is not modelled).
- Timestamps as floating-point numbers: network timestamps are reals that travel unchanged, so rounding is not modelled.
- Indefinite-length CBOR strings, and unsigned integers from 2^63, which the converter never reaches: the integer test comes first (cbor_json.cpp:19).
- Wrap-around of the streams' long counters, and of request ids.
- Deallocation other than of sources and merges, and leaks: a merge cancelled with items left in its buffer is never deleted.
- The channel and the threaded worker are step systems on values, not classes: what matters in them is the interleaving, which a class method cannot express.
- FlatMapMachine.FlatMap.Run: sources and inner streams that signal later, from outside of a request, are not covered, and neither are runs in which the outstanding demand exceeds INT_MAX.
- Merges.Merge.Run: publishers that complete before they call on_subscribe, and calls before all upstreams are subscribed.
- DelayFailures.FailsExactlyWhenExposed: for a sink that makes several requests from one on_next only the safe half is proved (DelaySinks.NotExposedIsSafe), because there the course of single items is not always the worst one: with 20 on their way the operator asks at none of the requests.
- Requests from two threads that find the threaded worker's drain free at the same moment can nest one drain in another; that is not modelled.
- RtmClients.Client.Run: start() is its outcome, connected or not; ping times and pongs, connecting, metrics and the JSON text of a PDU are not modelled; a PDU that fails a CHECK by its shape is one case.
- Deferreds.Deferreds.Run: deferreds made from inside a callback, and void values; user code resolves only deferreds it made itself, not those made by map and then.
- range, take, take_while, map, do_finally, timeout, error_or, the frame drop strategy, bot messages, pools, the resilient client: simple plumbing around the above.
