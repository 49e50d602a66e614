# fRPC, modelled and proved

fRPC is an RPC session engine with no goroutines, clock or I/O of its own: time and frames
are handed to it, so every run is a sequence of explicit steps. This project models that
engine and the pieces around it in Dafny, and proves what it promises over every run.

The objects the program mutates are classes here (`Core`, `Chain`, `Outbox`,
`CallIDAllocator`, `SocketTransport`, `BodyReader`, the generated `Reader`, `Writer` and
`FRpcCtx`), and each of their methods is proved against a value model. The promises are
then proved about the value model.

## How it is put together

- `basics`, `layout`: fixed-width integers, byte strings, and the field layout of Fomoxa.
- `body_io`, `ctx_model`, `ctx`, `generated`: the two ctx codecs, method by method, against that layout.
- `wire`: the frame header codec. Everything else keeps frames decoded; this file shows that
  nothing is lost by that.
- `allocator`: call ids.
- `outbox_model`, `outbox`, `outbox_refinement`, `scheduler`: the send queues as values, the
  object, the refinement to a map of FIFO queues, and fairness.
- `session`, `core_model`: the vocabulary of a session and one core as a state machine. A
  state carries a journal of the steps taken and a trace of what an observer saw. A state is
  `Reachable` when a run of enabled steps leads to it. What a step does to one call is a
  function of what the core knows of that call alone, its `View`.
- `chains`, `core_ops`, `lawful`: chains of enabled steps, every operation of `core.go` as a
  composition of steps, and the proof that each operation is such a chain.
- `core`: the classes `Core` and `Chain`. Every method equals its operation, every public
  method keeps `Valid`, which is reachability itself.
- `effects`, `call_effects`, `poll_effects`, `message_effects`, `tick_effects`: what every
  operation comes to, in terms of guards a caller can check, handler scripts, frames queued,
  outcomes told and links unwound; none of these laws names the function it is about.
- `histories`: a run as one call sees it. Each theme below keeps a ledger, a fold over the
  acts of one call, and an invariant that ties the ledger to the view.
- `completion`, `grammar`, `clean_ids`, `answers`, `observed`, `incarnations`: what one core
  promises. `overtaking` and `collision`: where the caller's frame order fails, exactly and
  on a run of operations.
- `ledger`, `flows`, `uploads`, `naming`: what one core knows of what flows under a call, in
  either direction, and of the ids it flows under.
- `traces`, `duplex`, `delivery`, `duplex_laws`, `upload_laws`, `conforming`, `answers_told`: two
  cores over two FIFO links, in any interleaving, and what they promise together.
- `deadlines`: ticks, the nearest deadline, the wait plan, and the budget over hops.
- `transport`: the byte stream over a non-blocking socket.
- `handshake`: the schema prefix test.

## Results that are not obvious from any one body

1. Two cores, any interleaving: while a call is live on both sides, items told, then items
   under way, then items queued are all its handler yielded, in order; being told of the end
   means having been told everything (`StreamInOrder`, `ToldIsYielded`, `EndMeansAll`). The
   same for the caller's stream towards the handler (`UploadInOrder`, `GivenIsOffered`,
   `CloseMeansAll`), and a response is told exactly as the handler gave it (`ResponseIntact`).
2. A call is served at most as often as it was made, and a stream opened with credit never
   outruns the credit its REQUEST carried and what was granted since (`NeverMoreThanAsked`,
   `InitialIsOffered`, `CreditConserved`). Towards the callee the credit law is another one:
   until the first credit reaches the caller nothing bounds it, from then on what it offers
   is bounded by what it had offered then and all that was granted (`UploadPaid`).
3. Every call ends exactly once, and every interceptor link is unwound once for each time it
   was entered, less the calls inside it now (`ExactlyOnce`, `LinksConserved`). The trace that
   these speak of is what the chain did and what callers collect (`ChainDoesAsTraced`,
   `OutcomesAreTold`).
4. The caller's frames follow REQUEST, ITEM*, END?, with at most one CANCEL last, and a call
   abandoned before its REQUEST is accepted emits nothing. Both hold of every id that a core
   opened once, if before that it heard no REQUEST under it and nothing that does not decode
   or inflate (`GrammarOnce`), and so of every call made once to a peer that is a core itself
   (`OrderKept`). Otherwise they can fail. A peer that sends a REQUEST under an id of the receiver's own parity is answered with an ERROR
   under that id; if the receiver opens its call under that id while the ERROR is still
   queued, the REQUEST waits behind it, and then
   - a CREDIT leaves ahead of the REQUEST (`CreditCanOvertake`, a run of `OnReady`,
     `OnMessage`, `Call`, `Grant` and `Drain`), which happens exactly when the queue does not
     open with the REQUEST (`CreditOvertakesExactly`);
   - cancelling throws the REQUEST away and queues a CANCEL for a call the peer never heard
     of (`CancelCanMislead`), which happens exactly when the queue does not open with the
     REQUEST (`AbandonedExactly`).
5. A core opens each id at most once as long as it has not probed all 2^31 ids of its parity,
   skipped ones counted (`EachIdOnce`, `MadeOnce`): this is what the laws of two cores ask for
   when they speak of ids opened once.
6. Once no call is live and the core is not ready, as after the session's end, a message has
   an effect exactly when its id is of this protocol and not a plain one, its payload has at
   least five bytes, and it does not decode (`SilentUnlessUndecodable`): such a message is
   answered before `ready` is looked at.
7. A call at place p in line waits at most p turns (`WaitingTurns`), and ahead of it go out at
   most p turns' worth of bytes and the CREDITs told, no more of them than waited at first or
   were granted since (`WaitingBound`). The CREDITs cannot be left out: a drain offers every
   ready one before it takes a turn, and takes none if one is rejected (`CreditsGoFirst`,
   `CreditGoesAhead`, `DrainIsStages`).
8. Every run of operations of two cores, in any order, is one of the runs that the laws of two
   cores range over (`OperationsRun`).
9. What each operation does is said without saying how. `Call`, `SendItem`, `CloseSend` and
   `Grant` are accepted if and only if their guards hold, and the first that fails names the
   error (`CallExactly`, `SendItemExactly`, `CloseSendExactly`, `GrantExactly`). A message of
   any kind, decodable or not, has the one effect its kind and the state allow
   (`RequestHeard`, `ItemHeard`, `CancelHeard` and the rest). A poll yields items as long as
   handler, credit and room allow, and stops for one of six reasons, each with its frame
   (`PollLoopExactly`). A tick ends exactly the due calls and then serves every other call in
   flight, in order (`TickExactly`, `EveryHandlerIsAsked`). A drain stops only where the sink
   rejects (`DrainStops`). A transport gives each answer exactly when the socket's answers
   call for it (`SendExactly`, `TakeExactly`).
10. Between cores with agreeing registries no frame is refused for its form: a RESPONSE is told
   as a response with the body the handler answered, an ITEM as an item, an END as the end, an
   ERROR as its status, a CREDIT counts (`AnswerIsTold`), and the caller's ITEMs and END are
   taken by the call they are for (`OfferIsTaken`).

## Model

| member | source | states |
|---|---|---|
| Basics.SaturatingAdd | outbox.go:166-172 | the exact sum when it fits a word, never more than it, never less than either part |
| Basics.SortedKeysSorted | core.go:1001-1003 | the list holds each key of a table once, ascending, and nothing else |
| Layout.TakeSpell | model.go:26-61 | a field is read back, and the stream behind it left alone, if and only if its value is spellable |
| Layout.ReadBack | ctx.go:57-82 | forward compatibility for any layout: appended bytes change nothing |
| Layout.ReadBackExactly | ctx.go:45-82 | the values that survive writing and reading are exactly those whose strings are UTF-8 and whose lengths fit a word |
| Layout.CutBetween | ctx.go:57-82 | a stream cut between fields yields the fields before the cut and zeros |
| Layout.CutInside | ctx.go:57-82 | a stream cut inside a field is an error, whichever field |
| BodyIO.BodyReader.ReadU32 | model.go:26-36 | takes one word off the stream, or reports its absence or its cut |
| BodyIO.BodyReader.ReadBytes | model.go:38-50 | takes one length-prefixed field off the stream |
| BodyIO.BodyReader.ReadString | model.go:52-61 | takes one length-prefixed field off the stream, and refuses what is not UTF-8 |
| BodyIO.BodyWriter.PutU32 | model.go:71-74 | appends the spelling of a word |
| BodyIO.BodyWriter.PutBytes | model.go:76-80 | appends the spelling of a byte string, its length cut to 32 bits |
| CtxCodec.Encode | ctx.go:45-55 | writes the spelling of the seven fields in order |
| CtxCodec.DecodeCtx | ctx.go:57-82 | decodes every byte string to what the layout says it means, or refuses it |
| CtxCodec.CtxRoundTrip | ctx.go:45-82 | decoding inverts encoding, appended bytes ignored, on exactly the spellable ctx values |
| CtxCodec.CtxCut | ctx.go:57-82 | a block cut at a boundary zeroes the rest, a block cut inside a field is refused |
| Generated.Reader.take | examples/demo/generated/runtime.go:451-459 | the next bytes, or the cursor where it was |
| Generated.Reader.takeChecked | examples/demo/generated/runtime.go:438-445 | the next bytes, or the cursor back at the start of the field |
| Generated.Reader.ReadU32 | examples/demo/generated/runtime.go:333-339 | a word as the layout reads it |
| Generated.Reader.readLength | examples/demo/generated/runtime.go:425-436 | a length within the guard, or the cursor where it was |
| Generated.Reader.ReadBytes | examples/demo/generated/runtime.go:401-415 | a byte string as the layout reads it, unless its length exceeds the guard |
| Generated.Reader.ReadString | examples/demo/generated/runtime.go:381-398 | a string as the layout reads it, unless its length exceeds the guard |
| Generated.Reader.FieldAbsent | examples/demo/generated/runtime.go:267-269 | true exactly when nothing is left |
| Generated.Writer.WriteU32 | examples/demo/generated/runtime.go:164-168 | appends the spelling of a word |
| Generated.Writer.WriteBytes | examples/demo/generated/runtime.go:204-207 | appends the spelling of a byte string |
| Generated.EncodeModel | examples/demo/generated/frpc_ctx_rpc.go:40-48 | the generated encoder writes byte for byte what the hand-written one does |
| Generated.KeepsMeans | examples/demo/generated/runtime.go:76-90 | with guards that are not negative, keeping within them is a condition on the decoded values alone |
| Generated.DecodeModel | examples/demo/generated/frpc_ctx_rpc.go:58-118 | under any guards: the generated decoder, which never stops early, accepts exactly the blocks that mean something and whose present lengths keep within the guards, and yields what they mean |
| Generated.DecodersAgree | examples/demo/generated/frpc_ctx_rpc.go:58-118 | under the default guards both decoders, run on one block, give one answer |
| Wire.EncodeFrame | wire.go:91-111 | the buffer built step by step is the encoding, of the announced length |
| Wire.EncodedHead | wire.go:89-115 | kind bits and call id can be read off an encoded frame without decoding it |
| Wire.ByteExamples | wire_test.go:13-35 | the frames that the tests spell out byte for byte, and the first byte of each kind |
| Wire.DecodeEncode | wire.go:91-154 | a sendable frame decodes to its own parts |
| Wire.RoundTripExactly | wire.go:91-154 | the frames that decode to their own parts are exactly the sendable ones |
| Wire.EncodeDecode | wire.go:117-154 | each accepted payload has one spelling: re-encoding gives it back |
| CallIds.CallIDAllocator.constructor | call.go:24-30 | a client starts at 0, a server at 1 |
| CallIds.CallIDAllocator.Allocate | call.go:34-43 | a free id of the own parity, the one the probe of the value model finds, or none exactly when all are taken |
| CallIds.ProbeFindsFirst | call.go:34-43 | the id found is free and every id probed before it was taken |
| CallIds.AllocateComplete | call.go:12-43 | a free id of the own parity within taken + 1 probes through wrap-around; none exactly when all 2^31 are taken |
| OutboxModel.InLineMeans | outbox.go:27-35 | the structural invariant: turns duplicate-free, exactly the non-empty queues, total the sum of their lengths |
| OutboxModel.AppendKeepsValid | outbox.go:102-109 | queueing keeps it |
| OutboxModel.DiscardKeepsValid | outbox.go:79-85 | discarding a call keeps it, wherever the call stands in line |
| OutboxModel.DrainKeepsValid | outbox.go:94-164 | draining keeps it, whatever the sink answers |
| OutboxObject.Outbox.constructor | outbox.go:37-45 | an empty, valid outbox |
| OutboxObject.Outbox.append | outbox.go:102-109 | the new value: the frame behind its queue, the call in line if it was not |
| OutboxObject.Outbox.Push | outbox.go:71-77 | enters exactly when there is room, and both ceilings then hold |
| OutboxObject.Outbox.PushTerminal | outbox.go:69 | enters always |
| OutboxObject.Outbox.Discard | outbox.go:79-85 | queue, credit and turn of the call are gone, the others untouched |
| OutboxObject.Outbox.Grant | outbox.go:56-59 | credit adds up, saturating |
| OutboxObject.Outbox.Clear | outbox.go:87-92 | empties everything |
| OutboxObject.Outbox.serve | outbox.go:122-131 | one turn sends exactly the prefix that quantum, queue and sink allow |
| OutboxObject.Outbox.rotate | outbox.go:117-139 | the call served goes to the back or out |
| OutboxObject.Outbox.drainFrames | outbox.go:116-141 | terminates for a positive quantum and equals the recursive drain |
| OutboxObject.Outbox.drainCredits | outbox.go:143-164 | sends the ready credits in id order until the sink rejects |
| OutboxObject.Outbox.Drain | outbox.go:94-100 | credits, frames, credits; stops at the first rejection |
| OutboxRefinement.TurnRefines | outbox.go:117-139 | a turn moves a prefix of one queue and leaves the others alone |
| OutboxRefinement.DrainFramesRefines | outbox.go:116-141 | for every sink, accepted then remaining is the queue from before |
| OutboxRefinement.DrainFramesEmpties | outbox.go:116-141 | without a rejection nothing is left |
| OutboxRefinement.DrainStops | outbox.go:94-164 | every stage of a drain sends exactly what the sink accepts and stops only at a rejection, otherwise leaving no ready credit and no frame; only a rejection in the first stage ends the drain |
| OutboxRefinement.DrainRefines | outbox.go:94-164 | the whole drain, per call: a prefix of its queue and its credit at most once, never ahead of a REQUEST that heads the queue |
| Scheduler.ServeBound | outbox.go:119-131 | a served prefix overshoots its quantum by less than one frame |
| Scheduler.TurnBound | outbox.go:116-141 | a turn sends at most quantum - 1 + the largest frame |
| Scheduler.RankStep | outbox.go:69-141 | a turn moves each waiting call up by one; queueing, granting and telling credit move it not at all, discards only up |
| Scheduler.WaitingTurns | outbox.go:116-141 | across any drains, rejected or not, a call at place p waits at most p turns, exactly as many as it moved up when nothing is discarded |
| Scheduler.WaitingBound | outbox.go:94-164 | hence at most p times that many bytes go out ahead of it, beside the CREDITs told, 9 bytes each, which are no more than those waiting at first and those granted since |
| Scheduler.FrontIsOffered | outbox.go:116-131 | the front call's oldest frame is offered next, and stays if rejected |
| Scheduler.DrainIsTurns | outbox.go:116-141 | the frames of a drain go out in a run of such turns |
| Scheduler.DrainIsStages | outbox.go:94-100 | a whole drain is credits, turns, credits, and the first credits alone when one of them is rejected |
| Scheduler.CreditsGoFirst | outbox.go:94-164 | if a credit is ready, a drain offers a CREDIT of 9 bytes first and takes no turn when it is rejected; if none is, the drain begins with the turns |
| Scheduler.CreditGoesAhead | outbox.go:94-164 | a valid outbox in which a call is first in line, and a CREDIT of another call goes out ahead of it |
| Session.Config.Normalized | core.go:41-71 | every ceiling and the quantum are positive, the body ceiling bounded, and a setting that already is so is kept |
| Session.StatusExactly | status.go:101-112 | what an ERROR's body means, whatever it is |
| Session.StatusRoundTrip | status.go:97-112 | a status arrives as sent when its text is UTF-8 that fits |
| Session.CreditRoundTrip | core.go:979-985 | a credit arrives as sent |
| Session.Earlier | core.go:987-995 | the nearer of two instants, zero standing for none |
| Session.BodyFrameKind | core.go:885-904 | compression touches neither kind nor address |
| CoreModel.UnwindingReverses | interceptor.go:101-105 | an unwinding visits exactly the entered prefix, last link first |
| CoreModel.InstallViews | core.go:179-192 | a step of one call changes that call's view as stated and no other |
| CoreModel.BoxStaysSound | core.go:194-204 | in every reachable state the outbox is valid and the ceilings are the configured ones |
| Histories.EveryStepMoves | core.go:407-485 | each step is, for each call, nothing, a step of its own, its share of a drain, or the session's end |
| Completion.ExactlyOnce | core.go:729-766 | opened as often as ended, plus one if pending; outcomes only of open calls |
| Completion.ParitySeparation | core.go:487-579 | pending holds own ids only, inflight the peer's only, so they are disjoint |
| Completion.LinksConserved | core.go:757-879 | per link: entries are unwindings plus the live calls inside it |
| Observed.ChainDoesAsTraced | interceptor.go:83-105 | the chain was entered and unwound exactly as the trace says, in that order, link by link |
| Observed.OutcomesAreTold | core.go:481-485 | the outcomes that wait are the last that were told |
| Grammar.CallerGrammar | core.go:264-405 | accepted frames of an own call: REQUEST, ITEM*, END?, CREDITs behind the REQUEST, one CANCEL at most and last, provided that no older frame of its id was queued at its opening |
| Grammar.AbandonedExactly | core.go:749-755 | for every reachable state: abandoning leaves nothing queued if and only if the REQUEST heads the queue, else one CANCEL; before the REQUEST is accepted, that CANCEL breaks the order exactly when the REQUEST does not head the queue |
| Grammar.AbandonedQuietly | core.go:749-755 | provided that no older frame of its id was queued at its opening: an abandoned call whose REQUEST has not been accepted emits nothing, any other exactly one CANCEL |
| CleanIds.CleanAlways | core.go:264-335 | an id opened once had nothing queued when it was opened, if before that no REQUEST was heard under it and nothing that does not decode or inflate |
| CleanIds.GrammarOnce | core.go:264-405 | so of every such id the order of `CallerGrammar` and the silence of `AbandonedQuietly` hold without a condition on queues |
| Incarnations.EachIdOnce | call.go:34-43 | no id is opened twice within the first 2^31 probes of a core, through wrap-around and whatever ids are taken |
| Grammar.FirstInFirstOut | outbox.go:102-141 | over every run a queue is what was queued, less what was sent or dropped, and only its oldest frame is sent |
| Overtaking.ObligingDrain | outbox.go:94-164 | into a sink that accepts all, a drain sends the whole queue, the credit behind it if it opens with a REQUEST and ahead of it otherwise |
| Overtaking.CreditOvertakesExactly | outbox.go:143-164 | a credit leaves ahead of the queue if and only if the queue does not open with the REQUEST |
| Collision.CreditCanOvertake | core.go:487-491 | a failing run of operations, for any client: `OnReady`, `OnMessage` on the bytes of a REQUEST under id 0, `Call`, `Grant`, `Drain`; a CREDIT leaves ahead of the REQUEST of its call |
| Collision.CancelCanMislead | core.go:749-755 | on the same run, `CancelCall` instead of `Grant` throws away the REQUEST and sends a CANCEL alone |
| Answers.CalleeGrammar | core.go:778-883 | an admitted request gets ITEM* and one RESPONSE, END or ERROR as its shape permits, an ERROR only once queue and credit are dropped, unless the session ends first |
| CoreObject.Chain.Pass | interceptor.go:83-99 | how far a call got, and the first rejection; the chain notes the prefix entered |
| CoreObject.Chain.Outbound | interceptor.go:101-105 | the chain notes the entered prefix visited in reverse |
| CoreObject.Core.constructor | core.go:194-204 | a fresh core is in the initial state |
| CoreObject.Core.OnReady | core.go:262 | ready, whatever was before |
| CoreObject.Core.AddInterceptor | core.go:226 | the chain is one link longer, calls under way keep their prefix |
| CoreObject.Core.Call | core.go:264-335 | the whole operation, of which `CallEffects.CallExactly` and `CallRefused` say what it comes to |
| CoreObject.Core.SendItem | core.go:337-361 | the whole operation, of which `CallEffects.SendItemExactly` says what it comes to |
| CoreObject.Core.CloseSend | core.go:363-379 | the whole operation, of which `CallEffects.CloseSendExactly` says what it comes to |
| CoreObject.Core.Grant | core.go:381-399 | the whole operation, of which `CallEffects.GrantExactly` says what it comes to |
| CoreObject.Core.CancelCall | core.go:401-405 | the whole operation, of which `CallEffects.CancelExactly` says what it comes to |
| CoreObject.Core.OnMessage | core.go:407-449 | every message, plain, undecodable, early or live, is handled as the value model says, of which the laws of `MessageEffects` say what it comes to, kind by kind |
| CoreObject.Core.Tick | core.go:451-457 | expiry, then polling in id order, of which `TickEffects.TickExactly` says what it comes to |
| CoreObject.Core.Drain | core.go:459 | what the sink accepted is what the trace gains |
| CoreObject.Core.OnSessionEnd | core.go:461-479 | settles, leaves, clears |
| CoreObject.Core.TakeOutcomes | core.go:481-485 | hands over all outcomes once |
| CoreObject.Core.settlePending | core.go:757-766 | table, outbox, chain and outcomes after a settlement |
| CoreObject.Core.abandonPending | core.go:749-755 | table, outbox, chain and outcomes after a settlement, and a CANCEL unless the REQUEST was still queued |
| CoreObject.Core.finishInflight | core.go:871-879 | table, outbox and chain after an error; the ERROR enters past the ceilings |
| CoreObject.Core.failReceived | core.go:768-776 | whichever table holds the call decides |
| CoreObject.Core.pollOne | core.go:778-846 | terminates for every handler, one that yields for ever included |
| CoreObject.Core.yieldItem | core.go:820-824 | the result of `Push` that the source ignores is always true |
| CoreObject.Core.collectGrant | core.go:848-869 | the handler's grant is queued, or its failure ends the call |
| CoreObject.Core.onRequest | core.go:487-579 | every refusal and the admission |
| CoreObject.Core.onResponse | core.go:581-592 | settles or fails the call by its shape |
| CoreObject.Core.onError | core.go:594-603 | settles with the decoded status |
| CoreObject.Core.onItem | core.go:605-620 | tells the owner, or goes to the callee's side |
| CoreObject.Core.onCallerItem | core.go:622-642 | delivers, or ends the call |
| CoreObject.Core.onEnd | core.go:644-681 | ends the caller's or the callee's stream |
| CoreObject.Core.onCancel | core.go:683-695 | what a CANCEL does, of which `MessageEffects.CancelHeard` says what it comes to |
| CoreObject.Core.onCredit | core.go:697-720 | adds credit, saturating, on whichever side the call is |
| CoreObject.Core.expirePending | core.go:729-736 | the loop abandons exactly the due calls |
| CoreObject.Core.expireInflight | core.go:738-747 | the loop finishes exactly the due calls |
| CoreObject.Core.NextDeadline | core.go:242-251 | the minimum over both tables, whatever order they are walked in |
| CoreObject.Core.HasRunnableWork | core.go:253-260 | true exactly when some call could be polled for more |
| CoreObject.Core.PlanWait | rpcnet/session.go:46-56 | the plan made of those two and the outbox |
| Effects.BodyFrameSays | core.go:885-904 | a body frame bears its kind, call, id and body, squeezed exactly when that makes it shorter |
| Effects.FinishDone | core.go:871-879 | a running call that fails: out of the table, queue and credit thrown away, exactly one ERROR with that status queued, links unwound, no other call touched |
| Effects.AbandonDone | core.go:749-766 | a call given up: out of the table, owner told, links unwound, one CANCEL left unless the REQUEST heads the queue, no other call touched |
| CallEffects.PassExactly | interceptor.go:83-99 | a chain lets pass exactly what every link does; else the first to reject gives the status, and those before it are entered |
| CallEffects.CallRefused | core.go:264-280 | the four refusals before an id is allocated, in order, and that nothing happens |
| CallEffects.CallExactly | core.go:264-335 | gives up for want of an id exactly when all own ids wait; else takes the first free one and is accepted if and only if all links pass, the ctx fits and there is room; accepted, the record bears the ids, shape and deadline of method and ctx, and the REQUEST its body and a ctx that means what the chain made of it; refused, the first failing guard names the error and the links entered are unwound |
| CallEffects.SendItemExactly | core.go:337-361 | accepted if and only if the call waits, streams, is not closed, has credit or none was given, the body fits and there is room; each failing guard names its error; the ITEM queued and the credit left |
| CallEffects.CloseSendExactly | core.go:363-379 | accepted if and only if the call waits, streams, is not closed and there is room; each failing guard names its error; the END queued |
| CallEffects.GrantExactly | core.go:381-399 | accepted if and only if credit is supported and the live call has a stream that runs this way; each failing guard names its error; the credit that then waits |
| CallEffects.CancelExactly | core.go:401-405 | a waiting call is given up as cancelled, any other is left alone |
| PollEffects.CollectExactly | core.go:848-869 | when the handler is asked for credit, and what its grant or panic comes to |
| PollEffects.PollLoopExactly | core.go:778-846 | the items are the handler's next answers, as long as credit and room allow; then no room, a spent allowance or Pending leaves the call, and Respond, End, Fail or a wrong answer ends it with the frame that is due |
| PollEffects.PollExactly | core.go:778-869 | credit is collected, then the call, if it is still there, is polled |
| MessageEffects.OtherMessages | core.go:407-423 | what is plain, undecodable or early does: nothing, or, if it names a call, fails it as internal |
| MessageEffects.ConsumedExactly | core.go:407-410 | a message is left to others if and only if it is plain |
| MessageEffects.UnreadableHeard | core.go:425-432 | a body that does not inflate fails the call under whose id it came |
| MessageEffects.RequestHeard | core.go:487-579 | every refusal in order, with its status and the links unwound; else the record admitted, field by field, and the call served |
| MessageEffects.ResponseHeard | core.go:581-592 | ends a waiting call, well exactly if it is the reply of a call that carries one |
| MessageEffects.ErrorHeard | core.go:594-603 | ends a waiting call with the status it carries |
| MessageEffects.ItemHeard | core.go:605-642 | delivered and served, refused, only noted, told or given up, each exactly when |
| MessageEffects.EndHeard | core.go:644-681 | closes and serves, refused, only noted, ends well or gives up, each exactly when |
| MessageEffects.CancelHeard | core.go:683-695 | a running call fails as cancelled, or as invalid if it is not the void message; nothing otherwise |
| MessageEffects.CreditHeard | core.go:697-720 | credit added, saturating, and counting from then on; any other message ends the call as invalid |
| MessageEffects.CreditFrameGrants | outbox.go:143-164 | the CREDIT that a drain makes grants what waited, under its id |
| TickEffects.TickExactly | core.go:451-457 | due calls end with DEADLINE_EXCEEDED, owners told in id order, no other call touched; then exactly the running calls not due are served, in id order |
| TickEffects.EveryHandlerIsAsked | core.go:451-457 | a call in flight before and after a tick had no room at its turn, or has spent its allowance, or its handler was asked in this tick and answered Pending at last |
| Chains.SaneAlways | core.go:179-192 | what every operation may rely on holds in every reachable state |
| Lawful.CallLawful | core.go:264-335 | the operation is a chain of enabled steps that answers nothing |
| Lawful.SendItemLawful | core.go:337-361 | sending an item is at most one enabled step: it never spends credit that is not there, nor sends after closing |
| Lawful.CloseSendLawful | core.go:363-379 | closing is at most one enabled step: never twice, never of a call that does not stream |
| Lawful.GrantLawful | core.go:381-399 | granting is at most one enabled step: only to a live stream that runs this way |
| Lawful.CancelLawful | core.go:401-405 | cancelling is at most one enabled step |
| Lawful.PollLawful | core.go:778-846 | polling is a chain of enabled steps for every handler: no item is yielded without room and credit |
| Lawful.TickLawful | core.go:451-457 | a whole tick is a chain of enabled steps that answers no message |
| Lawful.OnMessageLawful | core.go:407-449 | a chain of enabled steps that hears exactly the decoded message, once |
| Lawful.SessionEnds | core.go:461-479 | every pending call is settled once as unavailable, and every live call unwound, in id order, nothing stays, and a second end does nothing |
| Lawful.SilentUnlessUndecodable | core.go:407-423 | once no call is live and the core is not ready, a message queues something if and only if it is of this protocol, names a call and does not decode |
| Flows.FlowingAlways | core.go:605-846 | the single-core halves of the laws below, for every call of every run |
| Uploads.UploadingAlways | core.go:337-379 | the single-core halves of the laws of responses and of the caller's stream, for every call of every run |
| Naming.NamingAlways | core.go:320-333 | in every reachable state the frames and the record of a call made, or admitted, once bear the ids and the shape of the method its REQUEST names |
| Traces.ChainTrace | core.go:407-449 | the trace shows what a chain of steps heard, each message once, and that nothing was sent unless a step was a drain |
| Traces.CallShare | core.go:459 | a call's ledger holds exactly the frames under its id among all that the core sent and heard |
| Delivery.DeliveryMoves | core.go:407-449 | handing a core the bytes of the oldest frame under way makes it hear that frame, once, and sends nothing |
| Delivery.SinkMoves | core.go:459 | what a sink accepts is what gets under way |
| Delivery.OperationMoves | core.go:226-485 | every operation of a core is a move of the two-core system; all but drains and deliveries leave both links alone |
| Delivery.OperationsRun | core.go:226-485 | every run of operations of two cores, in any order, is a run of the two-core system |
| Duplex.SoundAlways | core.go:407-459 | in every interleaving both cores stay in runs of their own, and the links lose, repeat and reorder nothing |
| Duplex.CausalAlways | core.go:487-579 | neither side hears of a call before it is opened |
| DuplexLaws.NeverMoreThanAsked | core.go:487-579 | a call is admitted at most as often as it was opened |
| DuplexLaws.InitialIsOffered | core.go:508-576 | the credit a callee starts from is the one that a REQUEST sent by the caller carries, as received |
| DuplexLaws.CreditConserved | core.go:697-826 | ITEMs ever yielded are at most the initial credit and all that was granted |
| DuplexLaws.StreamInOrder | core.go:605-846 | told, under way, queued: together all that was yielded, in order |
| DuplexLaws.ToldIsYielded | core.go:605-846 | a waiting caller was told a first part of what was yielded, whatever became of the callee |
| DuplexLaws.EndMeansAll | core.go:644-681 | told of the end, the owner was told exactly what was yielded |
| UploadLaws.ResponseIntact | core.go:581-592 | an owner told of a response: the handler answered once, with exactly that body |
| UploadLaws.UploadInOrder | core.go:337-642 | while both sides are live and the caller's stream is open: given, under way, queued are together all that was offered, in order |
| UploadLaws.GivenIsOffered | core.go:622-642 | whatever becomes of either side, the handler was given a first part of what was offered |
| UploadLaws.CloseMeansAll | core.go:644-681 | told of the end of the caller's stream, the handler had been given exactly what was offered |
| UploadLaws.UploadPaid | core.go:337-399 | once credit has reached the caller, it has offered no more than what it had offered by then and all that the callee granted |
| AnswersTold.OneMethod | core.go:264-579 | in every run of two cores with agreeing registries, both sides take a call made once for a call of one and the same method |
| AnswersTold.AnswerIsTold | core.go:581-720 | what the callee sends is told as what it is: a RESPONSE as a response with the body its handler answered, an ITEM as an item, an END as the end, an ERROR as its status, and a CREDIT counts |
| AnswersTold.OfferIsTaken | core.go:622-681 | the caller's ITEMs and END are taken as such by the call they are for |
| Conforming.MadeOnce | call.go:34-43 | in every run of two cores a call is made once while its core has probed at most 2^31 ids |
| Conforming.OrderKept | core.go:264-405 | in every run of two cores, every call made once keeps the caller's frame order, and abandoning it before its REQUEST is accepted emits nothing |
| Deadlines.TickClears | core.go:451-457 | after a tick no live call has an expiry that is due, and no expiry has moved |
| Deadlines.NearestAfterTick | core.go:242-251 | the nearest deadline is unique and, after a tick, ahead |
| Deadlines.PlanInAnyState | rpcnet/session.go:46-56 | in any state: the planned wait is zero if and only if a call is due, ends no later than any expiry ahead, and is cut short only by work, the cap or the nearest expiry |
| Deadlines.PlanWakesInTime | rpcnet/session.go:46-56 | planned right after a tick, the wait is positive and ends no later than the first expiry |
| Deadlines.HopKeepsBudget | interceptor.go:37-59 | sent onward plus spent fits what was received, bounded stays bounded, and refusal comes exactly below one millisecond |
| Deadlines.HopExactly | interceptor.go:37-59 | what a hop sends onward, field by field, bounded or not, and when it refuses |
| Deadlines.HopsKeepBudget | interceptor.go:37-59 | over any number of hops: what is sent on plus all that was spent fits the first budget, and bounded stays bounded |
| Transport.PushConserves | rpcnet/transport.go:132-149 | pushing loses, adds and reorders no byte, even when it fails |
| Transport.PushExactly | rpcnet/transport.go:132-149 | write by write: a push stops only when nothing is left, the socket takes nothing, or at an error, and fails exactly at one that is not would-block |
| Transport.SendExactly | rpcnet/transport.go:59-87 | when `Send` answers OK, Pending and Error, each if and only if, in terms of the socket's answers; what is written and what is held back |
| Transport.TakesAll | rpcnet/transport.go:59-87 | a socket that takes what it is offered gets OK for every frame, whatever was refused before |
| Transport.TakeExactly | rpcnet/transport.go:89-110 | when `Receive` gives which answer, each if and only if |
| Transport.SendConserves | rpcnet/transport.go:59-87 | OK: all of the frame is on its way; Pending: no byte of it; failure: the wire holds a prefix |
| Transport.TakeConserves | rpcnet/transport.go:89-110 | receiving neither loses nor adds a byte of what is being sent, closes the transport exactly when it answers neither OK nor Pending, and OK means that something was read |
| Transport.RunConserves | rpcnet/transport.go:59-149 | over every run of sending, receiving and pushing and every socket: wire and backlog are exactly the frames answered OK |
| Transport.SocketTransport.pushBacklog | rpcnet/transport.go:132-149 | the loop terminates and equals the value model |
| Transport.SocketTransport.Send | rpcnet/transport.go:59-87 | the method equals the value model of which `SendExactly` says when it gives which answer and `SendConserves` what that means; a refusal leaves it backlogged |
| Transport.SocketTransport.Receive | rpcnet/transport.go:89-110 | wire and backlog are together what they were, whatever was read; with `TakeConserves` for what the answer means |
| Handshake.FindAt | examples/demo/generated/handshake.go:435-449 | in a sorted table each message is found under its id |
| Handshake.MessageByID | examples/demo/generated/handshake.go:435-449 | binary search finds what walking the table finds |
| Handshake.PrefixTest | examples/demo/generated/handshake.go:454-497 | with the extra round the verdict is favourable if and only if one field list is a prefix of the other |
| Handshake.UnknownMatches | examples/demo/generated/handshake.go:469-473 | an undeclared message is never held against the peer |
| Handshake.HandshakeCompare | examples/demo/generated/handshake.go:502-523 | the loop computes a verdict on the set of entries, so their order cannot matter |
| Handshake.AcceptsExactly | examples/demo/generated/handshake.go:454-523 | all messages are accepted if and only if every message both declare is compatible |
| Handshake.VerdictMeans | examples/demo/generated/handshake.go:502-523 | for differing schema fingerprints: refused means that some message is unacceptable, outdated that none is, and otherwise the extra round decides |
| Handshake.CurrentMeans | examples/demo/generated/handshake.go:502-505 | for equal schema fingerprints: all messages are accepted, provided that the peers show equal entries |
| Handshake.ConcludedExactly | examples/demo/generated/handshake.go:454-523 | verdict and extra round succeed if and only if every message both declare is compatible |
| Handshake.BothAgree | examples/demo/generated/handshake.go:454-523 | both peers come to the same end |

## Left out

- Grammar.CallerGrammar: asks that no older frame of the id was queued at its opening; `CreditCanOvertake` shows that it must, `GrammarOnce` and `OrderKept` where this is granted.
- Grammar.AbandonedQuietly: asks the same; `CancelCanMislead` shows that it must, and `AbandonedExactly` asks nothing.
- DuplexLaws.StreamInOrder: speaks of ids that were opened once, as all are during the first 2^31 probes of a core (`MadeOnce`); frames carry no mark by which a later call under the same id could be told from an earlier one.
- DuplexLaws.ToldIsYielded: speaks of ids that were opened once, likewise.
- DuplexLaws.EndMeansAll: speaks of ids that were opened once, likewise.
- DuplexLaws.CreditConserved: speaks of ids that were opened once, likewise.
- UploadLaws.ResponseIntact: speaks of ids that were opened once, likewise.
- UploadLaws.UploadInOrder: speaks of ids that were opened once, likewise.
- UploadLaws.GivenIsOffered: speaks of ids that were opened once, likewise; an item that the handler refuses ends the call and is not counted as given.
- UploadLaws.CloseMeansAll: speaks of ids that were opened once, likewise.
- UploadLaws.UploadPaid: speaks of ids that were opened once, likewise.
- Conforming.OrderKept: speaks of ids that were opened once, likewise.
- AnswersTold.AnswerIsTold: speaks of ids that were opened once, likewise, and of bodies that the receiver can inflate within its ceiling.
- AnswersTold.OfferIsTaken: the same.
- Handshake.ConcludedExactly: assumes that peers with equal schema fingerprints show equal entries, and that no two prefixes in play share a fingerprint.
- Duplex.SoundAlways: the links are lossless; a lost connection is the end of the session.
- Delivery.OperationsRun: the two registries agree, so that what one side sends is of the protocol for the other.
- Deadlines.HopsKeepBudget: the interceptors of the hops pass the ctx through unchanged.
- CoreObject.Core.OnSessionEnd: the two flags are raised last instead of first; nothing looks at them in between.
- Lawful.SilentUnlessUndecodable: says nothing of a core made ready again after its end, which `OnReady` allows.
- The records in the two tables are values in maps that are replaced, not pointers that are shared; nothing else in the core holds such a pointer.
- Handlers and interceptors are scripts: every behaviour they can show is some script, panics included, but what they are told (bodies, contexts, `Cancel`) is not recorded, and they do not call back into the core.
- DEFLATE (RFC 1951) is an abstract pair of functions; only the laws of two cores assume that inflating undoes squeezing.
- SHA-256 and the idempotency key, identities and authorization, retry safety and the registry builder: decisions of single branches or facts about sets.
- `SetCompressor` and `Authenticate` in the middle of a run.
- Message texts of statuses, `String`, `Describe` and the other formatting.
- Instants and durations are integers of nanoseconds, with 0 for the zero value.
- Sockets, goroutines, `poll(2)`, the client and server of `rpcnet`, commands and demos.
- The fomoxa-go connection under `rpcnet` is not part of this model.
