# Verified models of Wire's audio-video signalling core

Dafny models of four parts of Wire's AVS library, with proofs of what they guarantee.
Each part that the library keeps as a mutable object is a class here, and each of its
methods is proved equal to a function on values. The theorems are about those functions,
over every sequence of events.

**Call signalling** (`Text`, `Econn`, `EconnObject`, `EconnRuns`, `SetupGlare`,
`SetupProgress`, `UpdateGlare`, `Teardown`, `Ecall`, `EcallObject`, `EcallRuns`,
`EcallGather`, `EcallCalls`). A connection is a state machine over SETUP, UPDATE, CANCEL and
HANGUP with one timer, locked to one remote device. When both users call or update at once ("glare"), a total order on
their identities decides. Two-peer systems are modelled with the messages in flight: a set
of everything ever sent for a network that loses, duplicates and reorders, a multiset for
one that only reorders, and queues, for update negotiations, for one that does neither. The
entry points of both objects also keep an invariant: a connection's timer runs exactly in
its waiting states, and a call goes on soundly from one state to the next.

**Data channels** (`DceCodec`, `Dce`, `DceTables`, `DceSlots`, `DceObject`, `DceHandshake`,
`DceCompletes`, `DceClosing`, `DceLifetime`). Ten channel slots and ten SCTP streams with
two reverse indexes, a buffer of pending resets, deferred sends, the open handshake of
RFC 8832 and the closing by stream resets of section 6.7 of RFC 8831: each end by itself,
opening at both ends, closing at both ends, and opening and closing interleaved. What the
SCTP stack answers to a send, a reset request or a status query is a parameter.

**Time scaling** (`TimeScale`, `TimeScaleObject`, `AudioEffects`, `AudioEffectsObject`). A
ring of 2^14 samples out of which pitch periods are cut and into which they are repeated.
The view of the ring is a tape that starts at the read index, so wrap-around disappears
from the specification. Crossfades are computed over the reals and truncated towards zero.
The normalised correlation of each lag is a parameter.

**Flow-manager collections** (`Dict`, `Flows`, `ListSort`, `ConfPos`). The bucketed string
dictionary, the searches over it, and the order of conference participants. `Wrappers` holds
the option type they share with the rest.

## What turned out not to hold

These follow the code. Each has a lemma with the failing case and the exact condition.

- A client id of 32 characters or more is cut when stored and then never matches its own
  sender. Such a device shuts itself out, and a crossed call against one that loses the
  tie-break never connects (`EconnRuns.LongIdShutsItselfOut`,
  `SetupProgress.GlareResolvesIffLoserFits`).
- A call that is marked outgoing but not yet started has no timer, also while it resolves
  a lost glare (`EconnRuns.PreparedGlareIsUntimed`).
- An update request leaves TERMINATING; only its callers prevent it
  (`EconnRuns.TerminatingIsAbsorbing`, `EcallRuns.LifeOfACall`).
- A hangup is not heard by a peer that is still ANSWERED or in an update: it stays there
  while the other side ends (`Teardown.HangupReachesIff`). A cancel does not stop the ringing
  if the caller's client id is too long (`Teardown.CancelStopsRingingIff`).
- A restart checks that the call is ANSWERED or DATACHAN_ESTABLISHED, but an offer that has
  to be gathered for is sent when gathering ends, with no check but for TERMINATING. So a
  late gather undoes a hangup or overrides the peer's pending update
  (`EcallGather.LateGatherUndoesHangup`, `EcallGather.LateGatherOverridesUpdate`). It is the
  only way (`EcallGather.UpdatesInPlaceIffNeverLate`). Overriding an update is harmless if
  the late peer wins the tie-break. If it loses it, both peers are left waiting for an
  update answer that nobody owes (`UpdateGlare.OutOfPlaceRequestStrands`,
  `UpdateGlare.LateRequestSafeIffWinner`).
- A data-channel open request whose send fails for good frees the slot but leaves its
  incoming stream and index entry behind (`DceTables.OpenIn`,
  `DceTables.FailedOpenMisleads`).
- A channel that the peer opens on stream 0, by a request or by acknowledging one that still
  waits for a stream, is open without a stream (`DceTables.AcceptIn`, `DceTables.AckIn`).
- A channel opened when no stream is available is given its outgoing stream later, but not
  the incoming one. The acknowledgement then finds no channel, and it never opens
  (`DceTables.LateStreamIsDeaf`, `DceTables.DeafOpensIff`, `DceTables.DeafAlong`).
- A stream whose own direction has been reset looks free while the peer's direction still
  leads to the closing slot. Choosing it then leaks that slot for good
  (`DceLifetime.EarlyReuseLeaks`, `DceClosing.OpenLeaksIff`, `DceClosing.LeakAlong`).
- A slot that is used again keeps the end of a longer earlier label or protocol, so the two
  ends of a channel can hold different texts (`DceLifetime.TextsAgreeIff`).
- A request on a stream used before is lost if it overtakes the news that the peer's own
  reset of the stream was performed (`DceLifetime.RequestTakenIff`).
- The order of conference participants depends on the order of joining when two hashes
  collide (`ConfPos.HistoryFreeIffCollisionFree`).

## Assumptions

- A send hands its message to the transport or fails. It does not run the receiver, and
  application callbacks are the last thing an operation does, so a callback's reaction is a
  later step.
- libre's timer is a one-shot flag that remembers its handler. Allocation succeeds unless
  an operation's contract has a parameter for its failure.
- Messages arrive on stream ids below 10, and an association that is up reports at least one
  outgoing stream. `DceTables.ClosedExactlyWhenStreamless` is for runs in which no open
  request fails for good and the peer opens nothing on stream 0, which is exactly what each
  step needs (`DceTables.InStep`).
- The update-glare results are for peers that request updates when ANSWERED or
  DATACHAN_ESTABLISHED; the winner of the tie-break also when it owes an answer. A call
  keeps to the first two states if and only if no gathering ends late.
- The handshake results are for runs without stream resets in which no send fails for good,
  the closing results for runs that start where such a run has come to rest and open nothing.
  A reset is heard of by the peer before its own end hears that it was performed.
- The lifetime results let channels be opened, used, closed and opened again in any order.
  They assume that every message is taken at once; that a stream keeps its order, its reset
  included, and that the news of a performed reset comes before what the peer sends on the
  stream afterwards; and that a channel is opened on a stream unused in both directions.
- Inserted samples fit: 66 ms plus an insertion are fewer than 2^14 samples. Every effect is
  proved to meet this.

## Model

| member | source | states |
|---|---|---|
| Text.StrNcpyKeeps | src/econn/econn.c:317-320 | a client id stored in its 32-byte buffer still names its sender, ignoring case, exactly if it was not cut short |
| Text.StrNcpyIs | src/econn/econn.c:317-320 | the stored copy is the longest beginning that leaves room for the terminator |
| Text.LowerCharIs | src/econn/econn.c:304-314 | ignoring case takes the 26 capital letters for their small ones and changes nothing else |
| Text.StrCmpFirst | src/econn/econn_help.c:75-88 | the first difference decides the comparison, and a proper prefix comes first |
| Text.WinnerIs | src/econn/econn_help.c:75-88 | the larger user id wins, among one user's devices the larger client id does, and nobody wins against itself |
| Text.StrCmpEqual | src/econn/econn_help.c:75-88 | the comparison behind the tie-break is zero only on equal ids |
| Text.StrCmpOpposite | src/econn/econn_help.c:75-88 | swapping the two ids turns the comparison's sign |
| Text.StrCmpTransitive | src/econn/econn_help.c:75-88 | the comparison is transitive |
| Text.WinnerTotal | src/econn/econn_help.c:75-88 | of two devices with different identities exactly one wins the tie-break |
| Text.WinnerTransitive | src/econn/econn_help.c:75-88 | winning is transitive, so the tie-break is a strict total order on (userid, clientid) |
| EconnObject.Connection.constructor | src/econn/econn.c:578-629 | a new connection is idle, unlocked, untimed and has its close handler; its timer is in order if its timeout is nonzero |
| EconnObject.Connection.SetState | src/econn/state.c:27-44 | only the state changes |
| EconnObject.Connection.Close | src/econn/econn.c:44-82 | the timer stops, an outgoing call is cancelled, and the close handler is called exactly if it was there, which it then no longer is |
| EconnObject.Connection.SendSetup | src/econn/econn.c:100-136 | one SETUP or UPDATE with the local session id is sent, or the connection is terminated |
| EconnObject.Connection.Start | src/econn/econn.c:652-691 | the whole new state, message and error code of starting a call |
| EconnObject.Connection.Answer | src/econn/econn.c:764-788 | the whole new state and message of answering, and its refusal elsewhere |
| EconnObject.Connection.UpdateReq | src/econn/econn.c:694-732 | an update request leaves any state for UPDATE_SENT, timed |
| EconnObject.Connection.UpdateResp | src/econn/econn.c:735-760 | an update answer is sent from UPDATE_RECV only |
| EconnObject.Connection.End | src/econn/econn.c:811-863 | cancel, hang up or nothing, by state, with the matching timer |
| EconnObject.Connection.Expire | src/econn/econn.c:632-642 | each of the timer's handlers closes with its own error; in a waiting state with the timer in order the close handler is called |
| EconnObject.Connection.SetDatachanEstablished | src/econn/econn.c:992-1005 | only ANSWERED becomes DATACHAN_ESTABLISHED |
| EconnObject.Connection.HandleSetupRequest | src/econn/econn.c:189-262 | an idle connection rings, a calling one resolves the glare by the tie-break |
| EconnObject.Connection.HandleSetupResponse | src/econn/econn.c:265-293 | a caller is answered, its timer stopped and the remote session taken over |
| EconnObject.Connection.RecvSetup | src/econn/econn.c:296-332 | the connection locks on to the first device and ignores every other |
| EconnObject.Connection.HandleUpdateRequest | src/econn/econn.c:335-403 | an update from the locked device is accepted, or loses the update glare |
| EconnObject.Connection.HandleUpdateResponse | src/econn/econn.c:406-440 | an update answer from the locked device ends UPDATE_SENT |
| EconnObject.Connection.RecvCancel | src/econn/econn.c:471-499 | a cancel is acted on only from the locked device, in the right state and session |
| EconnObject.Connection.RecvHangup | src/econn/econn.c:502-534 | what a hangup does in every state and session, message and callback included, is what the value model does; which hangups end the call is `Teardown.HangupEndsIff` |
| EconnObject.Connection.RecvMessage | src/econn/econn.c:537-570 | the whole new state and output of any message; the timer stays in order, and the close handler is called exactly if it is consumed |
| EconnObject.Connection.Dispatch | src/econn/econn.c:547-569 | dispatch over all kinds of message |
| EconnObject.Alloc | src/econn/econn.c:578-629 | allocation is refused for a missing user id or client id, fails without memory, and otherwise gives a fresh connection |
| EconnRuns.RunSplit | src/econn/econn.c:537-570 | a run is the run of its parts |
| EconnRuns.LockIsStable | src/econn/econn.c:296-332 | once set, the remote client id survives every further event |
| EconnRuns.LockTakesShortIds | src/econn/econn.c:296-332 | an unlocked connection locks on to a SETUP's sender if and only if the sender's client id is non-empty and shorter than 32 characters |
| EconnRuns.DeviceStep | src/econn/econn.c:443-534 | a SETUP, UPDATE or CANCEL that changes the state came from the locked device if its sender's client id is shorter than 32 characters, and any message but a SETUP carried the remote session id |
| EconnRuns.DeviceLock | src/econn/econn.c:296-534 | in every run, each SETUP, UPDATE or CANCEL that changed the state and whose sender's client id has 1 to 31 characters came from the one device the connection ends up locked to, and each UPDATE, CANCEL or HANGUP carried the remote session id |
| EconnRuns.LongIdShutsItselfOut | src/econn/econn.c:304-320 | where the lock fails: a device whose id does not fit is ignored for good after its own first SETUP |
| EconnRuns.TimerExactStep | src/econn/econn.c:632-863 | every event with successful sends keeps the timer running exactly in the waiting states |
| EconnRuns.TimerExactAlong | src/econn/econn.c:632-863 | the same over every run |
| EconnRuns.TimerDiscipline | src/econn/econn.c:632-863 | after any run the local timer runs exactly in the waiting states, and its expiry there gives the close callback |
| EconnRuns.PreparedGlareIsUntimed | src/econn/econn.c:201-232 | the one gap: a call marked outgoing but not yet started that loses a glare waits untimed; once started it is timed |
| EconnRuns.ClosesSplit | src/econn/econn.c:44-82 | close callbacks add up over runs |
| EconnRuns.CloseStep | src/econn/econn.c:44-82 | an event calls the close handler exactly when it consumes it |
| EconnRuns.ClosedAtMostOnce | src/econn/econn.c:44-82 | no run, failed sends included, gives the close callback twice |
| EconnRuns.TerminatingIsAbsorbing | src/econn/econn.c:694-732 | TERMINATING is left if and only if an update request is sent there |
| EconnRuns.EntryPointsReport | src/econn/econn.c:652-788 | the error codes of starting, answering, requesting and answering an update: refused and unchanged outside their states, TERMINATING without a callback if the send fails, and otherwise one message, the new state and timer, and a complaint only about a wait without timeout |
| EconnRuns.OthersReportNothing | src/econn/econn.c:537-863 | the other entry points report nothing |
| Teardown.HangupEndsIff | src/econn/econn.c:502-534 | a HANGUP ends a connection if and only if that has its data channel or has hung up itself and the session is its own; it is then TERMINATING and untimed, calls its close handler with success, and answers a request; otherwise nothing happens |
| Teardown.CancelEndsIff | src/econn/econn.c:471-499 | the same for a CANCEL: ringing, answered or with its data channel, from the locked device and session, with ECANCELED and no answer |
| Teardown.TimerEndsIff | src/econn/econn.c:632-642 | the timer ends a connection if and only if it runs, with ETIMEDOUT for a setup and the set error otherwise |
| Teardown.InvAlong | src/econn/econn.c:502-863 | the invariant of two connections hanging up holds over every run |
| Teardown.HangupEndsBoth | src/econn/econn.c:502-863 | two connections with data channels, either or both of which hang up, messages in any order: with nothing in flight both are TERMINATING and untimed, each has given one close callback with success, and if only one hung up there was one HANGUP and one HANGUP(r) |
| Teardown.HangupReachesIff | src/econn/econn.c:502-534 | a hangup ends the peer if and only if that has its data channel, is hanging up itself, or has ended |
| Teardown.CancelEndsBoth | src/econn/econn.c:811-863 | ending a call without data channel sends one CANCEL, which ends a ringing or answered peer with ECANCELED, and the own timer then reports the own error |
| Teardown.DeclineIsSilent | src/econn/econn.c:811-863 | declining sends nothing, and the timer then reports the error |
| Teardown.CancelStopsRingingIff | src/econn/econn.c:296-499 | from two fresh connections: call, ring, give up; the ringing stops if and only if the caller's client id is shorter than 32 characters |
| SetupGlare.WinnerExists | src/econn/econn_help.c:75-88 | two peers with different identities have exactly one winner |
| SetupGlare.ApplyFollowsDiagram | src/econn/econn.c:189-293 | every event of a connection is one of the moves of the setup diagram |
| SetupGlare.MoverKeepsRole | src/econn/econn.c:189-293 | a peer's own move keeps its role in the glare |
| SetupGlare.OtherKeepsRole | src/econn/econn.c:189-293 | a peer's move keeps the other's role |
| SetupGlare.RolesAlong | src/econn/econn.c:189-293 | roles hold over every run of a network that loses, duplicates and reorders |
| SetupGlare.UniqueAnswerer | src/econn/econn.c:189-293 | for any two devices with different identities over such a network, with failing sends too: at most one SETUP response is ever sent by both peers together, by a peer that was called or lost the tie-break to a peer that called, they are never both resolving a conflict, and any peer in an answered state owes it to that one response |
| SetupProgress.QuiescentIsConnected | src/econn/econn.c:652-691 | at rest the invariant leaves only the connected state |
| SetupProgress.OwnMoveProgresses | src/econn/econn.c:652-788 | preparing, starting and answering keep a message in flight or an answer due |
| SetupProgress.DeliveryProgresses | src/econn/econn.c:201-293 | delivering any message in flight does too |
| SetupProgress.ProgressAlong | src/econn/econn.c:201-293 | progress holds over every interleaving of starts, answers and deliveries |
| SetupProgress.NoGlareDeadlock | src/econn/econn.c:201-293 | without loss, every state at rest after a started call has both peers ANSWERED with each other's session ids, whatever the interleaving |
| SetupProgress.LongLoserDeadlocks | src/econn/econn.c:304-320 | if the tie-break's loser has a client id of 32 characters or more, a crossed call comes to rest unconnected |
| SetupProgress.GlareResolvesIffLoserFits | src/econn/econn.c:296-332 | every interleaving resolves if and only if the loser's client id is shorter than 32 characters |
| UpdateGlare.RequestKeeps | src/econn/econn.c:694-732 | requesting an update keeps the negotiation invariant |
| UpdateGlare.RespondKeeps | src/econn/econn.c:735-760 | answering an update keeps it |
| UpdateGlare.WinnerHears | src/econn/econn.c:335-440 | delivery to the tie-break's winner keeps it |
| UpdateGlare.LoserHears | src/econn/econn.c:335-440 | delivery to the loser keeps it |
| UpdateGlare.InvAlong | src/econn/econn.c:335-440 | the invariant holds over every run |
| UpdateGlare.UpdateGlareResolves | src/econn/econn.c:335-440 | over lossless FIFO channels, for updates requested when ANSWERED or DATACHAN_ESTABLISHED, and by the tie-break's winner also when it owes an answer: the peers never both owe an answer, each UPDATE response finds its receiver in UPDATE_SENT and answers its latest offer, and with nothing in flight or owed neither peer is in an update state |
| UpdateGlare.WinnerRequestsLate | src/econn/econn.c:335-403 | a late request by the tie-break's winner keeps the negotiation invariant |
| UpdateGlare.OutOfPlaceRequestStrands | src/econn/econn.c:335-403 | from any state of a negotiation in which the tie-break's loser owes an answer, its late request and the deliveries that follow leave both peers in UPDATE_SENT with nothing in flight or owed |
| UpdateGlare.LoserComesToOwe | src/econn/econn.c:335-403 | such states are reached from any two connected peers |
| UpdateGlare.LateRequestSafeIffWinner | src/econn/econn.c:335-403 | in every reachable state, a peer that owes an answer and requests an update instead leaves every continuation settled if and only if it wins the tie-break |
| UpdateGlare.ConnectedIsReady | src/econn/econn.c:335-350 | a resolved setup glare can be updated by both sides if and only if both client ids fit their buffer |
| EcallObject.Session.constructor | src/ecall/ecall.c:539-612 | a new call has no connection and its close handler |
| EcallObject.Session.Close | src/ecall/ecall.c:72-114 | the close handler is taken out and then called, so a second close does not call it |
| EcallObject.Session.CreateEconn | src/ecall/ecall.c:1182-1202 | the call owns a fresh connection |
| EcallObject.Session.OfferAndConnect | src/ecall/ecall.c:634-675 | the offer goes out as an update or as a start |
| EcallObject.Session.GenerateOffer | src/ecall/ecall.c:678-707 | the offer is made now or once gathering is done |
| EcallObject.Session.GenerateAnswer | src/ecall/ecall.c:710-753 | the whole new state, message included, is the value model's; when the other side is answered is `EcallCalls.IncomingIsAnsweredIff` and `EcallCalls.UpdateIsAnsweredIff` |
| EcallObject.Session.GenerateOrGatherAnswer | src/ecall/ecall.c:193-213 | the answer is made now or once gathering is done |
| EcallObject.Session.ConnHandler | src/ecall/ecall.c:117-190 | an incoming call is handed to the media layer, or closed on error |
| EcallObject.Session.AnswerHandler | src/ecall/ecall.c:292-368 | an answer, or an offer after a lost glare, is handed to the media layer |
| EcallObject.Session.AnswerUpdate | src/ecall/ecall.c:249-289 | the update offer is handed to the media layer and answered |
| EcallObject.Session.UpdateReqHandler | src/ecall/ecall.c:216-289 | an update marks the call and renews its mediaflow |
| EcallObject.Session.UpdateRespHandler | src/ecall/ecall.c:371-421 | an update answer is handed on only if an update was asked for |
| EcallObject.Session.Dispatch | src/ecall/ecall.c:117-433 | each callback of the connection reaches its handler |
| EcallObject.Session.Start | src/ecall/ecall.c:1205-1253 | the errors of starting, and the connection marked outgoing before the offer |
| EcallObject.Session.Answer | src/ecall/ecall.c:1256-1294 | answering needs a ringing connection with a mediaflow |
| EcallObject.Session.Restart | src/ecall/ecall.c:1667-1707 | a restart needs ANSWERED or DATACHAN_ESTABLISHED |
| EcallObject.Session.End | src/ecall/ecall.c:1403-1419 | ending ends the connection |
| EcallObject.Session.MsgRecv | src/ecall/ecall.c:1297-1358 | messages of the own user only stop the ringing; a SETUP creates the connection; everything else goes to it |
| EcallObject.Session.Forward | src/ecall/ecall.c:1353-1354 | the connection takes the message and its callback is run |
| EcallObject.Session.ChannelRecv | src/ecall/ecall.c:932-984 | a message from the data channel is taken as sent by the locked device |
| EcallObject.Session.GatherHandler | src/ecall/ecall.c:824-874 | the deferred offer or answer is made, unless the connection has terminated |
| EcallObject.Session.TimerHandler | src/econn/econn.c:632-642 | the connection's timer reaches the call |
| EcallObject.Session.MediaCloseHandler | src/ecall/ecall.c:802-821 | a failed mediaflow ends the call or closes it |
| EcallRuns.ConnGoesOn | src/econn/econn.c:652-1013 | no event of a connection but an update request leaves TERMINATING or an answered state |
| EcallRuns.OfferGoesOn | src/ecall/ecall.c:634-675 | making an offer, on a connection that has not terminated if an update is due, leads to a sound successor: TERMINATING stays, a connection once answered stays answered or terminated, and the update goes out on such a connection only |
| EcallRuns.ReactGoesOn | src/ecall/ecall.c:117-433 | the call's reaction to any callback is a sound successor |
| EcallRuns.MsgRecvGoesOn | src/ecall/ecall.c:1297-1358 | so is receiving any message from anyone |
| EcallRuns.GatherDoneGoesOn | src/ecall/ecall.c:824-874 | so is the end of gathering |
| EcallRuns.RestartGoesOn | src/ecall/ecall.c:1667-1707 | so is a restart |
| EcallRuns.RunGoesOn | src/ecall/ecall.c:72-1707 | so is every run |
| EcallRuns.LifeOfACall | src/ecall/ecall.c:72-1707 | under every sequence of API calls, messages, gather completions, media failures and expiries: the close handler is called at most once, updates are requested only after the call was answered and before it terminates (hanging up and updating included; `EcallGather` has the exact states), and TERMINATING is absorbing |
| EcallGather.RequestedExactly | src/ecall/ecall.c:824-874 | the exact events, states and outcomes that request an update: a restart in place whose offer is ready, or the end of gathering for an update offer unless terminated |
| EcallGather.OutOfPlaceIffLateGather | src/ecall/ecall.c:836-853 | an event requests an update outside ANSWERED and DATACHAN_ESTABLISHED if and only if it is the end of gathering for an update offer in another state but TERMINATING |
| EcallGather.UpdatesInPlaceIffNeverLate | src/ecall/ecall.c:824-874 | over the whole life of a call, all updates are requested in those two states if and only if no gathering ends late |
| EcallGather.LateGatherUndoesHangup | src/ecall/ecall.c:824-874 | a restart that waits for gathering, a hangup, and the end of gathering lead from HANGUP_SENT to UPDATE_SENT with the setup timer |
| EcallGather.LateGatherOverridesUpdate | src/ecall/ecall.c:824-874 | the same with the peer's update, left unanswered because it has no data channel, leads from UPDATE_RECV to UPDATE_SENT |
| EcallCalls.RingsIff | src/ecall/ecall.c:117-190 | a new call rings if and only if it and the caller are named and different users and the media layer takes the offer |
| EcallCalls.IncomingIsAnsweredIff | src/ecall/ecall.c:710-753 | SETUP, ecall_answer and the end of gathering: the call is ANSWERED with one SETUP(r) sent if and only if it rang and at the time of answering, or of the end of gathering, there was an answer and it could be sent |
| EcallCalls.OutgoingIsSentIff | src/ecall/ecall.c:1205-1253 | ecall_start and the end of gathering: exactly one SETUP is sent if and only if there is a TURN server, the call is named, and there was an offer and it could be sent |
| EcallCalls.ReplyConnectsIff | src/ecall/ecall.c:292-368 | a caller that gets its SETUP(r) is ANSWERED, untimed and in the callee's session; the call goes on if and only if the media layer can use the answer, and is closed otherwise |
| EcallCalls.WonGlareGoesOn | src/econn/econn.c:200-215 | of two calls that cross, the winner's only learns the other device and session and goes on |
| EcallCalls.LostGlareAnswersIff | src/ecall/ecall.c:292-368 | the loser's is answered without asking, at once if and only if the media layer takes the offer in, need not gather and has an answer that is sent; it waits for gathering if and only if none is under way for something else, and is closed otherwise |
| EcallCalls.UpdateIsAnsweredIff | src/ecall/ecall.c:216-289 | an UPDATE on a call in progress is answered at once if and only if the media layer takes it in, has an answer and that is sent; the call is then ANSWERED, or has its data channel exactly if that is open; otherwise it is closed, unless gathering comes first or the peer has no data channels |
| EcallCalls.GatherUpdatesIff | src/ecall/ecall.c:824-874 | an update that waits for gathering is answered then, under the same condition, or closes the call |
| EcallCalls.RestartSendsIff | src/ecall/ecall.c:1667-1707 | a restart sends one UPDATE if and only if the media layer has an offer ready and it is sent |
| EcallCalls.UpdateConnectsIff | src/ecall/ecall.c:371-421 | the answer to it brings the call back to where it was if and only if the media layer can use it, and closes the call otherwise |
| EcallCalls.OwnUserOnlyStopsRinging | src/ecall/ecall.c:1313-1338 | messages of the own user do nothing, but an answer given on another device ends a call that rings, silently |
| EcallCalls.ChannelHangupEndsIff | src/ecall/ecall.c:932-984 | a HANGUP over the data channel closes the call, once, and is answered, if and only if the call has its data channel or has hung up itself and the session is its own |
| EcallCalls.SendsNeedConnection | src/ecall/ecall.c:634-753 | without a connection no offer or answer is sent, and an error is reported |
| EcallCalls.StartReports | src/ecall/ecall.c:1205-1253 | the error codes of ecall_start |
| EcallCalls.AnswerReports | src/ecall/ecall.c:1256-1294 | the error codes of ecall_answer |
| EcallCalls.RestartReports | src/ecall/ecall.c:1667-1707 | the error codes of ecall_restart |
| EcallCalls.WholeCall | src/ecall/ecall.c:72-1419 | two users, everything working: start, ring, answer, data channels, hang up; both calls are answered, end TERMINATING, are closed exactly once, and have sent exactly SETUP and HANGUP one way and their responses the other |
| DceCodec.OpenRequestOctets | src/dce/dce.c:433-497 | the DATA_CHANNEL_OPEN that is sent, octet by octet: type, channel type, priority, value and lengths with the most significant octet first, label, protocol (section 5.1 of RFC 8832) |
| DceCodec.OpenRequestReading | src/dce/dce.c:800-882 | whatever has that layout, whoever sent it, is read as those parameters |
| DceCodec.AnyRequestReading | src/dce/dce.c:800-882 | what is read of any message of at least twelve octets: unknown channel types, over-long and cut texts included |
| DceCodec.Be32RoundTrip | src/dce/dce.c:433-497 | a 32-bit value survives the network byte order, whose octets `DceCodec.Be32Octets` gives |
| DceCodec.OpenRequestRoundTrip | src/dce/dce.c:433-497 | for every ordering, policy, 32-bit value, and label and protocol of at most 128 bytes, decoding the encoded DATA_CHANNEL_OPEN gives all five back (section 5.1 of RFC 8832) |
| Dce.FreeSlot | src/dce/dce.c:322-336 | the first closed slot from c on, or none exactly if none is closed |
| Dce.FreeStreamFrom | src/dce/dce.c:365-394 | the first unused stream of the own parity from s on, or 0 exactly if there is none |
| DceObject.PeerConnection.constructor | src/dce/dce.c:243-273 | ten free slots, empty indexes, an empty reset buffer |
| DceObject.PeerConnection.FindFreeChannel | src/dce/dce.c:322-336 | the scan finds the first closed slot |
| DceObject.PeerConnection.FindFreeOStream | src/dce/dce.c:365-394 | the scan finds the first unused stream of the own parity below the limit |
| DceObject.PeerConnection.Connect | src/dce/dce.c:584-619 | the chosen slot is filled in and its request sent, deferred, or taken back |
| DceObject.PeerConnection.OpenChannel | src/dce/dce.c:557-619 | the whole new tables, message and returned slot of opening a channel |
| DceObject.PeerConnection.ResetOutgoingStream | src/dce/dce.c:668-679 | the stream joins the reset buffer unless it is there, within its ten entries |
| DceObject.PeerConnection.SendOutgoingStreamReset | src/dce/dce.c:682-712 | the buffer is emptied exactly if the request was accepted |
| DceObject.PeerConnection.CloseChannel | src/dce/dce.c:715-727 | an open channel becomes closing with its reset queued and requested |
| DceObject.PeerConnection.Accept | src/dce/dce.c:835-882 | the chosen slot is filled in and the acknowledgement sent, deferred, or everything taken back |
| DceObject.PeerConnection.HandleOpenRequest | src/dce/dce.c:750-895 | a request is accepted only on a stream unused in both directions with a free slot |
| DceObject.PeerConnection.HandleAck | src/dce/dce.c:899-929 | an acknowledgement opens a connecting channel and nothing else |
| DceObject.PeerConnection.HandleMessage | src/dce/dce.c:980-1027 | dispatch on payload and first octet |
| DceObject.PeerConnection.ResetIncomingStream | src/dce/dce.c:1222-1242 | the incoming direction is released |
| DceObject.PeerConnection.ResetOwnStream | src/dce/dce.c:1243-1256 | the outgoing direction is released |
| DceObject.PeerConnection.HandleStreamResetEvent | src/dce/dce.c:1194-1268 | all listed streams are released in order |
| DceObject.PeerConnection.HandleStreamChangeEvent | src/dce/dce.c:1272-1313 | waiting slots get streams in order until none is left, or are given up |
| DceObject.PeerConnection.ChangeOne | src/dce/dce.c:1282-1310 | the same for one slot |
| DceObject.PeerConnection.SendDeferredOf | src/dce/dce.c:533-551 | a slot's deferred request and acknowledgement are sent and their flags cleared |
| DceObject.PeerConnection.SendDeferredMessages | src/dce/dce.c:527-554 | the same for all slots, in order |
| DceObject.PeerConnection.FinishNotification | src/dce/dce.c:1394-1395 | after an event, exactly the deferred messages are sent, in order, and then queued resets requested |
| DceObject.PeerConnection.NotifyStreamReset | src/dce/dce.c:1392-1397 | a reset notification as a whole: the new tables and the messages sent |
| DceObject.PeerConnection.NotifyStreamChange | src/dce/dce.c:1400-1405 | a stream-change notification as a whole: the new tables and the messages sent |
| DceTables.OutStep | src/dce/dce.c:557-1313 | every operation and event keeps the outgoing index exact |
| DceTables.OutgoingIndexExact | src/dce/dce.c:557-1313 | in every reachable state, failed sends included: stream s leads to slot c if and only if slot c owns s, no two slots share one, and closed slots own none |
| DceTables.OpensIff | src/dce/dce.c:557-617 | a channel is refused without a trace if and only if a text exceeds 128 bytes, the policy is unknown, the value is too large or comes without a policy, or no slot is left; otherwise it gets the first closed slot and its label |
| DceTables.AskedIs | src/dce/dce.c:584-617 | the whole slot of a channel asked for, and its defaults after a send that fails for good |
| DceTables.OpenIn | src/dce/dce.c:584-617 | opening a channel keeps the incoming index and slots in order if and only if its request does not fail for good |
| DceTables.FailedOpenMisleads | src/dce/dce.c:607-615 | what such a failure leads to: the next accepted request gets the freed slot, and the index has the old stream lead to a slot on another stream |
| DceTables.AcceptIn | src/dce/dce.c:750-895 | accepting a request keeps them in order if and only if it did not come in on stream 0 |
| DceTables.AckIn | src/dce/dce.c:899-929 | an acknowledgement does if and only if it does not open, on stream 0, a channel without streams |
| DceTables.MessageIn | src/dce/dce.c:980-1027 | so for any message on any stream |
| DceTables.InStep | src/dce/dce.c:557-1313 | an operation or event keeps them in order if and only if it is neither an open request that fails for good nor such a message |
| DceTables.OnlyResetsClose | src/dce/dce.c:1194-1268 | an open or closing channel is closed by nothing but a granted stream reset |
| DceTables.ClosedExactlyWhenStreamless | src/dce/dce.c:1194-1268 | in every reachable state an index entry names a slot that names it, and a slot past connecting is closed exactly when it owns no stream in either direction |
| DceTables.LateStreamIsDeaf | src/dce/dce.c:1282-1310 | a channel opened when no stream was left gets its outgoing stream from a stream-change event and no incoming one |
| DceTables.DeafStep | src/dce/dce.c:557-1313 | such a channel keeps waiting through every event but an acknowledgement on stream 0 that leads to it and a reset of its own stream |
| DceTables.DeafOpensIff | src/dce/dce.c:899-929 | an event opens it if and only if it is such an acknowledgement |
| DceTables.DeafAlong | src/dce/dce.c:557-1313 | whatever the peer sends on the streams in use, it never opens |
| DceTables.QueueFits | src/dce/dce.c:668-679 | queueing a reset stays within the buffer even if it is never emptied |
| DceTables.ResetBufferFits | src/dce/dce.c:668-727 | the buffer holds distinct streams and never more than ten in every run |
| DceTables.DistinctFits | src/dce/dce.c:668-679 | pigeonhole: distinct stream ids below n are at most n |
| DceSlots.DeferredSends | src/dce/dce.c:526-554 | the deferred sends put exactly the messages that are due on the wire and forget exactly those that got through |
| DceSlots.ChangeServes | src/dce/dce.c:1271-1313 | when there are more streams, every waiting channel is given a free one of the engine's parity, in the order of the slots, until none is left |
| DceSlots.RefusalCloses | src/dce/dce.c:1271-1313 | when more streams are refused, exactly the waiting channels are closed |
| DceSlots.RefusalForgets | src/dce/dce.c:1271-1313 | and exactly their incoming streams are forgotten |
| DceSlots.LateRequestGoesOut | src/dce/dce.c:526-554 | a channel given a stream late announces itself in the same notification if its request can be sent, and keeps it due otherwise |
| DceSlots.ClearedStep | src/dce/dce.c:557-1313 | every operation and event leaves closed slots at their defaults |
| DceSlots.ClosedIsCleared | src/dce/dce.c:557-1313 | in every reachable state, failed sends included, a closed slot is a new one but for its texts and incoming stream |
| DceHandshake.OpenKeeps | src/dce/dce.c:557-619 | opening a channel keeps the two ends' joint invariant |
| DceHandshake.DeferKeeps | src/dce/dce.c:527-554 | sending what was deferred keeps it |
| DceHandshake.OpenerHears | src/dce/dce.c:899-977 | the opener hearing an acknowledgement or data keeps it |
| DceHandshake.AcceptorHearsRequest | src/dce/dce.c:750-895 | the acceptor hearing the request keeps it, with exactly the parameters the opener holds |
| DceHandshake.JointAlong | src/dce/dce.c:557-977 | the invariant holds over every run of both ends |
| DceHandshake.HandshakeAgrees | src/dce/dce.c:1593-1636 | two ends with opposite DTLS roles, over reliable ordered streams: a channel open at its opener is open at its acceptor on the same stream with the same label, protocol, ordering and reliability, and a stream either end would choose is unknown to the other, empty, and not the other's choice (section 6 of RFC 8832) |
| DceCompletes.AlwaysRoom | src/dce/dce.c:322-336 | without resets a free slot is always left: ten slots cannot hold ten of nine streams |
| DceCompletes.RequestLive | src/dce/dce.c:750-895 | a delivered request is accepted and its acknowledgement is on its way or deferred |
| DceCompletes.LiveAlong | src/dce/dce.c:527-977 | no opener is forgotten over any run with streams available |
| DceCompletes.HandshakeCompletes | src/dce/dce.c:527-977 | in every state with nothing in flight or deferred, every slot in use at either end is open at both with equal parameters |
| DceClosing.CloseKeeps | src/dce/dce.c:715-727 | closing a channel keeps the two ends' joint closing invariant: each direction of each stream is unused, open, to be reset, or reset and not yet heard of |
| DceClosing.RequestKeeps | src/dce/dce.c:682-712 | requesting the queued resets, accepted or not, keeps it |
| DceClosing.ResetKeeps | src/dce/dce.c:1222-1242 | hearing that the peer has reset a stream keeps it |
| DceClosing.DoneKeeps | src/dce/dce.c:1243-1256 | hearing that the own reset was performed keeps it |
| DceClosing.InvAlong | src/dce/dce.c:682-1268 | it holds over every run of both ends |
| DceClosing.HandedIsFine | src/dce/dce.c:557-977 | it holds where any run of the open handshake has come to rest |
| DceClosing.ClosingCompletes | src/dce/dce.c:715-1268 | from there on, channels closed by either end or both, resets heard of in any order and requests that fail: whenever nothing is outstanding each stream is an open channel with equal parameters at both ends or unknown to both, and the latter if it was not open at both ends at the start (section 6.7 of RFC 8831) |
| DceClosing.ClosedIsForgotten | src/dce/dce.c:715-1268 | from any handshake run that came to rest, through any run in which either end closes its channel on stream s: whenever nothing is outstanding after that, s is unknown to both ends |
| DceClosing.RoomLeft | src/dce/dce.c:322-336 | tables in order always have a free slot, closing channels included |
| DceClosing.RestChooses | src/dce/dce.c:365-394 | a closed stream can then be chosen again, and the stream that will be chosen is unknown to both ends |
| DceClosing.HalfwayLooksFree | src/dce/dce.c:365-394 | before that, once the own direction alone is reset, the stream looks free and still leads to the closing slot |
| DceClosing.OpenLeaksIff | src/dce/dce.c:557-619 | for any tables with an exact outgoing index, any request and however its send goes: opening a channel leaves a closing slot that no stream leads to if and only if it gets a slot and its stream (0 if there is none) was the only way to a closing slot |
| DceClosing.OnlyWayIs | src/dce/dce.c:322-394 | with the incoming side in order: exactly if the stream led to a closing slot without outgoing stream that stream 0 does not lead to |
| DceClosing.EarlyReuseLeaks | src/dce/dce.c:557-619 | an end that closes its channel on a stream whose predecessors are taken, and opens another one halfway, loses the old slot |
| DceClosing.LeakStep | src/dce/dce.c:557-1313 | no operation or event recovers such a slot |
| DceClosing.LeakAlong | src/dce/dce.c:557-1313 | nor does any run |
| DceLifetime.OpenKeeps | src/dce/dce.c:557-619 | opening a channel on a stream unused in both directions keeps the joint invariant of two ends that open and close channels |
| DceLifetime.OpenerHears | src/dce/dce.c:899-977 | so does the opener hearing a reply |
| DceLifetime.AcceptorHears | src/dce/dce.c:750-977 | so does the acceptor hearing a request or data |
| DceLifetime.ClosingKeeps | src/dce/dce.c:682-1268 | so do closing, hearing of resets and requesting them, also while the opener still waits |
| DceLifetime.InvAlong | src/dce/dce.c:557-1268 | it holds over every interleaving |
| DceLifetime.LifetimeIsWhole | src/dce/dce.c:557-1268 | from a fresh association, channels opened, used, closed and opened again by either end in any order: there is always a free slot, and whenever nothing is in flight or outstanding each stream is an open channel with equal ordering and reliability at both ends or unknown to both, and every slot in use belongs to such a channel |
| DceLifetime.GivenUpIsForgotten | src/dce/dce.c:715-1268 | in any such run, once either end has closed its channel on stream s and while nobody opens another one, s is unknown to both ends whenever nothing is in flight or outstanding |
| DceLifetime.DeliveryLightens | src/dce/dce.c:750-1268 | every delivery of a message, a reset or its completion lowers a measure of what is left to do |
| DceLifetime.ComesToRest | src/dce/dce.c:750-1268 | from every state of such a run, deliveries alone lead to one in which nothing is in flight or outstanding |
| DceLifetime.AtRestOpens | src/dce/dce.c:557-977 | at rest, whenever a stream is left, a request, its delivery and that of the answer lead to rest with the channel in use at both ends |
| DceLifetime.EarlyReuseLeaks | src/dce/dce.c:365-619 | from any state at rest, a fresh association's for one: opening a channel, closing it, hearing that the own reset was performed and opening another one leaks the first one's slot |
| DceLifetime.RequestTakenIff | src/dce/dce.c:750-895 | a request is taken if and only if the acceptor knows that its own last reset of the stream was performed, and is lost otherwise |
| DceLifetime.TextsAgreeIff | src/dce/dce.c:584-617 | the two ends hold the same label and protocol if and only if the texts their slots held before end alike behind the new ones, and those asked for if and only if the old ones were no longer |
| DceLifetime.ResetsKeepTexts | src/dce/dce.c:1222-1256 | no reset clears a slot's texts |
| TimeScale.FadeBetween | src/audio_effect/time_scale.cpp:47-56 | a crossfaded sample lies between its two sources, truncation included |
| TimeScale.FadeEnds | src/audio_effect/time_scale.cpp:47-56 | the last crossfaded sample is the second source |
| TimeScale.FadeIs | src/audio_effect/time_scale.cpp:47-56 | sample i of a crossfade is the weighted mean with i + 1 parts of the second source, cut towards zero |
| TimeScale.SplicesAt | src/audio_effect/time_scale.cpp:22-115 | where removals and insertions are crossfaded |
| TimeScale.RemoveSplices | src/audio_effect/time_scale.cpp:22-67 | removal keeps a prefix, crossfades 2 ms linearly between samples a period apart, and continues a period later: contents of every position |
| TimeScale.InsertSplices | src/audio_effect/time_scale.cpp:69-115 | insertion keeps a prefix, crossfades 2 ms linearly, and continues a period earlier up to the old end: contents of every position |
| TimeScale.RemoveOne | src/audio_effect/time_scale.cpp:22-67 | the queue gets shorter by exactly the period, or not at all if the period is longer |
| TimeScale.InsertOne | src/audio_effect/time_scale.cpp:69-115 | the queue gets longer by exactly the period |
| TimeScale.Append | src/audio_effect/time_scale.cpp:126-141 | inserted samples join the end of the queue |
| TimeScale.Take | src/audio_effect/time_scale.cpp:211-214 | what is read is the front of the queue and the rest stays in order |
| TimeScale.SearchIsBest | src/audio_effect/time_scale.cpp:154-174 | the lag search gives the first lag of the highest score above the start |
| TimeScale.SearchFinds | src/audio_effect/time_scale.cpp:151-182 | the lag used is the first best one in range, or 10 ms exactly if no lag scores above -1 |
| TimeScale.Shrink | src/audio_effect/time_scale.cpp:188-191 | the removal loop ends with at most 45 ms queued and more than 45 ms less a period |
| TimeScale.Stretch | src/audio_effect/time_scale.cpp:198-200 | the counted loop adds exactly its count of periods |
| TimeScale.Fill | src/audio_effect/time_scale.cpp:205-209 | the filling loop ends with enough queued and less than a period too much, and does nothing if there is enough |
| TimeScale.PeriodsBound | src/audio_effect/time_scale.cpp:197-200 | the rounded number of periods adds at most 10 ms and half a period |
| TimeScale.PeriodsAreNearest | src/audio_effect/time_scale.cpp:197 | the number of periods is 10 ms worth of them, to the nearest |
| TimeScale.AdjustStretchesIff | src/audio_effect/time_scale.cpp:193-210 | a queue of at most 45 ms: if it is below 35 ms and the correlation exceeds 0.75 less 0.015 per millisecond missing, it is stretched by that number of periods and then filled; otherwise it is only filled, and unchanged if there is enough |
| TimeScale.ShrinkCounts | src/audio_effect/time_scale.cpp:186-191 | shrinking removes whole periods, and none more than needed |
| TimeScale.FillCounts | src/audio_effect/time_scale.cpp:204-209 | filling adds whole periods, and none more than needed |
| TimeScale.SearchUnvoiced | src/audio_effect/time_scale.cpp:178-181 | an unvoiced frame has a lag of 10 ms and a correlation of 0.1 |
| TimeScale.AdjustBounds | src/audio_effect/time_scale.cpp:143-215 | before reading, the samples asked for plus 3 ms are queued, and never more than 66 ms |
| TimeScale.Extract | src/audio_effect/time_scale.cpp:143-215 | extraction leaves at least 3 ms and at most 66 ms less what was read; when and by how much it stretches is `TimeScale.AdjustStretchesIff` and `TimeScale.FillCounts` |
| TimeScale.Delivered | src/audio_effect/time_scale.cpp:143-215 | exactly the number of samples asked for is delivered, and they are the front of the adjusted queue |
| TimeScaleObject.Buffer.constructor | src/audio_effect/time_scale.cpp:117-124 | an empty buffer with its rates |
| TimeScaleObject.Buffer.Copy | src/audio_effect/time_scale.cpp:37-42 | a copy across the wrap-around is a stretch of the tape |
| TimeScaleObject.Buffer.PutFades | src/audio_effect/time_scale.cpp:47-59 | the crossfade loop writes exactly the crossfades, in order, across the wrap-around |
| TimeScaleObject.Buffer.PutAll | src/audio_effect/time_scale.cpp:60-64 | the writing loops write exactly their copy, in order, across the wrap-around |
| TimeScaleObject.Buffer.RemoveOne | src/audio_effect/time_scale.cpp:22-67 | the ring edit is the removal on the tape |
| TimeScaleObject.Buffer.InsertOne | src/audio_effect/time_scale.cpp:69-115 | the ring edit is the insertion on the tape |
| TimeScaleObject.Buffer.Insert | src/audio_effect/time_scale.cpp:126-141 | the ring write is the append on the tape |
| TimeScaleObject.Buffer.BestLag | src/audio_effect/time_scale.cpp:151-182 | the search loop computes the best lag |
| TimeScaleObject.Buffer.ShrinkQueue | src/audio_effect/time_scale.cpp:188-191 | the first while loop terminates and is Shrink |
| TimeScaleObject.Buffer.StretchQueue | src/audio_effect/time_scale.cpp:198-200 | the counted loop is Stretch |
| TimeScaleObject.Buffer.FillQueue | src/audio_effect/time_scale.cpp:204-209 | the second while loop terminates and is Fill |
| TimeScaleObject.Buffer.Settle | src/audio_effect/time_scale.cpp:184-210 | the buffer before the reading is the value model's, branch by branch; which branch is `TimeScale.AdjustStretchesIff` |
| TimeScaleObject.Buffer.Extract | src/audio_effect/time_scale.cpp:143-215 | extraction on the ring is extraction on the tape, and writes its output where asked and nowhere else |
| TimeScaleObject.Buffer.Read | src/audio_effect/time_scale.cpp:211-214 | the reading loop delivers the front of the queue |
| AudioEffects.Ratio | src/audio_effect/pitch_shift.cpp:38-60 | every strength, clamped, gives a ratio between 1/2 and 3/2 |
| AudioEffects.Shift | src/audio_effect/pace_shift.cpp:36-78 | every strength, clamped, shortens to no less than a fifth and lengthens by no more than four fifths |
| AudioEffects.EffectTable | src/audio_effect/pitch_shift.cpp:36-101 | the ratios and paces of the four strengths |
| AudioEffects.StrengthIsClamped | src/audio_effect/pace_shift.cpp:36-78 | any other strength is the nearest of those |
| AudioEffects.CreateTable | src/audio_effect/pitch_shift.cpp:36-101 | the frame lengths and rates that follow from them |
| AudioEffects.CreateIsBounded | src/audio_effect/pitch_shift.cpp:36-101 | every effect at every strength and rate from 2 to 48 kHz has settings within the buffer's demands |
| AudioEffects.PitchLagBounds | src/audio_effect/pitch_shift.cpp:113-131 | a lag of 32 to 288 at 16 kHz becomes at least 1 ms and at most 27 ms, 18 ms for pace |
| AudioEffects.LagRange | src/audio_effect/pitch_shift.cpp:113-131 | so does the range over the four subframes of a voiced frame |
| AudioEffects.LagRangeExact | src/audio_effect/pitch_shift.cpp:113-131 | the range is exact, except that the minimum is never reported above 1000 |
| AudioEffects.PitchLagIs | src/audio_effect/pitch_shift.cpp:119 | a lag at 16 kHz, resampled and rounded down |
| AudioEffects.FrameLag | src/audio_effect/pitch_shift.cpp:113-159 | a voiced frame is worked with the best lag from its smallest to its largest, an unvoiced one with 10 ms |
| AudioEffects.FrameFits | src/audio_effect/pitch_shift.cpp:133-159 | whatever lag the search settles on, in a voiced frame or in one whose lags are not read, extraction's demands are met |
| AudioEffects.ProcessFrame | src/audio_effect/pitch_shift.cpp:147-157 | each frame gives its exact output and leaves between 3 ms and 66 ms queued |
| AudioEffects.ProcessLength | src/audio_effect/pitch_shift.cpp:133-159 | so does every sequence of frames |
| AudioEffects.ProcessInt16 | src/audio_effect/time_scale.cpp:22-115 | samples stay 16-bit over every sequence of frames, so no conversion overflows |
| AudioEffects.EffectsAlwaysDeliver | src/audio_effect/pace_shift.cpp:115-141 | for every effect, rate, strength and signal, any lags of 32 to 288 in voiced frames and anything in others, over any run: exact output length, 3 ms left, at most 81 ms queued and so below 2^14, 16-bit samples |
| AudioEffectsObject.FindMinMaxPitch | src/audio_effect/pitch_shift.cpp:113-131 | the loop computes the range of the lags |
| AudioEffectsObject.Shifter.constructor | src/audio_effect/pitch_shift.cpp:36-101 | a new effect has its settings and an empty buffer |
| AudioEffectsObject.Shifter.ProcessFrame | src/audio_effect/pitch_shift.cpp:147-157 | one turn of the loop, on the ring |
| AudioEffectsObject.Shifter.Process | src/audio_effect/pitch_shift.cpp:133-159 | the loop over frames writes exactly the frames' outputs, one after the other |
| Dict.LookupMeans | src/dict/dict.c:67-86 | looking in a key's own bucket finds it exactly if the map has it |
| Dict.AddMeans | src/dict/dict.c:129-156 | appending to the key's bucket adds exactly that key to the map |
| Dict.RemoveMeans | src/dict/dict.c:159-175 | unlinking removes exactly that key from the map |
| Dict.CountMeans | src/dict/dict.c:225-237 | the buckets' lengths add up to the size of the map |
| Dict.FlatMeans | src/dict/dict.c:195-211 | traversal meets exactly the map's entries |
| Dict.StopsLater | src/dict/dict.c:195-211 | a traversal that does not stop goes on into the next bucket |
| Dict.StopsMeans | src/dict/dict.c:195-211 | a traversal gives an accepted entry of the map, or none exactly if none is accepted |
| Dict.Dictionary.constructor | src/dict/dict.c:89-112 | an empty map |
| Dict.Dictionary.Find | src/dict/dict.c:67-86 | the search loop finds the first entry with the exact key |
| Dict.Dictionary.Lookup | src/dict/dict.c:115-126 | the map's value, or nothing |
| Dict.Dictionary.Add | src/dict/dict.c:129-156 | the map with the key added, or no change and EADDRINUSE if it was there, ENOMEM if there is no memory |
| Dict.Dictionary.Remove | src/dict/dict.c:159-175 | the map without the key |
| Dict.Dictionary.Flush | src/dict/dict.c:214-222 | the empty map |
| Dict.Dictionary.Count | src/dict/dict.c:225-237 | the size of the map |
| Dict.Dictionary.Apply | src/dict/dict.c:195-211 | the first match in bucket order, or nothing exactly if nothing matches |
| Flows.EstablishmentBits | src/flowmgr/flowmgr.h:39-45 | a flow is active, and has RTP, by its bits 2 and 4 |
| Flows.ActiveNone | src/flowmgr/flow.c:429-438 | the count is zero exactly if no flow is active |
| Flows.EstablishedMeans | src/flowmgr/call.c:145-210 | count and countdown over the table decide whether media is established in the map |
| Flows.Call.BestFlow | src/flowmgr/call.c:228-247 | the loop terminates with a flow of maximal establishment state, or none exactly if all are NONE |
| Flows.Call.CountActive | src/flowmgr/call.c:164-174 | the number of active flows |
| Flows.Call.CountDownRtp | src/flowmgr/call.c:145-161 | stopped exactly if some active flow has no RTP, and counted down by all active flows otherwise |
| Flows.Call.MestabCheck | src/flowmgr/call.c:183-210 | media becomes established if and only if some flow is active and every active flow has RTP; the handler is called on the change only |
| Flows.Call.PurgeUsers | src/flowmgr/call.c:1182-1198 | the loop terminates and leaves exactly the users that have a flow |
| ListSort.SwapAt | contrib/re/src/list/list.c:262-275 | a swap keeps the order of participants at equal positions |
| ListSort.SwapWeighsLess | contrib/re/src/list/list.c:262-275 | every swap lowers a measure, so the retries end |
| ListSort.SortIsUnique | contrib/re/src/list/list.c:250-280 | there is only one stable descending order |
| ListSort.ArrangeSorts | contrib/re/src/list/list.c:250-280 | stable insertion gives it |
| ListSort.Sort | contrib/re/src/list/list.c:250-280 | the sort terminates with the stable descending order, with participants kept |
| ConfPos.FindId | src/conf_pos/conf_pos.c:61-76 | the first participant with the id, ignoring case |
| ConfPos.PosSortOrders | src/conf_pos/conf_pos.c:114-146 | sorting orders by descending hash and keeps ids and flows apart |
| ConfPos.AddKeeps | src/flowmgr/call.c:301-337 | adding a participant, failing or not, keeps the list in order and ids unique |
| ConfPos.RemoveKeeps | src/flowmgr/call.c:340-355 | removing one does too; who is left is `ConfPos.LeaveMembers` |
| ConfPos.OrderlyAlong | src/flowmgr/call.c:301-355 | and so does every history |
| ConfPos.LeaveMembers | src/flowmgr/call.c:340-355 | leaving takes out the flow's participant and nobody else |
| ConfPos.JoinMembers | src/flowmgr/call.c:301-337 | joining and what it reports: nothing changes if the user id is taken; otherwise the flow's old participant goes, and the new one is there exactly if there was memory and the mixer could be updated |
| ConfPos.MembersAreRoster | src/flowmgr/call.c:301-355 | after any history the participants are exactly those that the joins and leaves describe, whatever the hash |
| ConfPos.OrderDependsOnlyOnWho | src/conf_pos/conf_pos.c:103-146 | after any history ids are unique ignoring case, and two calls with the same participants of distinct hashes hold them in the same order |
| ConfPos.CollidersKeepJoinOrder | src/conf_pos/conf_pos.c:79-90 | participants whose hashes collide stay in the order they joined |
| ConfPos.HistoryFreeIffCollisionFree | src/conf_pos/conf_pos.c:103-146 | order never depends on history if and only if no two hashes collide |
| ConfPos.Conference.Find | src/conf_pos/conf_pos.c:61-76 | the loop finds the first participant with the id, ignoring case |
| ConfPos.Conference.Release | src/conf_pos/conf_pos.c:23-29 | the flow's participant is unlinked, if it has one |
| ConfPos.Conference.SortPositions | src/conf_pos/conf_pos.c:114-146 | positions are recomputed and the list sorted; a single participant gets position 0 |
| ConfPos.Conference.AddConfPart | src/flowmgr/call.c:301-337 | the whole new list and error code, with the failing update undone and the old participant gone if there is no memory |
| ConfPos.Conference.RemoveConfPart | src/flowmgr/call.c:340-355 | the whole new list, whose members `ConfPos.LeaveMembers` gives |

## Left out

- The SCTP stack, DTLS, ICE, the media flow, the audio devices and the pitch estimator: they answer through parameters.
- Message encoding as JSON, REST, WebSocket and login code: plumbing over libraries outside the repository's core.
- Deferred sends while channels are being closed, with both ends in view: the table invariants cover them on one end.
- `dce_channel` handles and user-data callbacks of the data-channel engine: they do not touch the tables.
- Ordering values other than 0 and 1, and a label of exactly 128 bytes that is then read as an unterminated C string.
- Texts that run past the end of a received open request: they are read as far as the message goes.
- Notifications of association changes, send failures and remote errors, which leave the tables alone.
- Floating-point rounding in crossfades, in the correlation and in the pace factor: reals are used instead.
- The correlation formula of the lag search: the search is proved for any scores, including lags without one.
- The 32-bit wrap-around of sample counters and hash values, which no bound proved here comes near.
- The dictionary's flushing flag, which matters only when a value's destructor calls back into the dictionary.
- Statistics, logging, debugging output, video state and property synchronisation.
- DceHandshake.HandshakeAgrees: says nothing about runs in which a send fails for good, because the agreement is lost there by design of the failure path, or about runs with stream resets, which are in DceClosing.
- EconnRuns.TimerDiscipline: is stated for successful sends and a nonzero setup timeout, because a failed send terminates by return code without a callback.
- EconnObject.Alloc: does not model a copy of an id that fails for lack of memory, because the failure path releases the caller's pointer instead of the connection.
- Dict.Dictionary.Add: does not model a copy of the key that fails for lack of memory, which the code ignores.
