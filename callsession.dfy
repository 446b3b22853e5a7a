/**
 * The browser side of a call: the call-state globals of the chat page and the
 * socket and button handlers that change them. The WebRTC peer connection is
 * reduced to whether it exists, whether its remote description is set, which
 * ICE candidates it has been given, and where it sends its own candidates.
 * Every socket emit is appended to `emitted`.
 *
 * Each handler is a method of `Session` proved against a function on `State`
 * (`AfterEndCall`, `AfterIncomingCall`, ...); the properties of the handlers are
 * stated and proved on those functions. An `async` handler is split into one
 * step per `await`: each step returns where the handler stands (`Phase`), and
 * whatever the awaited browser work produced (getUserMedia, the SDP calls, the
 * user-info fetch, `addIceCandidate`) is a parameter of the step that resumes
 * after it. Other events can run between any two steps.
 */
module CallSession {
  import opened Values
  import opened Strings
  import Relay

  /** What the peer's `onicecandidate` addresses: `currentChatUser` read when it fires (caller), or the caller's `data.from` (callee). */
  datatype CandidateTarget = ChatUser | Caller(to: Option<Json>)

  datatype Peer =
    | NoPeer
    | Peer(remoteSet: bool, applied: seq<Json>, target: CandidateTarget)

  /** `otherUserInfo`. */
  datatype UserInfo = UserInfo(name: Json, photo: string)

  /** The module-level call state of the page, plus what it has emitted on the socket. */
  datatype CallState = CallState(
    chatUser: Json,            // currentChatUser
    isCallActive: bool,
    callType: Json,            // currentCallType
    callTo: Json,              // currentCallTo
    incoming: Option<Payload>, // incomingCallData
    other: Option<UserInfo>,   // otherUserInfo
    queue: seq<Json>,          // iceCandidatesQueue
    peer: Peer,                // peerConnection
    ringing: bool,             // ringtone and incoming-call modal
    emitted: seq<Relay.Message>)

  const Initial: CallState := CallState(Null, false, Null, Null, None, None, [], NoPeer, false, [])

  /** `data.key` where `undefined` is read as the falsy `Null`. */
  function FieldOrNull(data: Payload, key: string): (r: Json)
    ensures key in data ==> r == data[key]
    ensures key !in data ==> r == Null
  {
    if key in data then data[key] else Null
  }

  /** An object literal with a `to` field that is dropped when its value is `undefined`. */
  function Addressed(to: Option<Json>, fields: Payload): (r: Payload)
    requires "to" !in fields
    ensures r - {"to"} == fields
    ensures ("to" in r) <==> to.Some?
    ensures to.Some? ==> r["to"] == to.value
  {
    if to.Some? then fields["to" := to.value] else fields
  }

  // ---------- fetchOtherUserInfo ----------

  const Placeholder: string := "https://via.placeholder.com/150"

  /** The profile photo URL: backslashes become `/`, one leading `backend/` is dropped, and `/backend/` is put in front. */
  function PhotoUrl(profilePhoto: string): (r: string)
    ensures StartsWith(r, "/backend/") && '\\' !in r
    ensures StartsWith(Slashes(profilePhoto), "backend/") ==> r == "/" + Slashes(profilePhoto)
    ensures !StartsWith(Slashes(profilePhoto), "backend/") ==> r == "/backend/" + Slashes(profilePhoto)
  {
    var clean := Slashes(profilePhoto);
    var rest := StripPrefix(clean, "backend/");
    var r := "/backend/" + rest;
    assert r[..9] == "/backend/";
    r
  }

  /** A photo stored as `backend/...` and one stored without that prefix give the same URL. */
  lemma PhotoUrlPrefixInsensitive(p: string)
    requires '\\' !in p
    ensures PhotoUrl("backend/" + p) == PhotoUrl(p) || StartsWith(p, "backend/")
  {
    SlashesNoOp(p);
    var q := "backend/" + p;
    assert '\\' !in q by {
      assert forall i :: 0 <= i < |q| ==> q[i] == if i < 8 then "backend/"[i] else p[i - 8];
    }
    SlashesNoOp(q);
    assert q[..8] == "backend/";
    assert q[8..] == p;
  }

  /**
   * The user-info response, or None when the fetch or the JSON parse failed.
   * A failure, and a truthy photo that is not a string (its `replace` throws),
   * give the `Unknown` placeholder.
   */
  function FetchedUserInfo(response: Option<Payload>): (r: UserInfo)
    ensures response.None? ==> r == UserInfo(Str("Unknown"), Placeholder)
    ensures r.photo == Placeholder || (StartsWith(r.photo, "/backend/") && '\\' !in r.photo)
    ensures response.Some? && !TruthyOpt(Field(response.value, "profilePhoto")) ==>
      r == UserInfo(FieldOrNull(response.value, "name"), Placeholder)
    ensures response.Some? && FieldOrNull(response.value, "profilePhoto").Str? && TruthyOpt(Field(response.value, "profilePhoto")) ==>
      r == UserInfo(FieldOrNull(response.value, "name"), PhotoUrl(response.value["profilePhoto"].s))
    ensures response.Some? && TruthyOpt(Field(response.value, "profilePhoto")) && !FieldOrNull(response.value, "profilePhoto").Str? ==>
      r == UserInfo(Str("Unknown"), Placeholder)
  {
    match response
    case None => UserInfo(Str("Unknown"), Placeholder)
    case Some(info) =>
      var photo := FieldOrNull(info, "profilePhoto");
      if !Truthy(photo) then UserInfo(FieldOrNull(info, "name"), Placeholder)
      else if photo.Str? then UserInfo(FieldOrNull(info, "name"), PhotoUrl(photo.s))
      else UserInfo(Str("Unknown"), Placeholder)
  }

  // ---------- the handlers, as functions on the state ----------

  /** The notification `endCall` sends, if any: `callEnded` for a live call, `cancelCall` otherwise. */
  function HangUpNotice(s: CallState, me: Json, skipNotify: bool): (r: seq<Relay.Message>)
    ensures |r| <= 1
    ensures |r| == 1 <==> !skipNotify && Truthy(s.callTo)
    ensures |r| == 1 ==> r[0].payload == map["to" := s.callTo, "from" := me]
    ensures |r| == 1 ==> (r[0].event == "callEnded" <==> s.isCallActive) && (r[0].event == "cancelCall" <==> !s.isCallActive)
  {
    if !skipNotify && Truthy(s.callTo) then
      [Relay.Message(if s.isCallActive then "callEnded" else "cancelCall", map["to" := s.callTo, "from" := me])]
    else []
  }

  /** `endCall(skipNotify)`: stop ringing, drop the peer and the queue, notify the other side, reset the call fields. */
  function AfterEndCall(s: CallState, me: Json, skipNotify: bool): (r: CallState)
    ensures !r.isCallActive && r.callType == Null && r.callTo == Null && r.other.None?
    ensures r.queue == [] && r.peer.NoPeer? && !r.ringing
    ensures r.chatUser == s.chatUser && r.incoming == s.incoming
    ensures r.emitted == s.emitted + HangUpNotice(s, me, skipNotify)
  {
    s.(ringing := false, peer := NoPeer, queue := [],
       emitted := s.emitted + HangUpNotice(s, me, skipNotify),
       isCallActive := false, callType := Null, callTo := Null, other := None)
  }

  /** `loadChatHistory(userId)`: the chat partner becomes `userId`. */
  function AfterLoadChatHistory(s: CallState, userId: Json): (r: CallState)
    ensures r.chatUser == userId && r == s.(chatUser := userId)
  {
    s.(chatUser := userId)
  }

  /** Where an interrupted handler stands after one of its steps: waiting on an await, returned, or ended by its `catch`. */
  datatype Phase = Awaiting | Finished | Aborted

  /** The page state after a step, and where the handler stands. */
  datatype Step = Step(state: CallState, phase: Phase)

  /**
   * A call on the peer connection read from the global at that moment (the
   * `setLocalDescription` after `createOffer`, `createAnswer`, `setLocalDescription`
   * after it): a failed await, or a peer that was closed meanwhile, throws and the
   * handler's `catch` ends the call.
   */
  function CallOnPeer(s: CallState, me: Json, ok: bool): (r: Step)
    ensures !ok || s.peer.NoPeer? ==> r == Step(AfterEndCall(s, me, false), Aborted)
    ensures ok && s.peer.Peer? ==> r == Step(s, Awaiting)
  {
    if !ok || s.peer.NoPeer? then Step(AfterEndCall(s, me, false), Aborted) else Step(s, Awaiting)
  }

  // ---------- initiateCall, split at its awaits ----------

  /** The `callUser` offer sent to the chat partner. */
  function OfferMessage(to: Json, me: Json, callType: Json, offer: Json): Relay.Message
  {
    Relay.Message("callUser", map["to" := to, "from" := me, "callType" := callType, "offer" := offer])
  }

  /**
   * `initiateCall(type)` up to `await fetchOtherUserInfo`: without a chat partner or
   * during a call it returns with nothing changed; otherwise it records the call's
   * type and target and waits.
   */
  function AfterInitiateCall(s: CallState, callType: Json): (r: Step)
    ensures !Truthy(s.chatUser) || s.isCallActive ==> r == Step(s, Finished)
    ensures Truthy(s.chatUser) && !s.isCallActive ==>
      r.phase == Awaiting && r.state == s.(callType := callType, callTo := s.chatUser)
  {
    if !Truthy(s.chatUser) || s.isCallActive then Step(s, Finished)
    else Step(s.(callType := callType, callTo := s.chatUser), Awaiting)
  }

  /** `fetchOtherUserInfo` settles: the other side's name and photo are recorded, and nothing else changes. */
  function AfterUserInfo(s: CallState, response: Option<Payload>): (r: CallState)
    ensures r.other == Some(FetchedUserInfo(response))
    ensures r.(other := s.other) == s
  {
    s.(other := Some(FetchedUserInfo(response)))
  }

  /**
   * `getUserMedia` (and the local preview's `play`) settles at the caller: a
   * failure ends the call, otherwise the peer is created and `createOffer` awaited.
   */
  function AfterCallerMedia(s: CallState, me: Json, ok: bool): (r: Step)
    ensures !ok ==> r == Step(AfterEndCall(s, me, false), Aborted)
    ensures ok ==> r.phase == Awaiting && r.state == s.(peer := Peer(false, [], ChatUser))
  {
    if !ok then Step(AfterEndCall(s, me, false), Aborted)
    else Step(s.(peer := Peer(false, [], ChatUser)), Awaiting)
  }

  /**
   * `setLocalDescription(offer)` settles: the offer is sent to whoever is the chat
   * partner now, with the type this `initiateCall` was given.
   */
  function AfterOfferSet(s: CallState, me: Json, callType: Json, ok: bool, offer: Json): (r: Step)
    ensures !ok ==> r == Step(AfterEndCall(s, me, false), Aborted)
    ensures ok ==>
      r.phase == Finished && r.state == s.(emitted := s.emitted + [OfferMessage(s.chatUser, me, callType, offer)])
  {
    if !ok then Step(AfterEndCall(s, me, false), Aborted)
    else Step(s.(emitted := s.emitted + [OfferMessage(s.chatUser, me, callType, offer)]), Finished)
  }

  // ---------- the callee ----------

  /** The `answerCall` reply to an offer in `data`. */
  function AnswerMessage(data: Payload, me: Json, fields: Payload): Relay.Message
    requires "to" !in fields
  {
    Relay.Message("answerCall", Addressed(Field(data, "from"), fields["from" := me]))
  }

  function Rejection(data: Payload, me: Json): Relay.Message
  {
    AnswerMessage(data, me, map["answer" := Str("rejected")])
  }

  /**
   * `handleIncomingCall(data)` up to `await fetchOtherUserInfo`: a busy callee
   * rejects at once and changes nothing else; otherwise the call's data, type and
   * caller are recorded.
   */
  function AfterIncomingCall(s: CallState, me: Json, data: Payload): (r: Step)
    ensures s.isCallActive ==> r == Step(s.(emitted := s.emitted + [Rejection(data, me)]), Finished)
    ensures !s.isCallActive ==>
      r.phase == Awaiting && r.state.emitted == s.emitted && r.state.incoming == Some(data) &&
      r.state.callTo == FieldOrNull(data, "from") && r.state.callType == FieldOrNull(data, "callType") &&
      r.state.peer == s.peer && r.state.queue == s.queue && !r.state.isCallActive && r.state.ringing == s.ringing
  {
    if s.isCallActive then Step(s.(emitted := s.emitted + [Rejection(data, me)]), Finished)
    else Step(s.(incoming := Some(data), callType := FieldOrNull(data, "callType"), callTo := FieldOrNull(data, "from")), Awaiting)
  }

  /** The caller's info has arrived: it is recorded and the call rings. */
  function AfterIncomingUserInfo(s: CallState, response: Option<Payload>): (r: CallState)
    ensures r.ringing && r.other == Some(FetchedUserInfo(response))
    ensures r.(ringing := s.ringing, other := s.other) == s
  {
    s.(other := Some(FetchedUserInfo(response)), ringing := true)
  }

  /** The decline button: stop ringing and reject; the call fields stay as they are. */
  function AfterDecline(s: CallState, me: Json, data: Payload): (r: CallState)
    ensures r == s.(ringing := false, emitted := s.emitted + [Rejection(data, me)])
    ensures !r.ringing && r.isCallActive == s.isCallActive
  {
    s.(ringing := false, emitted := s.emitted + [Rejection(data, me)])
  }

  /** The answer button: the ringing stops and `answerCall(data)` awaits `getUserMedia`. */
  function AfterAnswerClicked(s: CallState): (r: CallState)
    ensures !r.ringing && r.(ringing := s.ringing) == s
  {
    s.(ringing := false)
  }

  /**
   * `getUserMedia` (and the preview) settles at the callee: a failure ends the call;
   * otherwise the peer is created, addressing its candidates to `data.from`, and
   * `setRemoteDescription(offer)` is awaited.
   */
  function AfterAnswerMedia(s: CallState, me: Json, data: Payload, ok: bool): (r: Step)
    ensures !ok ==> r == Step(AfterEndCall(s, me, false), Aborted)
    ensures ok ==> r.phase == Awaiting && r.state == s.(peer := Peer(false, [], Caller(Field(data, "from"))))
  {
    if !ok then Step(AfterEndCall(s, me, false), Aborted)
    else Step(s.(peer := Peer(false, [], Caller(Field(data, "from")))), Awaiting)
  }

  /**
   * `setLocalDescription(answer)` settles: the `accepted` answer goes to the caller
   * and the call is active. It does not look at the peer again.
   */
  function AfterAnswerSet(s: CallState, me: Json, data: Payload, ok: bool, answer: Json): (r: Step)
    ensures !ok ==> r == Step(AfterEndCall(s, me, false), Aborted)
    ensures ok ==>
      r.phase == Finished && r.state == s.(emitted := s.emitted + [AnswerMessage(data, me, map["answer" := Str("accepted"), "answerSDP" := answer])],
                    isCallActive := true)
  {
    if !ok then Step(AfterEndCall(s, me, false), Aborted)
    else Step(s.(emitted := s.emitted + [AnswerMessage(data, me, map["answer" := Str("accepted"), "answerSDP" := answer])],
                 isCallActive := true), Finished)
  }

  // ---------- the caller receives the answer ----------

  /**
   * `handleCallAnswered(data)` up to `await setRemoteDescription`: `rejected` ends the
   * call; `accepted` with a truthy SDP awaits the remote description, or ends the
   * call when there is no peer to set it on; anything else is ignored.
   */
  function AfterCallAnswered(s: CallState, me: Json, data: Payload): (r: Step)
    ensures FieldOrNull(data, "answer") == Str("rejected") ==> r == Step(AfterEndCall(s, me, false), Finished)
    ensures FieldOrNull(data, "answer") == Str("accepted") && TruthyOpt(Field(data, "answerSDP")) ==>
      r == if s.peer.NoPeer? then Step(AfterEndCall(s, me, false), Aborted) else Step(s, Awaiting)
    ensures (FieldOrNull(data, "answer") != Str("rejected") &&
             !(FieldOrNull(data, "answer") == Str("accepted") && TruthyOpt(Field(data, "answerSDP")))) ==> r == Step(s, Finished)
  {
    var answer := FieldOrNull(data, "answer");
    if answer == Str("rejected") then Step(AfterEndCall(s, me, false), Finished)
    else if answer == Str("accepted") && TruthyOpt(Field(data, "answerSDP")) then
      if s.peer.NoPeer? then Step(AfterEndCall(s, me, false), Aborted) else Step(s, Awaiting)
    else Step(s, Finished)
  }

  /** The caller's flush has finished: the call is active. */
  function AfterCallerFlush(s: CallState): (r: CallState)
    ensures r.isCallActive && r.(isCallActive := s.isCallActive) == s
  {
    s.(isCallActive := true)
  }

  // ---------- the queued candidates, flushed one await at a time ----------

  /** The peer with its remote description set; without a peer nothing changes. */
  function Described(s: CallState): (r: CallState)
    ensures s.peer.NoPeer? ==> r == s
    ensures s.peer.Peer? ==> r.peer == s.peer.(remoteSet := true) && r.(peer := s.peer) == s
  {
    if s.peer.Peer? then s.(peer := s.peer.(remoteSet := true)) else s
  }

  /**
   * The flush loop at position `next` of the array it iterates: past the end the
   * queue is emptied (when the loop ran at all); otherwise the candidate is handed
   * to the peer read now, and a closed peer throws into the `catch`.
   */
  function FlushFrom(s: CallState, me: Json, pending: seq<Json>, next: nat): (r: Step)
    requires next <= |pending|
    ensures next == |pending| ==> r == Step(if pending == [] then s else s.(queue := []), Finished)
    ensures next < |pending| && s.peer.NoPeer? ==> r == Step(AfterEndCall(s, me, false), Aborted)
    ensures next < |pending| && s.peer.Peer? ==>
      r == Step(s.(peer := s.peer.(applied := s.peer.applied + [pending[next]])), Awaiting)
  {
    if next == |pending| then Step(if pending == [] then s else s.(queue := []), Finished)
    else if s.peer.NoPeer? then Step(AfterEndCall(s, me, false), Aborted)
    else Step(s.(peer := s.peer.(applied := s.peer.applied + [pending[next]])), Awaiting)
  }

  /**
   * `setRemoteDescription` settles, at either side: a failure ends the call;
   * otherwise the description is set and the loop starts over the queue as it is now.
   */
  function AfterRemoteDescription(s: CallState, me: Json, ok: bool): (r: Step)
    ensures !ok ==> r == Step(AfterEndCall(s, me, false), Aborted)
    ensures ok ==> r == FlushFrom(Described(s), me, s.queue, 0)
  {
    if !ok then Step(AfterEndCall(s, me, false), Aborted)
    else FlushFrom(Described(s), me, s.queue, 0)
  }

  /** The `addIceCandidate` of `pending[next - 1]` settles: a failure ends the call, otherwise the loop goes on at `next`. */
  function AfterFlushedCandidate(s: CallState, me: Json, pending: seq<Json>, next: nat, ok: bool): (r: Step)
    requires 0 < next <= |pending|
    ensures !ok ==> r == Step(AfterEndCall(s, me, false), Aborted)
    ensures ok ==> r == FlushFrom(s, me, pending, next)
  {
    if !ok then Step(AfterEndCall(s, me, false), Aborted) else FlushFrom(s, me, pending, next)
  }

  /**
   * The socket's `iceCandidate` handler: without a peer, or without a truthy
   * candidate, nothing happens; before the remote description the candidate is
   * queued, after it the candidate is applied.
   */
  function AfterRemoteCandidate(s: CallState, data: Payload): (r: CallState)
    ensures r.emitted == s.emitted && r.isCallActive == s.isCallActive
    ensures !(s.peer.Peer? && TruthyOpt(Field(data, "candidate"))) ==> r == s
    ensures s.peer.Peer? && TruthyOpt(Field(data, "candidate")) && !s.peer.remoteSet ==>
      r == s.(queue := s.queue + [data["candidate"]])
    ensures s.peer.Peer? && TruthyOpt(Field(data, "candidate")) && s.peer.remoteSet ==>
      r == s.(peer := s.peer.(applied := s.peer.applied + [data["candidate"]]))
  {
    var c := Field(data, "candidate");
    if s.peer.NoPeer? || !TruthyOpt(c) then s
    else if s.peer.remoteSet then s.(peer := s.peer.(applied := s.peer.applied + [c.value]))
    else s.(queue := s.queue + [c.value])
  }

  /** The peer's `onicecandidate`: a truthy local candidate is sent to the peer's target. */
  function AfterLocalCandidate(s: CallState, candidate: Json): (r: CallState)
    ensures !(s.peer.Peer? && Truthy(candidate)) ==> r == s
    ensures s.peer.Peer? && Truthy(candidate) ==>
      r == s.(emitted := s.emitted + [Relay.Message("iceCandidate", Addressed(TargetOf(s), map["candidate" := candidate]))])
  {
    if s.peer.Peer? && Truthy(candidate) then
      s.(emitted := s.emitted + [Relay.Message("iceCandidate", Addressed(TargetOf(s), map["candidate" := candidate]))])
    else s
  }

  /** Where the peer's local candidates go. */
  function TargetOf(s: CallState): (r: Option<Json>)
    requires s.peer.Peer?
    ensures s.peer.target == ChatUser ==> r == Some(s.chatUser)
    ensures s.peer.target.Caller? ==> r == s.peer.target.to
  {
    match s.peer.target
    case ChatUser => Some(s.chatUser)
    case Caller(to) => to
  }

  datatype ConnectionState = Connected | Failed | OtherConnectionState

  /** The peer's `onconnectionstatechange`: `connected` makes the call active, `failed` ends it. */
  function AfterConnectionState(s: CallState, me: Json, state: ConnectionState): (r: CallState)
    ensures s.peer.NoPeer? || state == OtherConnectionState ==> r == s
    ensures s.peer.Peer? && state == Connected ==> r == s.(isCallActive := true)
    ensures s.peer.Peer? && state == Failed ==> r == AfterEndCall(s, me, false)
  {
    if s.peer.NoPeer? then s
    else match state
      case Connected => s.(isCallActive := true)
      case Failed => AfterEndCall(s, me, false)
      case OtherConnectionState => s
  }

  /** The socket's `callEnded` handler: tears down a live call without notifying back; otherwise nothing. */
  function AfterRemoteCallEnded(s: CallState, me: Json): (r: CallState)
    ensures r.emitted == s.emitted
    ensures s.isCallActive ==> r == AfterEndCall(s, me, true)
    ensures !s.isCallActive ==> r == s
  {
    if s.isCallActive then AfterEndCall(s, me, true) else s
  }

  /** The socket's `callCancelled` handler: only the ringing stops. */
  function AfterCallCancelled(s: CallState): (r: CallState)
    ensures r == s.(ringing := false)
  {
    s.(ringing := false)
  }

  // ---------- properties over several events ----------

  /** A run of remote candidates, as the relay delivers them (`{candidate}` only). */
  function ReceiveCandidates(s: CallState, cs: seq<Json>): CallState
    decreases |cs|
  {
    if cs == [] then s else ReceiveCandidates(AfterRemoteCandidate(s, map["candidate" := cs[0]]), cs[1..])
  }

  /** Before the remote description is set, arriving candidates join the end of the queue in arrival order. */
  lemma {:induction false} QueuedInArrivalOrder(s: CallState, cs: seq<Json>)
    requires s.peer.Peer? && !s.peer.remoteSet
    requires forall i :: 0 <= i < |cs| ==> Truthy(cs[i])
    ensures ReceiveCandidates(s, cs) == s.(queue := s.queue + cs)
    decreases |cs|
  {
    if cs != [] {
      var s1 := AfterRemoteCandidate(s, map["candidate" := cs[0]]);
      assert s1 == s.(queue := s.queue + [cs[0]]);
      QueuedInArrivalOrder(s1, cs[1..]);
      assert s.queue + [cs[0]] + cs[1..] == s.queue + cs;
    }
  }

  /** After the remote description is set, arriving candidates are applied in arrival order. */
  lemma {:induction false} AppliedInArrivalOrder(s: CallState, cs: seq<Json>)
    requires s.peer.Peer? && s.peer.remoteSet
    requires forall i :: 0 <= i < |cs| ==> Truthy(cs[i])
    ensures ReceiveCandidates(s, cs) == s.(peer := s.peer.(applied := s.peer.applied + cs))
    decreases |cs|
  {
    if cs != [] {
      var s1 := AfterRemoteCandidate(s, map["candidate" := cs[0]]);
      assert s1 == s.(peer := s.peer.(applied := s.peer.applied + [cs[0]]));
      AppliedInArrivalOrder(s1, cs[1..]);
      assert s.peer.applied + [cs[0]] + cs[1..] == s.peer.applied + cs;
    }
  }

  /** Without a peer every candidate is dropped. */
  lemma {:induction false} DroppedWithoutPeer(s: CallState, cs: seq<Json>)
    requires s.peer.NoPeer?
    ensures ReceiveCandidates(s, cs) == s
    decreases |cs|
  {
    if cs != [] {
      DroppedWithoutPeer(AfterRemoteCandidate(s, map["candidate" := cs[0]]), cs[1..]);
    }
  }

  /** Candidates of a call that has ended never reach the queue of the next one. */
  lemma LateCandidatesDoNotLeak(s: CallState, me: Json, skipNotify: bool, cs: seq<Json>)
    ensures ReceiveCandidates(AfterEndCall(s, me, skipNotify), cs).queue == []
  {
    DroppedWithoutPeer(AfterEndCall(s, me, skipNotify), cs);
  }

  /** What reaches the page while the flush loop waits on an `addIceCandidate`: that await settling, or a remote candidate. */
  datatype FlushEvent = Resumed | Late(candidate: Json)

  /**
   * The flush loop waiting on the candidate before `next`, run against the events
   * that reach the page meanwhile, until it finishes or the events run out. Every
   * await settles successfully.
   */
  function RunFlush(s: CallState, me: Json, pending: seq<Json>, next: nat, events: seq<FlushEvent>): (r: Step)
    requires 0 < next <= |pending|
    decreases |events|
  {
    if events == [] then Step(s, Awaiting)
    else match events[0]
      case Late(c) => RunFlush(AfterRemoteCandidate(s, map["candidate" := c]), me, pending, next, events[1..])
      case Resumed =>
        var st := AfterFlushedCandidate(s, me, pending, next, true);
        if st.phase == Awaiting then RunFlush(st.state, me, pending, next + 1, events[1..]) else st
  }

  /**
   * The order the peer is handed candidates in while the loop runs from `next`: a
   * late candidate when it arrives, the next queued one whenever an await settles.
   */
  function Interleaved(pending: seq<Json>, next: nat, events: seq<FlushEvent>): seq<Json>
    requires next <= |pending|
    decreases |events|
  {
    if events == [] then []
    else match events[0]
      case Late(c) => [c] + Interleaved(pending, next, events[1..])
      case Resumed => if next < |pending| then [pending[next]] + Interleaved(pending, next + 1, events[1..]) else []
  }

  /**
   * While the queue is flushed, late candidates are applied at once, between the
   * queued ones: the peer receives exactly the `Interleaved` order, and nothing is
   * emitted. A finished loop leaves the queue empty.
   */
  lemma {:induction false} FlushInterleaves(s: CallState, me: Json, pending: seq<Json>, next: nat, events: seq<FlushEvent>)
    requires 0 < next <= |pending|
    requires s.peer.Peer? && s.peer.remoteSet
    requires forall i :: 0 <= i < |events| && events[i].Late? ==> Truthy(events[i].candidate)
    ensures var r := RunFlush(s, me, pending, next, events);
      r.phase != Aborted && r.state.peer.Peer? && r.state.peer.remoteSet &&
      r.state.peer.applied == s.peer.applied + Interleaved(pending, next, events) &&
      r.state.emitted == s.emitted && (r.phase == Finished ==> r.state.queue == [])
    decreases |events|
  {
    if events != [] {
      var rest := events[1..];
      LateTruthyTail(events);
      assert events == [events[0]] + rest;
      match events[0]
      case Late(c) =>
        var s1 := AfterRemoteCandidate(s, map["candidate" := c]);
        RunFlushLate(s, me, pending, next, c, rest);
        FlushInterleaves(s1, me, pending, next, rest);
        assert s.peer.applied + [c] + Interleaved(pending, next, rest) == s.peer.applied + Interleaved(pending, next, events);
      case Resumed =>
        RunFlushResumed(s, me, pending, next, rest);
        if next < |pending| {
          var s1 := s.(peer := s.peer.(applied := s.peer.applied + [pending[next]]));
          FlushInterleaves(s1, me, pending, next + 1, rest);
          assert s.peer.applied + [pending[next]] + Interleaved(pending, next + 1, rest) ==
                 s.peer.applied + Interleaved(pending, next, events);
        }
    }
  }

  lemma RunFlushLate(s: CallState, me: Json, pending: seq<Json>, next: nat, c: Json, rest: seq<FlushEvent>)
    requires 0 < next <= |pending| && s.peer.Peer? && s.peer.remoteSet && Truthy(c)
    ensures AfterRemoteCandidate(s, map["candidate" := c]) == s.(peer := s.peer.(applied := s.peer.applied + [c]))
    ensures RunFlush(s, me, pending, next, [Late(c)] + rest) ==
            RunFlush(AfterRemoteCandidate(s, map["candidate" := c]), me, pending, next, rest)
    ensures Interleaved(pending, next, [Late(c)] + rest) == [c] + Interleaved(pending, next, rest)
  {
    assert ([Late(c)] + rest)[1..] == rest;
  }

  lemma RunFlushResumed(s: CallState, me: Json, pending: seq<Json>, next: nat, rest: seq<FlushEvent>)
    requires 0 < next <= |pending| && s.peer.Peer?
    ensures next < |pending| ==>
      RunFlush(s, me, pending, next, [Resumed] + rest) ==
        RunFlush(s.(peer := s.peer.(applied := s.peer.applied + [pending[next]])), me, pending, next + 1, rest) &&
      Interleaved(pending, next, [Resumed] + rest) == [pending[next]] + Interleaved(pending, next + 1, rest)
    ensures next == |pending| ==>
      RunFlush(s, me, pending, next, [Resumed] + rest) == Step(s.(queue := []), Finished) &&
      Interleaved(pending, next, [Resumed] + rest) == []
  {
    assert ([Resumed] + rest)[1..] == rest;
  }

  lemma LateTruthyTail(events: seq<FlushEvent>)
    requires events != []
    requires forall i :: 0 <= i < |events| && events[i].Late? ==> Truthy(events[i].candidate)
    ensures forall i :: 0 <= i < |events[1..]| && events[1..][i].Late? ==> Truthy(events[1..][i].candidate)
  {
    forall i | 0 <= i < |events[1..]| && events[1..][i].Late? ensures Truthy(events[1..][i].candidate) {
      assert events[1..][i] == events[i + 1];
    }
  }

  /** `n` awaits settling, with nothing else reaching the page. */
  function Resumes(n: nat): (r: seq<FlushEvent>)
    ensures |r| == n && forall i :: 0 <= i < n ==> r[i] == Resumed
  {
    if n == 0 then [] else [Resumed] + Resumes(n - 1)
  }

  /** With nothing arriving meanwhile, the loop hands the peer the rest of the array in order and finishes. */
  lemma {:induction false} UninterruptedFlush(s: CallState, me: Json, pending: seq<Json>, next: nat)
    requires 0 < next <= |pending|
    requires s.peer.Peer? && s.peer.remoteSet
    ensures var r := RunFlush(s, me, pending, next, Resumes(|pending| - next + 1));
      r.phase == Finished && Interleaved(pending, next, Resumes(|pending| - next + 1)) == pending[next..]
    decreases |pending| - next
  {
    var evs := Resumes(|pending| - next + 1);
    assert evs[0] == Resumed;
    if next < |pending| {
      assert evs[1..] == Resumes(|pending| - (next + 1) + 1);
      var s1 := s.(peer := s.peer.(applied := s.peer.applied + [pending[next]]));
      UninterruptedFlush(s1, me, pending, next + 1);
      assert pending[next..] == [pending[next]] + pending[next + 1..];
    }
  }

  /**
   * The caller's queue is `[c1, c2]` when the answer's description is set. While
   * `c1` is being added a third candidate `c3` arrives: the peer receives
   * `c1, c3, c2`, so a late candidate overtakes a queued one.
   */
  lemma LateCandidateOvertakesQueue(s: CallState, me: Json, c1: Json, c2: Json, c3: Json)
    requires s.peer.Peer? && !s.peer.remoteSet && s.peer.applied == [] && s.queue == [c1, c2]
    requires Truthy(c3)
    ensures var b := AfterRemoteDescription(s, me, true);
      b.phase == Awaiting &&
      var r := RunFlush(b.state, me, [c1, c2], 1, [Late(c3), Resumed, Resumed]);
      r.phase == Finished && r.state.peer.Peer? && r.state.peer.applied == [c1, c3, c2] && r.state.queue == []
  {
    var b := AfterRemoteDescription(s, me, true);
    assert b.state.peer.applied == [c1];
    var evs := [Late(c3), Resumed, Resumed];
    assert evs[1..] == [Resumed, Resumed] && evs[1..][1..] == [Resumed] && evs[1..][1..][1..] == [];
    FlushInterleaves(b.state, me, [c1, c2], 1, evs);
    assert Interleaved([c1, c2], 2, [Resumed]) == [];
    assert Interleaved([c1, c2], 1, [Resumed, Resumed]) == [c2];
    assert Interleaved([c1, c2], 1, evs) == [c3, c2];
    var s1 := AfterRemoteCandidate(b.state, map["candidate" := c3]);
    var st := AfterFlushedCandidate(s1, me, [c1, c2], 1, true);
    assert st.phase == Awaiting;
    assert AfterFlushedCandidate(st.state, me, [c1, c2], 2, true).phase == Finished;
  }

  /**
   * The caller hangs up while the answer's description is being set, and the engine
   * settles it anyway: the queue was emptied by `endCall`, so the loop does not run,
   * and the call is marked active with no peer.
   */
  lemma LateDescriptionAfterHangUp(s: CallState, me: Json)
    requires s.peer.Peer? && !s.isCallActive
    ensures var e := AfterEndCall(s, me, false);
      var b := AfterRemoteDescription(e, me, true);
      b.phase == Finished && AfterCallerFlush(b.state).isCallActive && AfterCallerFlush(b.state).peer.NoPeer?
  {
  }

  /**
   * At the caller, with nothing else happening in between: candidates that arrive
   * before the answer are queued; the accepted answer sets the description, applies
   * them in arrival order, empties the queue and makes the call active.
   */
  lemma CallerFlushesInOrder(s: CallState, me: Json, cs: seq<Json>, data: Payload)
    requires s.peer == Peer(false, [], ChatUser) && s.queue == [] && cs != []
    requires forall i :: 0 <= i < |cs| ==> Truthy(cs[i])
    requires FieldOrNull(data, "answer") == Str("accepted") && TruthyOpt(Field(data, "answerSDP"))
    ensures var a := AfterCallAnswered(ReceiveCandidates(s, cs), me, data);
      var b := AfterRemoteDescription(a.state, me, true);
      a.phase == Awaiting && b.phase == Awaiting &&
      var c := RunFlush(b.state, me, cs, 1, Resumes(|cs|));
      var r := AfterCallerFlush(c.state);
      c.phase == Finished && r.isCallActive && r.queue == [] && r.peer.Peer? && r.peer.applied == cs &&
      r.peer.remoteSet && r.emitted == s.emitted
  {
    QueuedInArrivalOrder(s, cs);
    QueueFlushed(AfterCallAnswered(ReceiveCandidates(s, cs), me, data).state, me, cs);
  }

  /**
   * At the callee, with nothing else happening in between: candidates that arrive
   * while the media is being set up are applied in order once the offer is set,
   * and then the accepted answer is sent and the call is active.
   */
  lemma CalleeFlushesInOrder(s: CallState, me: Json, data: Payload, cs: seq<Json>, answer: Json)
    requires s.queue == [] && cs != []
    requires forall i :: 0 <= i < |cs| ==> Truthy(cs[i])
    ensures var a := AfterAnswerMedia(AfterAnswerClicked(s), me, data, true);
      var b := AfterRemoteDescription(ReceiveCandidates(a.state, cs), me, true);
      a.phase == Awaiting && b.phase == Awaiting &&
      var c := RunFlush(b.state, me, cs, 1, Resumes(|cs|));
      var d := CallOnPeer(c.state, me, true);
      var e := CallOnPeer(d.state, me, true);
      var f := AfterAnswerSet(e.state, me, data, true, answer);
      c.phase == Finished && d.phase == Awaiting && e.phase == Awaiting && f.phase == Finished &&
      f.state.isCallActive && f.state.queue == [] && f.state.peer.Peer? && f.state.peer.applied == cs &&
      f.state.emitted == s.emitted + [AnswerMessage(data, me, map["answer" := Str("accepted"), "answerSDP" := answer])]
  {
    var a := AfterAnswerMedia(AfterAnswerClicked(s), me, data, true);
    QueuedInArrivalOrder(a.state, cs);
    QueueFlushed(ReceiveCandidates(a.state, cs), me, cs);
  }

  /** A queue `cs` flushed with nothing arriving meanwhile reaches the peer as `cs`, and the queue is emptied. */
  lemma {:induction false} QueueFlushed(q: CallState, me: Json, cs: seq<Json>)
    requires q.peer.Peer? && q.peer.applied == [] && q.queue == cs && cs != []
    ensures var b := AfterRemoteDescription(q, me, true);
      b.phase == Awaiting &&
      var c := RunFlush(b.state, me, cs, 1, Resumes(|cs|));
      c.phase == Finished && c.state.queue == [] && c.state.peer.Peer? && c.state.peer.remoteSet &&
      c.state.peer.applied == cs && c.state.emitted == q.emitted
  {
    var dq := Described(q);
    assert dq.peer.applied + [cs[0]] == [cs[0]];
    var d := dq.(peer := dq.peer.(applied := [cs[0]]));
    assert AfterRemoteDescription(q, me, true) == FlushFrom(dq, me, cs, 0) == Step(d, Awaiting);
    UninterruptedFlush(d, me, cs, 1);
    FlushInterleaves(d, me, cs, 1, Resumes(|cs|));
    assert [cs[0]] + cs[1..] == cs;
  }

  /**
   * Two clicks on the call button before the first one's user-info fetch settles:
   * both pass the guard, since the call is not active until it is answered, and
   * both send an offer to the chat partner.
   */
  lemma TwoClicksSendTwoOffers(s: CallState, me: Json, t1: Json, t2: Json,
                               info1: Option<Payload>, info2: Option<Payload>, o1: Json, o2: Json)
    requires Truthy(s.chatUser) && !s.isCallActive
    ensures var a1 := AfterInitiateCall(s, t1);
      var a2 := AfterInitiateCall(a1.state, t2);
      var m1 := AfterCallerMedia(AfterUserInfo(AfterUserInfo(a2.state, info1), info2), me, true);
      var m2 := AfterCallerMedia(m1.state, me, true);
      var d1 := CallOnPeer(m2.state, me, true);
      var d2 := CallOnPeer(d1.state, me, true);
      var e1 := AfterOfferSet(d2.state, me, t1, true, o1);
      var e2 := AfterOfferSet(e1.state, me, t2, true, o2);
      a1.phase == Awaiting && a2.phase == Awaiting && e1.phase == Finished && e2.phase == Finished &&
      e2.state.emitted == s.emitted + [OfferMessage(s.chatUser, me, t1, o1), OfferMessage(s.chatUser, me, t2, o2)]
  {
  }

  /**
   * Opening another chat while the call is being set up: the offer goes to the new
   * chat partner, while the call's target (and so the hang-up notice) stays the first.
   */
  lemma OfferFollowsChatSwitch(s: CallState, me: Json, t: Json, info: Option<Payload>, other: Json, o: Json)
    requires Truthy(s.chatUser) && !s.isCallActive
    ensures var a := AfterInitiateCall(s, t);
      var m := AfterCallerMedia(AfterLoadChatHistory(AfterUserInfo(a.state, info), other), me, true);
      var e := AfterOfferSet(CallOnPeer(m.state, me, true).state, me, t, true, o);
      e.phase == Finished && e.state.callTo == s.chatUser &&
      e.state.emitted == s.emitted + [OfferMessage(other, me, t, o)]
  {
  }

  /** Ending a call twice notifies at most once: the second `endCall` finds no `currentCallTo`. */
  lemma EndCallIdempotent(s: CallState, me: Json, skip1: bool, skip2: bool)
    ensures AfterEndCall(AfterEndCall(s, me, skip1), me, skip2) == AfterEndCall(s, me, skip1)
  {
  }

  /**
   * Hanging up a live call: the side that hangs up sends `callEnded` to its peer,
   * and the peer, on receiving it, tears down without sending anything back.
   */
  lemma HangUpNotEchoed(caller: CallState, callee: CallState, me: Json)
    requires caller.isCallActive && Truthy(caller.callTo) && callee.isCallActive
    ensures var a := AfterEndCall(caller, me, false);
      a.emitted == caller.emitted + [Relay.Message("callEnded", map["to" := caller.callTo, "from" := me])]
    ensures var b := AfterRemoteCallEnded(callee, me);
      b.emitted == callee.emitted && !b.isCallActive && b.callTo == Null && b.peer.NoPeer?
  {
  }

  // ---------- the page state, updated in place ----------

  class Session {
    const me: Json // currentUserId
    var chatUser: Json
    var isCallActive: bool
    var callType: Json
    var callTo: Json
    var incoming: Option<Payload>
    var other: Option<UserInfo>
    var queue: seq<Json>
    var peer: Peer
    var ringing: bool
    var emitted: seq<Relay.Message>

    function State(): CallState
      reads this
    {
      CallState(chatUser, isCallActive, callType, callTo, incoming, other, queue, peer, ringing, emitted)
    }

    constructor(me: Json)
      ensures this.me == me && State() == Initial
    {
      this.me := me;
      chatUser := Null;
      isCallActive := false;
      callType := Null;
      callTo := Null;
      incoming := None;
      other := None;
      queue := [];
      peer := NoPeer;
      ringing := false;
      emitted := [];
    }

    method LoadChatHistory(userId: Json)
      modifies this
      ensures State() == AfterLoadChatHistory(old(State()), userId)
    {
      chatUser := userId;
    }

    method EndCall(skipNotify: bool)
      modifies this
      ensures State() == AfterEndCall(old(State()), me, skipNotify)
    {
      ringing := false;
      peer := NoPeer;
      queue := [];
      if !skipNotify && Truthy(callTo) {
        if isCallActive {
          emitted := emitted + [Relay.Message("callEnded", map["to" := callTo, "from" := me])];
        } else {
          emitted := emitted + [Relay.Message("cancelCall", map["to" := callTo, "from" := me])];
        }
      }
      isCallActive := false;
      callType := Null;
      callTo := Null;
      other := None;
    }

    /** A call on the current peer connection, after a step that settled with `ok`. */
    method OnPeerCall(ok: bool) returns (phase: Phase)
      modifies this
      ensures Step(State(), phase) == CallOnPeer(old(State()), me, ok)
    {
      if !ok || peer.NoPeer? {
        EndCall(false);
        return Aborted;
      }
      return Awaiting;
    }

    method InitiateCall(kind: Json) returns (phase: Phase)
      modifies this
      ensures Step(State(), phase) == AfterInitiateCall(old(State()), kind)
    {
      if !Truthy(chatUser) {
        return Finished;
      }
      if isCallActive {
        return Finished;
      }
      callType := kind;
      callTo := chatUser;
      return Awaiting;
    }

    method OnUserInfo(response: Option<Payload>)
      modifies this
      ensures State() == AfterUserInfo(old(State()), response)
    {
      other := Some(FetchedUserInfo(response));
    }

    method OnCallerMedia(ok: bool) returns (phase: Phase)
      modifies this
      ensures Step(State(), phase) == AfterCallerMedia(old(State()), me, ok)
    {
      if !ok {
        EndCall(false);
        return Aborted;
      }
      peer := Peer(false, [], ChatUser);
      return Awaiting;
    }

    method OnOfferSet(kind: Json, ok: bool, offer: Json) returns (phase: Phase)
      modifies this
      ensures Step(State(), phase) == AfterOfferSet(old(State()), me, kind, ok, offer)
    {
      if !ok {
        EndCall(false);
        return Aborted;
      }
      emitted := emitted + [OfferMessage(chatUser, me, kind, offer)];
      return Finished;
    }

    method HandleIncomingCall(data: Payload) returns (phase: Phase)
      modifies this
      ensures Step(State(), phase) == AfterIncomingCall(old(State()), me, data)
    {
      if isCallActive {
        emitted := emitted + [Rejection(data, me)];
        return Finished;
      }
      incoming := Some(data);
      callType := FieldOrNull(data, "callType");
      callTo := FieldOrNull(data, "from");
      return Awaiting;
    }

    method OnIncomingUserInfo(response: Option<Payload>)
      modifies this
      ensures State() == AfterIncomingUserInfo(old(State()), response)
    {
      other := Some(FetchedUserInfo(response));
      ringing := true;
    }

    method DeclineCall(data: Payload)
      modifies this
      ensures State() == AfterDecline(old(State()), me, data)
    {
      ringing := false;
      emitted := emitted + [Rejection(data, me)];
    }

    method AnswerCall()
      modifies this
      ensures State() == AfterAnswerClicked(old(State()))
    {
      ringing := false;
    }

    method OnAnswerMedia(data: Payload, ok: bool) returns (phase: Phase)
      modifies this
      ensures Step(State(), phase) == AfterAnswerMedia(old(State()), me, data, ok)
    {
      if !ok {
        EndCall(false);
        return Aborted;
      }
      peer := Peer(false, [], Caller(Field(data, "from")));
      return Awaiting;
    }

    method OnAnswerSet(data: Payload, ok: bool, answer: Json) returns (phase: Phase)
      modifies this
      ensures Step(State(), phase) == AfterAnswerSet(old(State()), me, data, ok, answer)
    {
      if !ok {
        EndCall(false);
        return Aborted;
      }
      emitted := emitted + [AnswerMessage(data, me, map["answer" := Str("accepted"), "answerSDP" := answer])];
      isCallActive := true;
      return Finished;
    }

    method HandleCallAnswered(data: Payload) returns (phase: Phase)
      modifies this
      ensures Step(State(), phase) == AfterCallAnswered(old(State()), me, data)
    {
      var answer := FieldOrNull(data, "answer");
      if answer == Str("rejected") {
        EndCall(false);
        return Finished;
      }
      if answer == Str("accepted") && TruthyOpt(Field(data, "answerSDP")) {
        if peer.NoPeer? {
          EndCall(false);
          return Aborted;
        }
        return Awaiting;
      }
      return Finished;
    }

    method OnCallerFlushed()
      modifies this
      ensures State() == AfterCallerFlush(old(State()))
    {
      isCallActive := true;
    }

    /** One pass of the flush loop's body at `next`, or its end. */
    method FlushAt(pending: seq<Json>, next: nat) returns (phase: Phase)
      requires next <= |pending|
      modifies this
      ensures Step(State(), phase) == FlushFrom(old(State()), me, pending, next)
    {
      if next == |pending| {
        if pending != [] {
          queue := [];
        }
        return Finished;
      }
      if peer.NoPeer? {
        EndCall(false);
        return Aborted;
      }
      peer := peer.(applied := peer.applied + [pending[next]]);
      return Awaiting;
    }

    /** `setRemoteDescription` settled; returns the array the flush loop iterates. */
    method OnRemoteDescription(ok: bool) returns (phase: Phase, pending: seq<Json>)
      modifies this
      ensures Step(State(), phase) == AfterRemoteDescription(old(State()), me, ok)
      ensures pending == old(queue)
    {
      pending := queue;
      if !ok {
        EndCall(false);
        return Aborted, pending;
      }
      if peer.Peer? {
        peer := peer.(remoteSet := true);
      }
      phase := FlushAt(pending, 0);
    }

    method OnFlushedCandidate(pending: seq<Json>, next: nat, ok: bool) returns (phase: Phase)
      requires 0 < next <= |pending|
      modifies this
      ensures Step(State(), phase) == AfterFlushedCandidate(old(State()), me, pending, next, ok)
    {
      if !ok {
        EndCall(false);
        return Aborted;
      }
      phase := FlushAt(pending, next);
    }

    method OnRemoteCandidate(data: Payload)
      modifies this
      ensures State() == AfterRemoteCandidate(old(State()), data)
    {
      if peer.Peer? && TruthyOpt(Field(data, "candidate")) {
        if peer.remoteSet {
          peer := peer.(applied := peer.applied + [data["candidate"]]);
        } else {
          queue := queue + [data["candidate"]];
        }
      }
    }

    method OnLocalCandidate(candidate: Json)
      modifies this
      ensures State() == AfterLocalCandidate(old(State()), candidate)
    {
      if peer.Peer? && Truthy(candidate) {
        var to := match peer.target case ChatUser => Some(chatUser) case Caller(t) => t;
        emitted := emitted + [Relay.Message("iceCandidate", Addressed(to, map["candidate" := candidate]))];
      }
    }

    method OnConnectionStateChange(state: ConnectionState)
      modifies this
      ensures State() == AfterConnectionState(old(State()), me, state)
    {
      if peer.NoPeer? {
        return;
      }
      if state == Connected {
        isCallActive := true;
      } else if state == Failed {
        EndCall(false);
      }
    }

    method OnRemoteCallEnded()
      modifies this
      ensures State() == AfterRemoteCallEnded(old(State()), me)
    {
      if isCallActive {
        EndCall(true);
      }
    }

    method OnCallCancelled()
      modifies this
      ensures State() == AfterCallCancelled(old(State()))
    {
      ringing := false;
    }
  }

  // ---------- updateMessageSeenStatus ----------

  /** A rendered chat bubble: its message id, whether it has a delivery tick (sent messages do), and whether the tick shows `seen`. */
  datatype Bubble = Bubble(messageId: string, hasStatus: bool, seen: bool)

  /** `querySelector('[data-message-id=...]')`: the first bubble of the message. */
  function FirstBubble(bs: seq<Bubble>, id: string): (r: Option<nat>)
    ensures r.Some? ==>
      r.value < |bs| && bs[r.value].messageId == id &&
      forall j :: 0 <= j < r.value ==> bs[j].messageId != id
    ensures r.None? ==> forall j :: 0 <= j < |bs| ==> bs[j].messageId != id
  {
    if bs == [] then None
    else if bs[0].messageId == id then Some(0)
    else match FirstBubble(bs[1..], id)
      case None => None
      case Some(k) => Some(k + 1)
  }

  /** The bubbles after the `seen` update: the first bubble of the message, if it has a tick, shows it seen; nothing else changes. */
  function MarkedSeen(bs: seq<Bubble>, id: string): (r: seq<Bubble>)
    ensures |r| == |bs|
    ensures forall j :: 0 <= j < |bs| ==> r[j].messageId == bs[j].messageId && r[j].hasStatus == bs[j].hasStatus
    ensures forall j :: 0 <= j < |bs| && FirstBubble(bs, id) != Some(j) ==> r[j] == bs[j]
    ensures FirstBubble(bs, id).Some? && bs[FirstBubble(bs, id).value].hasStatus ==> r[FirstBubble(bs, id).value].seen
    ensures forall j :: 0 <= j < |bs| && bs[j].seen ==> r[j].seen
  {
    match FirstBubble(bs, id)
    case None => bs
    case Some(k) => if bs[k].hasStatus then bs[k := bs[k].(seen := true)] else bs
  }

  lemma MarkedSeenIdempotent(bs: seq<Bubble>, id: string)
    ensures MarkedSeen(MarkedSeen(bs, id), id) == MarkedSeen(bs, id)
  {
    var once := MarkedSeen(bs, id);
    FirstBubbleDependsOnIds(bs, once, id);
    assert forall j :: 0 <= j < |once| ==> MarkedSeen(once, id)[j] == once[j];
  }

  lemma {:induction false} FirstBubbleDependsOnIds(a: seq<Bubble>, b: seq<Bubble>, id: string)
    requires |a| == |b| && forall j :: 0 <= j < |a| ==> a[j].messageId == b[j].messageId
    ensures FirstBubble(a, id) == FirstBubble(b, id)
  {
    if a != [] {
      FirstBubbleDependsOnIds(a[1..], b[1..], id);
    }
  }

  /** One chat container's bubbles. */
  class ChatView {
    var bubbles: seq<Bubble>

    constructor(bubbles: seq<Bubble>)
      ensures this.bubbles == bubbles
    {
      this.bubbles := bubbles;
    }

    /** Finds the message's first bubble and marks its tick seen. */
    method MarkSeen(id: string)
      modifies this
      ensures bubbles == MarkedSeen(old(bubbles), id)
    {
      var i := 0;
      while i < |bubbles| && bubbles[i].messageId != id
        invariant 0 <= i <= |bubbles|
        invariant forall j :: 0 <= j < i ==> bubbles[j].messageId != id
      {
        i := i + 1;
      }
      if i < |bubbles| {
        FirstBubbleAt(bubbles, id, i);
        if bubbles[i].hasStatus {
          bubbles := bubbles[i := bubbles[i].(seen := true)];
        }
      } else {
        FirstBubbleAbsent(bubbles, id);
      }
    }
  }

  lemma FirstBubbleAt(bs: seq<Bubble>, id: string, i: nat)
    requires i < |bs| && bs[i].messageId == id && forall j :: 0 <= j < i ==> bs[j].messageId != id
    ensures FirstBubble(bs, id) == Some(i)
  {
  }

  lemma FirstBubbleAbsent(bs: seq<Bubble>, id: string)
    requires forall j :: 0 <= j < |bs| ==> bs[j].messageId != id
    ensures FirstBubble(bs, id) == None
  {
  }

  /** `updateMessageSeenStatus(messageId)` over the patient's and the doctor's chat containers, each possibly absent. */
  method UpdateMessageSeenStatus(chat: ChatView?, chatDoctor: ChatView?, id: string)
    requires chat == null || chat != chatDoctor
    modifies chat, chatDoctor
    ensures chat != null ==> chat.bubbles == MarkedSeen(old(chat.bubbles), id)
    ensures chatDoctor != null ==> chatDoctor.bubbles == MarkedSeen(old(chatDoctor.bubbles), id)
  {
    if chat != null {
      chat.MarkSeen(id);
    }
    if chatDoctor != null {
      chatDoctor.MarkSeen(id);
    }
  }
}
