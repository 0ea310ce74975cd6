/**
 * The signaling side of a connection as pure state transitions.
 *
 * `ConnState` is everything `Connection::connect` and the signaling handlers
 * read and write: the packet parser's handler table, the remote session
 * description and the events that `connect` waits on, the point the `connect`
 * coroutine has reached, and a log of the commands issued to the engine and
 * the packets handed to the signaling channel. Every result the outside world
 * supplies (the backend start, the engine's result codes, the awaited
 * `Success` response, parsing, payload decoding and sends) is an input.
 */
module Signaling {
  import opened Wrappers
  import opened Protocol
  import Juice

  /** `ignore_gathering_done`: the engine is given no gathering-done callback. */
  const IgnoreGatheringDone: bool := true

  /** The handlers `connect` installs in the parser's table, by the packet they serve. */
  datatype Handler = HandleSessionDescription | HandleCandidate | HandleGatheringDone

  /** The header of a received signaling packet. */
  datatype Header = Header(id: int, pt: PacketType)

  /** What the connection did, in order: engine commands and packets handed to the signaling channel. */
  datatype Action =
    | CreateEngine(gatheringDoneCallback: bool)  // juice_create with the callback table
    | StartBackend                               // params.start_backend() was called
    | SetRemoteDescription(desc: string)         // juice_set_remote_description
    | GetLocalDescription                        // juice_get_local_description
    | GatherCandidates                           // juice_gather_candidates
    | AddRemoteCandidate(desc: string)           // juice_add_remote_candidate
    | Request(packet: Packet)                    // a request, its id chosen by the parser
    | Reply(packet: Packet, id: int)             // a reply carrying the request's id
    | Disconnected                               // on_disconnected() was invoked

  /** Where the `connect` coroutine stands: the guarded step it performs next, or its result. */
  datatype Step =
    | Idle                       // connect has not been called
    | StartingBackend            // awaiting start_backend()
    | AwaitingRemoteDescription  // awaiting session_desc_set, then set_remote_description
    | FetchingLocalDescription   // get_local_description, then sending it
    | AwaitingSuccess            // awaiting the Success response to the local description
    | GatheringCandidates        // gather_candidates
    | AwaitingConnected          // awaiting connected
    | Returned(ok: bool)         // connect has returned ok

  /** The result of the foreign operation the coroutine is waiting on. */
  datatype Outcome =
    | BackendStarted(ok: bool)
    | RemoteDescriptionSet(code: int)
    | LocalDescription(code: int, desc: string)
    | ResponseReceived(ok: bool)
    | CandidatesGathered(code: int)
    | ConnectedNotified

  /** One call of `push_signaling_data`: the results of everything it may consult. */
  datatype Inbound = Inbound(
    parsed: Option<Header>,   // parse_received: the header, or None when unparseable
    payload: Option<string>,  // loading the payload as the handler's struct: its desc
    replyOk: bool,            // the handler's Success reply was sent
    candidateCode: int,       // result of juice_add_remote_candidate
    errorReplyOk: bool)       // the Error reply was sent

  datatype ConnState = ConnState(
    handlers: map<PacketType, Handler>,  // parser.callbacks.by_type
    remoteDesc: string,
    sessionDescSet: bool,
    remoteGatheringDone: bool,
    connected: bool,
    controlling: bool,
    step: Step,
    attemptStart: nat,                   // length of the log when connect was last called
    log: seq<Action>)

  /** A connection before `connect`: an empty handler table and nothing done. */
  const Initial := ConnState(map[], "", false, false, false, false, Idle, 0, [])

  /** True while a `connect` call is suspended at one of its steps. */
  predicate InFlight(s: ConnState) {
    !(s.step.Idle? || s.step.Returned?)
  }

  /** Every table entry sits under the wire value of the packet its handler serves. */
  predicate WellKeyed(handlers: map<PacketType, Handler>) {
    && (SessionDescriptionPt in handlers ==> handlers[SessionDescriptionPt] == HandleSessionDescription)
    && (CandidatePt in handlers ==> handlers[CandidatePt] == HandleCandidate)
    && (GatheringDonePt in handlers ==> handlers[GatheringDonePt] == HandleGatheringDone)
    && (forall pt | pt in handlers :: pt == SessionDescriptionPt || pt == CandidatePt || pt == GatheringDonePt)
  }

  /**
   * The synchronous part of `connect` up to its first suspension: the engine
   * is created, the three handlers are installed and the backend is started.
   */
  function Connect(s: ConnState, controlling: bool): (r: ConnState)
    requires !InFlight(s)
    ensures InFlight(r) && r.step == StartingBackend && r.controlling == controlling
    ensures r.handlers.Keys == s.handlers.Keys + {SessionDescriptionPt, CandidatePt, GatheringDonePt}
    ensures r.handlers[SessionDescriptionPt] == HandleSessionDescription
    ensures r.handlers[CandidatePt] == HandleCandidate
    ensures r.handlers[GatheringDonePt] == HandleGatheringDone
    ensures forall pt | pt in s.handlers && !IsKnownType(pt) :: pt in r.handlers && r.handlers[pt] == s.handlers[pt]
    ensures r.remoteDesc == "" && !r.sessionDescSet && !r.remoteGatheringDone && r.connected == s.connected
    ensures r.attemptStart == |s.log|
    ensures r.log == s.log + [CreateEngine(false), StartBackend]
  {
    ConnState(
      handlers := s.handlers[SessionDescriptionPt := HandleSessionDescription]
                            [CandidatePt := HandleCandidate]
                            [GatheringDonePt := HandleGatheringDone],
      remoteDesc := "",
      sessionDescSet := false,
      remoteGatheringDone := false,
      connected := s.connected,
      controlling := controlling,
      step := StartingBackend,
      attemptStart := |s.log|,
      log := s.log + [CreateEngine(!IgnoreGatheringDone), StartBackend])
  }

  /**
   * True when the coroutine can be resumed with `o`: it is the result of the
   * operation the current step awaits, and an awaited event has been notified.
   */
  predicate Awaits(s: ConnState, o: Outcome) {
    match s.step
    case StartingBackend => o.BackendStarted?
    case AwaitingRemoteDescription => o.RemoteDescriptionSet? && s.sessionDescSet
    case FetchingLocalDescription => o.LocalDescription?
    case AwaitingSuccess => o.ResponseReceived?
    case GatheringCandidates => o.CandidatesGathered?
    case AwaitingConnected => o.ConnectedNotified? && s.connected
    case _ => false
  }

  /** True when `o` is a failure of the guarded operation it reports (a `coop_ensure` that fails). */
  predicate Fails(o: Outcome) {
    match o
    case BackendStarted(ok) => !ok
    case RemoteDescriptionSet(code) => code != Juice.ErrSuccess
    case LocalDescription(code, _) => code != Juice.ErrSuccess
    case ResponseReceived(ok) => !ok
    case CandidatesGathered(code) => code != Juice.ErrSuccess
    case ConnectedNotified => false
  }

  /** The step after a successful one, which depends on the role. */
  function Next(controlling: bool, step: Step): Step {
    match step
    case StartingBackend =>
      if controlling then FetchingLocalDescription else AwaitingRemoteDescription
    case AwaitingRemoteDescription =>
      if controlling then GatheringCandidates else FetchingLocalDescription
    case FetchingLocalDescription => AwaitingSuccess
    case AwaitingSuccess =>
      if controlling then AwaitingRemoteDescription else GatheringCandidates
    case GatheringCandidates => AwaitingConnected
    case _ => Returned(true)
  }

  /** The commands a step issues to the engine and the packets it sends, given its outcome. */
  function StepActions(s: ConnState, o: Outcome): seq<Action> {
    match o
    case RemoteDescriptionSet(_) => [SetRemoteDescription(s.remoteDesc)]
    case LocalDescription(code, desc) =>
      if code == Juice.ErrSuccess then [GetLocalDescription, Request(SessionDescription(desc))]
      else [GetLocalDescription]
    case CandidatesGathered(_) => [GatherCandidates]
    case _ => []
  }

  /**
   * Resumes `connect` at its current step with the step's outcome and runs
   * that one guarded step: a failed guarded step returns false at once, and
   * once candidate gathering has started the GatheringDone entry is erased.
   */
  function Resume(s: ConnState, o: Outcome): (r: ConnState)
    requires Awaits(s, o)
    ensures r.step == (if Fails(o) then Returned(false) else Next(s.controlling, s.step))
    ensures r.step == Returned(true) <==> s.step == AwaitingConnected
    ensures r.log == s.log + StepActions(s, o)
    ensures s.step == AwaitingRemoteDescription ==> r.log == s.log + [SetRemoteDescription(s.remoteDesc)]
    ensures r.handlers == if s.step == GatheringCandidates && !Fails(o) then s.handlers - {GatheringDonePt} else s.handlers
    ensures r.(step := s.step, log := s.log, handlers := s.handlers) == s
  {
    var t := s.(log := s.log + StepActions(s, o));
    if Fails(o) then t.(step := Returned(false))
    else if s.step == GatheringCandidates then
      t.(step := AwaitingConnected, handlers := t.handlers - {GatheringDonePt})
    else t.(step := Next(s.controlling, s.step))
  }

  /**
   * The SessionDescription handler: store the description, notify
   * `session_desc_set`, reply Success with the request's id and, only once
   * that reply is sent, erase its own entry (one-shot).
   */
  function SessionDescriptionHandler(s: ConnState, header: Header, payload: Option<string>, replyOk: bool): (r: (ConnState, bool))
    ensures payload.None? ==> r == (s, false)
    ensures payload.Some? ==> r.0.remoteDesc == payload.value && r.0.sessionDescSet
    ensures payload.Some? ==> r.0.log == s.log + [Reply(Success, header.id)]
    ensures r.1 <==> payload.Some? && replyOk
    ensures r.0.handlers == if r.1 then s.handlers - {SessionDescriptionPt} else s.handlers
    ensures r.0.(remoteDesc := s.remoteDesc, sessionDescSet := s.sessionDescSet, log := s.log, handlers := s.handlers) == s
  {
    match payload
    case None => (s, false)
    case Some(desc) =>
      var t := s.(remoteDesc := desc, sessionDescSet := true, log := s.log + [Reply(Success, header.id)]);
      if !replyOk then (t, false)
      else (t.(handlers := t.handlers - {SessionDescriptionPt}), true)
  }

  /**
   * The Candidate handler: hand the candidate to the engine; it sends no
   * reply and never removes itself.
   */
  function CandidateHandler(s: ConnState, payload: Option<string>, code: int): (r: (ConnState, bool))
    ensures r.1 <==> payload.Some? && code == Juice.ErrSuccess
    ensures r.0.log == s.log + (if payload.Some? then [AddRemoteCandidate(payload.value)] else [])
    ensures r.0.(log := s.log) == s
  {
    match payload
    case None => (s, false)
    case Some(desc) =>
      (s.(log := s.log + [AddRemoteCandidate(desc)]), code == Juice.ErrSuccess)
  }

  /**
   * The GatheringDone handler: notify `remote_gathering_done`, reply Success
   * and, once the reply is sent, erase an entry. As written it erases the
   * SessionDescription entry, not its own.
   */
  function GatheringDoneHandler(s: ConnState, header: Header, replyOk: bool): (r: (ConnState, bool))
    ensures r.0.remoteGatheringDone
    ensures r.0.log == s.log + [Reply(Success, header.id)]
    ensures r.1 == replyOk
    ensures r.0.handlers == if replyOk then s.handlers - {SessionDescriptionPt} else s.handlers
    ensures r.0.(remoteGatheringDone := s.remoteGatheringDone, log := s.log, handlers := s.handlers) == s
  {
    var t := s.(remoteGatheringDone := true, log := s.log + [Reply(Success, header.id)]);
    if !replyOk then (t, false)
    else (t.(handlers := t.handlers - {SessionDescriptionPt}), true)
  }

  /** `parser.callbacks.invoke`: run the handler registered for the header's type; false when there is none. */
  function Invoke(s: ConnState, header: Header, input: Inbound): (r: (ConnState, bool))
    ensures header.pt !in s.handlers ==> r == (s, false)
    ensures WellKeyed(s.handlers) && header.pt in s.handlers ==>
      r == if header.pt == SessionDescriptionPt then SessionDescriptionHandler(s, header, input.payload, input.replyOk)
           else if header.pt == CandidatePt then CandidateHandler(s, input.payload, input.candidateCode)
           else GatheringDoneHandler(s, header, input.replyOk)
    ensures r.0.step == s.step && r.0.connected == s.connected && r.0.controlling == s.controlling
    ensures r.0.attemptStart == s.attemptStart && |s.log| <= |r.0.log| && r.0.log[..|s.log|] == s.log
    ensures forall a | a in r.0.log[|s.log|..] :: a.Reply? || a.AddRemoteCandidate?
    ensures r.0.handlers == s.handlers || r.0.handlers == s.handlers - {SessionDescriptionPt}
  {
    if header.pt !in s.handlers then (s, false)
    else
      match s.handlers[header.pt]
      case HandleSessionDescription => SessionDescriptionHandler(s, header, input.payload, input.replyOk)
      case HandleCandidate => CandidateHandler(s, input.payload, input.candidateCode)
      case HandleGatheringDone => GatheringDoneHandler(s, header, input.replyOk)
  }

  /** True when `push_signaling_data` answers the packet with an Error reply. */
  predicate AnswersWithError(handled: bool, header: Header) {
    !handled && header.id != ErrorPt as int
  }

  /**
   * `push_signaling_data`: parse the packet and dispatch it; when no handler
   * took it and its id differs from the Error type value, reply Error with
   * the request's id. The result is false only when that reply fails.
   */
  function Push(s: ConnState, input: Inbound): (r: (ConnState, bool))
    ensures input.parsed.None? ==> r == (s, true)
    ensures input.parsed.Some? ==>
      var (t, handled) := Invoke(s, input.parsed.value, input);
      var answer := AnswersWithError(handled, input.parsed.value);
      && r.0 == t.(log := t.log + if answer then [Reply(Error, input.parsed.value.id)] else [])
      && (r.1 <==> !answer || input.errorReplyOk)
    ensures r.0.step == s.step && r.0.connected == s.connected && r.0.controlling == s.controlling
    ensures r.0.attemptStart == s.attemptStart && |s.log| <= |r.0.log| && r.0.log[..|s.log|] == s.log
    ensures forall a | a in r.0.log[|s.log|..] :: a.Reply? || a.AddRemoteCandidate?
    ensures r.0.handlers == s.handlers || r.0.handlers == s.handlers - {SessionDescriptionPt}
  {
    match input.parsed
    case None => (s, true)
    case Some(header) =>
      var (t, handled) := Invoke(s, header, input);
      if AnswersWithError(handled, header) then
        (t.(log := t.log + [Reply(Error, header.id)]), input.errorReplyOk)
      else (t, true)
  }

  /** What the state-changed callback does for an engine state. */
  datatype Reaction = NotifyConnected | InvokeDisconnected | NoReaction

  /** `on_state_changed`'s switch: COMPLETED notifies `connected`, FAILED calls `on_disconnected`. */
  function ReactionTo(state: Juice.State): (r: Reaction)
    ensures r == NotifyConnected <==> state == Juice.Completed
    ensures r == InvokeDisconnected <==> state == Juice.Failed
  {
    match state
    case Completed => NotifyConnected
    case Failed => InvokeDisconnected
    case _ => NoReaction
  }

  /** The effect of `on_state_changed` on the connection. */
  function OnStateChanged(s: ConnState, state: Juice.State): (r: ConnState)
    ensures r.connected <==> s.connected || state == Juice.Completed
    ensures r.log == s.log + (if state == Juice.Failed then [Disconnected] else [])
    ensures r.(connected := s.connected, log := s.log) == s
  {
    match ReactionTo(state)
    case NotifyConnected => s.(connected := true)
    case InvokeDisconnected => s.(log := s.log + [Disconnected])
    case NoReaction => s
  }

  /**
   * The candidate callback: a discovered local candidate is sent to the peer
   * as a Candidate packet; when that send fails `on_disconnected` is invoked.
   */
  function OnCandidate(s: ConnState, desc: string, sendOk: bool): (r: ConnState)
    ensures r.log == s.log + [Request(Candidate(desc))] + (if sendOk then [] else [Disconnected])
    ensures r.(log := s.log) == s
  {
    var t := s.(log := s.log + [Request(Candidate(desc))]);
    if sendOk then t else t.(log := t.log + [Disconnected])
  }
}
