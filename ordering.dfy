/**
 * Runs of a connection: `connect`'s resumptions interleaved with inbound
 * signaling packets and engine callbacks. The invariant `Inv` says that the
 * engine commands and packets `connect` has issued in the current attempt
 * are exactly a prefix of a fixed, role-dependent script, how long a prefix
 * being determined by the step reached (after a failure the prefix ends at
 * the failing step instead); from it follow the role asymmetry,
 * "backend first", "the first failure aborts", and the fate of the handlers.
 */
module Ordering {
  import opened Wrappers
  import opened Protocol
  import opened Signaling
  import Juice

  /** Anything that can happen to a connection, in the order it happens. */
  datatype Event =
    | CallConnect(controlling: bool)
    | ResumeConnect(outcome: Outcome)
    | PushSignalingData(input: Inbound)
    | StateChanged(state: Juice.State)
    | CandidateFound(desc: string, sendOk: bool)

  /** An event can happen: `connect` is not called twice at once, and is resumed only with what it awaits. */
  predicate Enabled(s: ConnState, e: Event) {
    match e
    case CallConnect(_) => !InFlight(s)
    case ResumeConnect(o) => Awaits(s, o)
    case _ => true
  }

  function Apply(s: ConnState, e: Event): ConnState
    requires Enabled(s, e)
  {
    match e
    case CallConnect(controlling) => Connect(s, controlling)
    case ResumeConnect(o) => Resume(s, o)
    case PushSignalingData(input) => Push(s, input).0
    case StateChanged(state) => OnStateChanged(s, state)
    case CandidateFound(desc, sendOk) => OnCandidate(s, desc, sendOk)
  }

  /** Every event of `es` can happen in turn from `s`. */
  predicate Runs(s: ConnState, es: seq<Event>)
    decreases |es|
  {
    es == [] || (Enabled(s, es[0]) && Runs(Apply(s, es[0]), es[1..]))
  }

  function Run(s: ConnState, es: seq<Event>): ConnState
    requires Runs(s, es)
    decreases |es|
  {
    if es == [] then s else Run(Apply(s, es[0]), es[1..])
  }

  /** No event of `es` is a call of `connect`. */
  predicate NoConnect(es: seq<Event>) {
    forall i | 0 <= i < |es| :: !es[i].CallConnect?
  }

  /** The actions only `connect` itself performs, by kind. */
  datatype Command = Create | Start | SetRemote | GetLocal | SendLocal | Gather

  function CommandOf(a: Action): Option<Command> {
    match a
    case CreateEngine(_) => Some(Create)
    case StartBackend => Some(Start)
    case SetRemoteDescription(_) => Some(SetRemote)
    case GetLocalDescription => Some(GetLocal)
    case Request(SessionDescription(_)) => Some(SendLocal)
    case GatherCandidates => Some(Gather)
    case _ => None
  }

  /** The commands `connect` issued in a log, in order. */
  function ConnectCommands(log: seq<Action>): seq<Command> {
    if log == [] then []
    else
      var last := log[|log| - 1];
      ConnectCommands(log[..|log| - 1]) + if CommandOf(last).Some? then [CommandOf(last).value] else []
  }

  /**
   * The order of `connect`'s guarded steps for each role: the controlled
   * side applies the remote description before sending its own, the
   * controlling side the other way round.
   */
  function Script(controlling: bool): seq<Command> {
    if controlling then [Create, Start, GetLocal, SendLocal, SetRemote, Gather]
    else [Create, Start, SetRemote, GetLocal, SendLocal, Gather]
  }

  /** How much of the script has been performed when `connect` stands at `step`. */
  function Progress(controlling: bool, step: Step): nat {
    match step
    case Idle => 0
    case StartingBackend => 2
    case AwaitingRemoteDescription => if controlling then 4 else 2
    case FetchingLocalDescription => if controlling then 2 else 3
    case AwaitingSuccess => if controlling then 4 else 5
    case GatheringCandidates => 5
    case AwaitingConnected => 6
    case Returned(_) => 6
  }

  /** The commands of the current (or last) `connect` call. */
  function Attempt(s: ConnState): seq<Command>
    requires s.attemptStart <= |s.log|
  {
    ConnectCommands(s.log[s.attemptStart..])
  }

  /** Every occurrence of `b` in `cmds` comes after an occurrence of `a`. */
  predicate Precedes(cmds: seq<Command>, a: Command, b: Command) {
    forall j | 0 <= j < |cmds| && cmds[j] == b :: a in cmds[..j]
  }

  ghost predicate Inv(s: ConnState) {
    && s.attemptStart <= |s.log|
    && WellKeyed(s.handlers)
    && (if s.step == Returned(false)
        then Attempt(s) <= Script(s.controlling) && 2 <= |Attempt(s)|
        else Attempt(s) == Script(s.controlling)[..Progress(s.controlling, s.step)])
    && (s.step.Idle? ==> s.handlers == map[])
    && (!s.step.Idle? ==> CandidatePt in s.handlers)
    && (s.step == AwaitingConnected || s.step == Returned(true) ==> GatheringDonePt !in s.handlers)
    && (s.step == Returned(true) ==> s.connected)
  }

  /** Actions that are never `connect`'s own: replies, remote candidates, candidate requests, disconnects. */
  predicate Foreign(a: Action) {
    a.Reply? || a.AddRemoteCandidate? || a.Disconnected? || (a.Request? && a.packet.Candidate?)
  }

  lemma {:induction false} ConnectCommandsAppend(log: seq<Action>, xs: seq<Action>)
    ensures ConnectCommands(log + xs) == ConnectCommands(log) + ConnectCommands(xs)
    decreases |xs|
  {
    if xs == [] {
      assert log + xs == log;
    } else {
      var init := xs[..|xs| - 1];
      assert (log + xs)[..|log + xs| - 1] == log + init;
      ConnectCommandsAppend(log, init);
    }
  }

  lemma {:induction false} ForeignHasNoCommands(xs: seq<Action>)
    requires forall a | a in xs :: Foreign(a)
    ensures ConnectCommands(xs) == []
    decreases |xs|
  {
    if xs != [] {
      var init, last := xs[..|xs| - 1], xs[|xs| - 1];
      assert last in xs;
      assert forall a | a in init :: a in xs;
      ForeignHasNoCommands(init);
    }
  }

  /** Appending actions that are not `connect`'s leaves the attempt's commands as they were. */
  lemma AppendForeign(s: ConnState, r: ConnState, xs: seq<Action>)
    requires s.attemptStart <= |s.log| && r.attemptStart == s.attemptStart
    requires r.log == s.log + xs && forall a | a in xs :: Foreign(a)
    ensures r.attemptStart <= |r.log| && Attempt(r) == Attempt(s)
  {
    assert r.log[r.attemptStart..] == s.log[s.attemptStart..] + xs;
    ConnectCommandsAppend(s.log[s.attemptStart..], xs);
    ForeignHasNoCommands(xs);
  }

  /** Appending `connect`'s step actions extends the attempt by their commands. */
  lemma AppendStep(s: ConnState, r: ConnState, xs: seq<Action>)
    requires s.attemptStart <= |s.log| && r.attemptStart == s.attemptStart && r.log == s.log + xs
    ensures r.attemptStart <= |r.log| && Attempt(r) == Attempt(s) + ConnectCommands(xs)
  {
    assert r.log[r.attemptStart..] == s.log[s.attemptStart..] + xs;
    ConnectCommandsAppend(s.log[s.attemptStart..], xs);
  }

  lemma InitialInv()
    ensures Inv(Initial)
  {
  }

  lemma PushPreservesInv(s: ConnState, input: Inbound)
    requires Inv(s)
    ensures Inv(Push(s, input).0)
    ensures Push(s, input).0.attemptStart <= |Push(s, input).0.log| && Attempt(Push(s, input).0) == Attempt(s)
  {
    var r := Push(s, input).0;
    var xs := r.log[|s.log|..];
    assert r.log == s.log + xs;
    AppendForeign(s, r, xs);
  }

  /** The commands of `connect` that resuming it with `o` issues. */
  function StepCommands(o: Outcome): seq<Command> {
    match o
    case RemoteDescriptionSet(_) => [SetRemote]
    case LocalDescription(code, _) => if code == Juice.ErrSuccess then [GetLocal, SendLocal] else [GetLocal]
    case CandidatesGathered(_) => [Gather]
    case _ => []
  }

  lemma StepActionsCommands(s: ConnState, o: Outcome)
    ensures ConnectCommands(StepActions(s, o)) == StepCommands(o)
  {
    var xs := StepActions(s, o);
    if |xs| >= 1 {
      assert xs[..|xs| - 1][..0] == [];
    }
    if |xs| == 2 {
      assert xs[..1] == [GetLocalDescription];
      assert ConnectCommands([GetLocalDescription]) == [GetLocal];
    }
  }

  /** A step that is awaited extends the script's prefix to the next step's progress, or ends it on failure. */
  lemma StepAdvancesScript(controlling: bool, s: ConnState, o: Outcome)
    requires Awaits(s, o) && s.controlling == controlling
    ensures var t := Script(controlling)[..Progress(controlling, s.step)] + StepCommands(o);
      if Fails(o) then t <= Script(controlling) && 2 <= |t|
      else t == Script(controlling)[..Progress(controlling, Next(controlling, s.step))]
  {
  }

  lemma ResumePreservesInv(s: ConnState, o: Outcome)
    requires Inv(s) && Awaits(s, o)
    ensures Inv(Resume(s, o))
  {
    var r := Resume(s, o);
    AppendStep(s, r, StepActions(s, o));
    StepActionsCommands(s, o);
    StepAdvancesScript(s.controlling, s, o);
  }

  lemma ConnectPreservesInv(s: ConnState, controlling: bool)
    requires Inv(s) && !InFlight(s)
    ensures Inv(Connect(s, controlling))
  {
    var r := Connect(s, controlling);
    var xs := [CreateEngine(false), StartBackend];
    assert r.log[r.attemptStart..] == xs;
    assert ConnectCommands(xs) == [Create, Start] by {
      assert xs[..1] == [CreateEngine(false)];
    }
    assert Script(controlling)[..2] == [Create, Start];
  }

  lemma StateChangedPreservesInv(s: ConnState, state: Juice.State)
    requires Inv(s)
    ensures Inv(OnStateChanged(s, state)) && Attempt(OnStateChanged(s, state)) == Attempt(s)
  {
    AppendForeign(s, OnStateChanged(s, state), if state == Juice.Failed then [Disconnected] else []);
  }

  lemma CandidateFoundPreservesInv(s: ConnState, desc: string, sendOk: bool)
    requires Inv(s)
    ensures Inv(OnCandidate(s, desc, sendOk)) && Attempt(OnCandidate(s, desc, sendOk)) == Attempt(s)
  {
    AppendForeign(s, OnCandidate(s, desc, sendOk), [Request(Candidate(desc))] + (if sendOk then [] else [Disconnected]));
  }

  lemma ApplyPreservesInv(s: ConnState, e: Event)
    requires Inv(s) && Enabled(s, e)
    ensures Inv(Apply(s, e))
  {
    match e {
      case CallConnect(controlling) => ConnectPreservesInv(s, controlling);
      case ResumeConnect(o) => ResumePreservesInv(s, o);
      case PushSignalingData(input) => PushPreservesInv(s, input);
      case StateChanged(state) => StateChangedPreservesInv(s, state);
      case CandidateFound(desc, sendOk) => CandidateFoundPreservesInv(s, desc, sendOk);
    }
  }

  /** Every state a run reaches from a state satisfying the invariant satisfies it too. */
  lemma {:induction false} RunPreservesInv(s: ConnState, es: seq<Event>)
    requires Inv(s) && Runs(s, es)
    ensures Inv(Run(s, es))
    decreases |es|
  {
    if es != [] {
      ApplyPreservesInv(s, es[0]);
      RunPreservesInv(Apply(s, es[0]), es[1..]);
    }
  }

  /** Every state reachable from a fresh connection satisfies the invariant. */
  lemma Reachable(es: seq<Event>)
    requires Runs(Initial, es)
    ensures Inv(Run(Initial, es))
  {
    InitialInv();
    RunPreservesInv(Initial, es);
  }

  lemma PrecedesInPrefix(t: seq<Command>, k: nat, a: Command, b: Command)
    requires k <= |t| && Precedes(t, a, b)
    ensures Precedes(t[..k], a, b)
  {
    forall j | 0 <= j < k && t[..k][j] == b ensures a in t[..k][..j] {
      assert t[..k][..j] == t[..j];
    }
  }

  /**
   * Role asymmetry: the controlled side applies the remote description
   * before it sends its own, the controlling side sends its own first; and
   * on both sides the backend has been started before the local
   * description is sent or the remote one applied.
   */
  lemma RoleOrdering(s: ConnState)
    requires Inv(s)
    ensures !s.controlling ==> Precedes(Attempt(s), SetRemote, SendLocal)
    ensures s.controlling ==> Precedes(Attempt(s), SendLocal, SetRemote)
    ensures Precedes(Attempt(s), Start, SendLocal) && Precedes(Attempt(s), Start, SetRemote)
  {
    var t := Script(s.controlling);
    var k := |Attempt(s)|;
    assert Attempt(s) == t[..k];
    if s.controlling {
      assert t[..3] == [Create, Start, GetLocal];
      assert t[..4] == [Create, Start, GetLocal, SendLocal];
      assert Precedes(t, SendLocal, SetRemote);
    } else {
      assert t[..2] == [Create, Start];
      assert t[..3] == [Create, Start, SetRemote];
      assert t[..4] == [Create, Start, SetRemote, GetLocal];
      assert Precedes(t, SetRemote, SendLocal);
    }
    assert Precedes(t, Start, SendLocal) && Precedes(t, Start, SetRemote);
    if s.controlling {
      PrecedesInPrefix(t, k, SendLocal, SetRemote);
    } else {
      PrecedesInPrefix(t, k, SetRemote, SendLocal);
    }
    PrecedesInPrefix(t, k, Start, SendLocal);
    PrecedesInPrefix(t, k, Start, SetRemote);
  }

  /**
   * A `connect` that returned true went through every step of its role's
   * script, saw `connected` notified, and left no GatheringDone entry.
   */
  lemma SuccessfulConnect(s: ConnState)
    requires Inv(s) && s.step == Returned(true)
    ensures Attempt(s) == Script(s.controlling)
    ensures s.connected && GatheringDonePt !in s.handlers
  {
    assert Script(s.controlling)[..6] == Script(s.controlling);
  }

  /** Events other than `connect`'s own leave its step and its commands as they were. */
  lemma ForeignEventKeepsAttempt(s: ConnState, e: Event)
    requires Inv(s) && Enabled(s, e) && !e.CallConnect? && !e.ResumeConnect?
    ensures Inv(Apply(s, e))
    ensures Apply(s, e).step == s.step && Apply(s, e).attemptStart == s.attemptStart
    ensures Attempt(Apply(s, e)) == Attempt(s)
  {
    match e {
      case PushSignalingData(input) => PushPreservesInv(s, input);
      case StateChanged(state) => StateChangedPreservesInv(s, state);
      case CandidateFound(desc, sendOk) => CandidateFoundPreservesInv(s, desc, sendOk);
    }
  }

  lemma NoConnectTail(es: seq<Event>)
    requires es != [] && NoConnect(es)
    ensures !es[0].CallConnect? && NoConnect(es[1..])
  {
    forall i | 0 <= i < |es[1..]| ensures !es[1..][i].CallConnect? {
      assert es[1..][i] == es[i + 1];
    }
  }

  /** Once `connect` has returned, nothing but a new call adds to its commands or changes its result. */
  lemma {:induction false} ReturnIsFinal(s: ConnState, es: seq<Event>)
    requires Inv(s) && s.step.Returned? && Runs(s, es) && NoConnect(es)
    ensures Inv(Run(s, es))
    ensures Run(s, es).step == s.step && Run(s, es).attemptStart == s.attemptStart
    ensures Attempt(Run(s, es)) == Attempt(s)
    decreases |es|
  {
    if es != [] {
      NoConnectTail(es);
      ForeignEventKeepsAttempt(s, es[0]);
      ReturnIsFinal(Apply(s, es[0]), es[1..]);
    }
  }

  /** After the first `connect` call the Candidate handler stays registered whatever happens. */
  lemma {:induction false} CandidateHandlerPersists(s: ConnState, es: seq<Event>)
    requires Inv(s) && !s.step.Idle? && Runs(s, es)
    ensures CandidatePt in Run(s, es).handlers && Run(s, es).handlers[CandidatePt] == HandleCandidate
    decreases |es|
  {
    if es != [] {
      ApplyPreservesInv(s, es[0]);
      assert !Apply(s, es[0]).step.Idle?;
      CandidateHandlerPersists(Apply(s, es[0]), es[1..]);
    }
  }

  /** Once the SessionDescription entry is gone only a new `connect` call brings it back. */
  lemma {:induction false} SessionDescriptionStaysRemoved(s: ConnState, es: seq<Event>)
    requires SessionDescriptionPt !in s.handlers && Runs(s, es) && NoConnect(es)
    ensures SessionDescriptionPt !in Run(s, es).handlers
    decreases |es|
  {
    if es != [] {
      NoConnectTail(es);
      SessionDescriptionStaysRemoved(Apply(s, es[0]), es[1..]);
    }
  }

  /**
   * One-shot SessionDescription: after its handler has replied Success and
   * removed itself, a later SessionDescription (until `connect` is called
   * again) reaches no handler: the stored description is kept, no Success is
   * sent, and it is answered with Error unless its id equals the Error type value.
   */
  lemma SessionDescriptionOneShot(s: ConnState, first: Inbound, es: seq<Event>, later: Inbound)
    requires first.parsed.Some? && first.parsed.value.pt == SessionDescriptionPt
    requires SessionDescriptionPt in s.handlers && s.handlers[SessionDescriptionPt] == HandleSessionDescription
    requires first.payload.Some? && first.replyOk
    requires Runs(Push(s, first).0, es) && NoConnect(es)
    requires later.parsed.Some? && later.parsed.value.pt == SessionDescriptionPt
    ensures Push(s, first).1 && Push(s, first).0.remoteDesc == first.payload.value
    ensures var t := Run(Push(s, first).0, es);
      var id := later.parsed.value.id;
      && Push(t, later).0 == t.(log := t.log + if id != ErrorPt as int then [Reply(Error, id)] else [])
      && (Push(t, later).1 <==> id == ErrorPt as int || later.errorReplyOk)
  {
    SessionDescriptionStaysRemoved(Push(s, first).0, es);
  }

  /**
   * Once `connect` has been called, every Candidate packet reaches the
   * Candidate handler: a decodable candidate is handed to the engine, and
   * the packet is answered with Error (unless its id equals the Error type
   * value) exactly when decoding or the engine's `juice_add_remote_candidate`
   * fails. Nothing else changes.
   */
  lemma CandidateDispatched(s: ConnState, input: Inbound)
    requires Inv(s) && s.step != Idle
    requires input.parsed.Some? && input.parsed.value.pt == CandidatePt
    ensures var id := input.parsed.value.id;
      var handled := input.payload.Some? && input.candidateCode == Juice.ErrSuccess;
      var answer := !handled && id != ErrorPt as int;
      && Push(s, input).0 == s.(log := s.log
           + (if input.payload.Some? then [AddRemoteCandidate(input.payload.value)] else [])
           + (if answer then [Reply(Error, id)] else []))
      && (Push(s, input).1 <==> !answer || input.errorReplyOk)
  {
  }

  /**
   * As written, a GatheringDone packet that a controlled side receives while
   * it waits for the remote description, before that description has
   * arrived, removes the SessionDescription entry once its Success reply is
   * sent (a failed reply returns before the erase). From then on, until `connect` is called again, `session_desc_set` is never
   * notified and `connect` stays at that wait.
   */
  lemma {:induction false} GatheringDoneBlocksControlled(s: ConnState, gd: Inbound, es: seq<Event>)
    requires Inv(s) && s.step == AwaitingRemoteDescription && !s.sessionDescSet
    requires GatheringDonePt in s.handlers && s.handlers[GatheringDonePt] == HandleGatheringDone
    requires gd.parsed.Some? && gd.parsed.value.pt == GatheringDonePt && gd.replyOk
    requires Runs(Push(s, gd).0, es) && NoConnect(es)
    ensures Push(s, gd).1 && SessionDescriptionPt !in Push(s, gd).0.handlers
    ensures Run(Push(s, gd).0, es).step == AwaitingRemoteDescription
    ensures !Run(Push(s, gd).0, es).sessionDescSet
  {
    PushPreservesInv(s, gd);
    StaysWaiting(Push(s, gd).0, es);
  }

  lemma {:induction false} StaysWaiting(s: ConnState, es: seq<Event>)
    requires Inv(s) && s.step == AwaitingRemoteDescription && !s.sessionDescSet
    requires SessionDescriptionPt !in s.handlers && Runs(s, es) && NoConnect(es)
    ensures Run(s, es).step == AwaitingRemoteDescription && !Run(s, es).sessionDescSet
    decreases |es|
  {
    if es != [] {
      var t := Apply(s, es[0]);
      NoConnectTail(es);
      ForeignEventKeepsAttempt(s, es[0]);
      StaysWaiting(t, es[1..]);
    }
  }
}
