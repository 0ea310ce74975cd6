/**
 * Two complete handshakes as runs of events from a fresh connection: the
 * controlled side (which waits for the peer's description first) and the
 * controlling side (which sends its own first), configured as the two peers
 * of the repository's end-to-end test are.
 */
module Handshake {
  import opened Wrappers
  import opened Protocol
  import opened Signaling
  import opened Ordering
  import Juice

  /** A run is its first event followed by a run from the state that event leads to. */
  lemma RunsCons(s: ConnState, e: Event, es: seq<Event>)
    requires Enabled(s, e) && Runs(Apply(s, e), es)
    ensures Runs(s, [e] + es) && Run(s, [e] + es) == Run(Apply(s, e), es)
  {
    assert ([e] + es)[0] == e && ([e] + es)[1..] == es;
  }

  /** Two runs one after the other make a run. */
  lemma {:induction false} RunsConcat(s: ConnState, xs: seq<Event>, ys: seq<Event>)
    requires Runs(s, xs) && Runs(Run(s, xs), ys)
    ensures Runs(s, xs + ys) && Run(s, xs + ys) == Run(Run(s, xs), ys)
    decreases |xs|
  {
    if xs != [] {
      RunsConcat(Apply(s, xs[0]), xs[1..], ys);
      assert xs + ys == [xs[0]] + (xs[1..] + ys);
      RunsCons(s, xs[0], xs[1..] + ys);
    } else {
      assert xs + ys == ys;
    }
  }

  /** An inbound SessionDescription carrying `desc` whose handling all succeeds. */
  function DescriptionPacket(id: int, desc: string): Inbound {
    Inbound(Some(Header(id, SessionDescriptionPt)), Some(desc), true, Juice.ErrSuccess, true)
  }

  /** The controlled side after the backend started and the peer's description was received. */
  function ControlledWaiting(remote: string, id: int): ConnState {
    ConnState(map[CandidatePt := HandleCandidate, GatheringDonePt := HandleGatheringDone],
              remote, true, false, false, false, AwaitingRemoteDescription, 0,
              [CreateEngine(false), StartBackend, Reply(Success, id)])
  }

  lemma ControlledOpening(remote: string, id: int)
    ensures var es := [CallConnect(false), ResumeConnect(BackendStarted(true)),
                       PushSignalingData(DescriptionPacket(id, remote))];
      Runs(Initial, es) && Run(Initial, es) == ControlledWaiting(remote, id)
  {
    var e1, e2, e3 := CallConnect(false), ResumeConnect(BackendStarted(true)),
                      PushSignalingData(DescriptionPacket(id, remote));
    var s1 := Apply(Initial, e1);
    var s2 := Apply(s1, e2);
    var s3 := Apply(s2, e3);
    assert s3 == ControlledWaiting(remote, id);
    RunsCons(s2, e3, []);
    RunsCons(s1, e2, [e3]);
    RunsCons(Initial, e1, [e2, e3]);
  }

  lemma ControlledClosing(remote: string, local: string, id: int)
    ensures var es := [ResumeConnect(RemoteDescriptionSet(Juice.ErrSuccess)),
                       ResumeConnect(LocalDescription(Juice.ErrSuccess, local)),
                       ResumeConnect(ResponseReceived(true)),
                       ResumeConnect(CandidatesGathered(Juice.ErrSuccess)),
                       StateChanged(Juice.Completed),
                       ResumeConnect(ConnectedNotified)];
      && Runs(ControlledWaiting(remote, id), es)
      && Run(ControlledWaiting(remote, id), es) ==
         ConnState(map[CandidatePt := HandleCandidate], remote, true, false, true, false, Returned(true), 0,
                   [CreateEngine(false), StartBackend, Reply(Success, id), SetRemoteDescription(remote),
                    GetLocalDescription, Request(SessionDescription(local)), GatherCandidates])
  {
    var e4, e5, e6 := ResumeConnect(RemoteDescriptionSet(Juice.ErrSuccess)),
      ResumeConnect(LocalDescription(Juice.ErrSuccess, local)), ResumeConnect(ResponseReceived(true));
    var e7, e8, e9 := ResumeConnect(CandidatesGathered(Juice.ErrSuccess)), StateChanged(Juice.Completed),
      ResumeConnect(ConnectedNotified);
    var s3 := ControlledWaiting(remote, id);
    var s4 := Apply(s3, e4);
    var s5 := Apply(s4, e5);
    var s6 := Apply(s5, e6);
    var s7 := Apply(s6, e7);
    var s8 := Apply(s7, e8);
    var s9 := Apply(s8, e9);
    assert s7.handlers == map[CandidatePt := HandleCandidate];
    RunsCons(s8, e9, []);
    RunsCons(s7, e8, [e9]);
    RunsCons(s6, e7, [e8, e9]);
    RunsCons(s5, e6, [e7, e8, e9]);
    RunsCons(s4, e5, [e6, e7, e8, e9]);
    RunsCons(s3, e4, [e5, e6, e7, e8, e9]);
  }

  /**
   * The controlled side: the peer's description arrives and is applied
   * before the local one is fetched and sent; `connect` returns true once
   * the engine reports COMPLETED, with only the Candidate handler left.
   */
  lemma ControlledHandshake(remote: string, local: string, id: int)
    ensures var es := [
        CallConnect(false),
        ResumeConnect(BackendStarted(true)),
        PushSignalingData(DescriptionPacket(id, remote)),
        ResumeConnect(RemoteDescriptionSet(Juice.ErrSuccess)),
        ResumeConnect(LocalDescription(Juice.ErrSuccess, local)),
        ResumeConnect(ResponseReceived(true)),
        ResumeConnect(CandidatesGathered(Juice.ErrSuccess)),
        StateChanged(Juice.Completed),
        ResumeConnect(ConnectedNotified)];
      && Runs(Initial, es)
      && Run(Initial, es).step == Returned(true)
      && Run(Initial, es).log == [CreateEngine(false), StartBackend, Reply(Success, id),
           SetRemoteDescription(remote), GetLocalDescription, Request(SessionDescription(local)), GatherCandidates]
      && Run(Initial, es).handlers == map[CandidatePt := HandleCandidate]
  {
    var xs := [CallConnect(false), ResumeConnect(BackendStarted(true)),
               PushSignalingData(DescriptionPacket(id, remote))];
    var ys := [ResumeConnect(RemoteDescriptionSet(Juice.ErrSuccess)),
               ResumeConnect(LocalDescription(Juice.ErrSuccess, local)),
               ResumeConnect(ResponseReceived(true)),
               ResumeConnect(CandidatesGathered(Juice.ErrSuccess)),
               StateChanged(Juice.Completed),
               ResumeConnect(ConnectedNotified)];
    ControlledOpening(remote, id);
    ControlledClosing(remote, local, id);
    RunsConcat(Initial, xs, ys);
    assert xs + ys == [xs[0], xs[1], xs[2], ys[0], ys[1], ys[2], ys[3], ys[4], ys[5]];
  }

  /** The controlling side after its description was acknowledged and the peer's was received. */
  function ControllingReceived(remote: string, local: string, id: int): ConnState {
    ConnState(map[CandidatePt := HandleCandidate, GatheringDonePt := HandleGatheringDone],
              remote, true, false, false, true, AwaitingRemoteDescription, 0,
              [CreateEngine(false), StartBackend, GetLocalDescription, Request(SessionDescription(local)),
               Reply(Success, id)])
  }

  lemma ControllingOpening(remote: string, local: string, id: int)
    ensures var es := [CallConnect(true), ResumeConnect(BackendStarted(true)),
                       ResumeConnect(LocalDescription(Juice.ErrSuccess, local)),
                       ResumeConnect(ResponseReceived(true)),
                       PushSignalingData(DescriptionPacket(id, remote))];
      Runs(Initial, es) && Run(Initial, es) == ControllingReceived(remote, local, id)
  {
    var e1, e2, e3 := CallConnect(true), ResumeConnect(BackendStarted(true)),
      ResumeConnect(LocalDescription(Juice.ErrSuccess, local));
    var e4, e5 := ResumeConnect(ResponseReceived(true)), PushSignalingData(DescriptionPacket(id, remote));
    var s1 := Apply(Initial, e1);
    var s2 := Apply(s1, e2);
    var s3 := Apply(s2, e3);
    var s4 := Apply(s3, e4);
    var s5 := Apply(s4, e5);
    assert s5 == ControllingReceived(remote, local, id);
    RunsCons(s4, e5, []);
    RunsCons(s3, e4, [e5]);
    RunsCons(s2, e3, [e4, e5]);
    RunsCons(s1, e2, [e3, e4, e5]);
    RunsCons(Initial, e1, [e2, e3, e4, e5]);
  }

  lemma ControllingClosing(remote: string, local: string, id: int)
    ensures var es := [ResumeConnect(RemoteDescriptionSet(Juice.ErrSuccess)),
                       ResumeConnect(CandidatesGathered(Juice.ErrSuccess)),
                       StateChanged(Juice.Completed),
                       ResumeConnect(ConnectedNotified)];
      && Runs(ControllingReceived(remote, local, id), es)
      && Run(ControllingReceived(remote, local, id), es) ==
         ConnState(map[CandidatePt := HandleCandidate], remote, true, false, true, true, Returned(true), 0,
                   [CreateEngine(false), StartBackend, GetLocalDescription, Request(SessionDescription(local)),
                    Reply(Success, id), SetRemoteDescription(remote), GatherCandidates])
  {
    var e6, e7 := ResumeConnect(RemoteDescriptionSet(Juice.ErrSuccess)), ResumeConnect(CandidatesGathered(Juice.ErrSuccess));
    var e8, e9 := StateChanged(Juice.Completed), ResumeConnect(ConnectedNotified);
    var s5 := ControllingReceived(remote, local, id);
    var s6 := Apply(s5, e6);
    var s7 := Apply(s6, e7);
    var s8 := Apply(s7, e8);
    var s9 := Apply(s8, e9);
    assert s7.handlers == map[CandidatePt := HandleCandidate];
    RunsCons(s8, e9, []);
    RunsCons(s7, e8, [e9]);
    RunsCons(s6, e7, [e8, e9]);
    RunsCons(s5, e6, [e7, e8, e9]);
  }

  /**
   * The controlling side: its own description is sent and acknowledged
   * before the peer's is awaited and applied; `connect` returns true once
   * the engine reports COMPLETED, with only the Candidate handler left.
   */
  lemma ControllingHandshake(remote: string, local: string, id: int)
    ensures var es := [
        CallConnect(true),
        ResumeConnect(BackendStarted(true)),
        ResumeConnect(LocalDescription(Juice.ErrSuccess, local)),
        ResumeConnect(ResponseReceived(true)),
        PushSignalingData(DescriptionPacket(id, remote)),
        ResumeConnect(RemoteDescriptionSet(Juice.ErrSuccess)),
        ResumeConnect(CandidatesGathered(Juice.ErrSuccess)),
        StateChanged(Juice.Completed),
        ResumeConnect(ConnectedNotified)];
      && Runs(Initial, es)
      && Run(Initial, es).step == Returned(true)
      && Run(Initial, es).log == [CreateEngine(false), StartBackend, GetLocalDescription,
           Request(SessionDescription(local)), Reply(Success, id), SetRemoteDescription(remote), GatherCandidates]
      && Run(Initial, es).handlers == map[CandidatePt := HandleCandidate]
  {
    var xs := [CallConnect(true), ResumeConnect(BackendStarted(true)),
               ResumeConnect(LocalDescription(Juice.ErrSuccess, local)),
               ResumeConnect(ResponseReceived(true)),
               PushSignalingData(DescriptionPacket(id, remote))];
    var ys := [ResumeConnect(RemoteDescriptionSet(Juice.ErrSuccess)),
               ResumeConnect(CandidatesGathered(Juice.ErrSuccess)),
               StateChanged(Juice.Completed),
               ResumeConnect(ConnectedNotified)];
    ControllingOpening(remote, local, id);
    ControllingClosing(remote, local, id);
    RunsConcat(Initial, xs, ys);
    assert xs + ys == [xs[0], xs[1], xs[2], xs[3], xs[4], ys[0], ys[1], ys[2], ys[3]];
  }
}
