/**
 * The connection object. Its fields are the state `connect` and the
 * signaling handlers share: the parser's handler table, the remote
 * description with the events `connect` waits on, the step the `connect`
 * coroutine has reached, and the log of what the connection did. Each step
 * method runs one guarded step of `connect`, each handler method one handler,
 * and each is proved to change the fields exactly as the matching transition of
 * `Signaling` does, so everything proved in `Ordering` holds of the object.
 */
module Conn {
  import opened Wrappers
  import opened Protocol
  import opened Signaling
  import opened Ordering
  import Juice

  class Connection {
    var handlers: map<PacketType, Handler>
    var remoteDesc: string
    var sessionDescSet: bool
    var remoteGatheringDone: bool
    var connected: bool
    var controlling: bool
    var step: Step
    var attemptStart: nat
    var log: seq<Action>

    /** The fields as a value of the specification's state. */
    function Current(): ConnState
      reads this
    {
      ConnState(handlers, remoteDesc, sessionDescSet, remoteGatheringDone, connected,
                controlling, step, attemptStart, log)
    }

    ghost predicate Valid()
      reads this
    {
      Inv(Current())
    }

    constructor ()
      ensures Valid() && Current() == Initial
    {
      handlers := map[];
      remoteDesc := "";
      sessionDescSet := false;
      remoteGatheringDone := false;
      connected := false;
      controlling := false;
      step := Idle;
      attemptStart := 0;
      log := [];
      InitialInv();
    }

    /**
     * `connect` up to its first suspension: create the engine (with no
     * gathering-done callback), install the three handlers, start the backend.
     */
    method Connect(role: bool)
      requires Valid() && !InFlight(Current())
      modifies this
      ensures Valid() && Current() == Signaling.Connect(old(Current()), role)
    {
      ghost var s0 := Current();
      var created := CreateEngine(!IgnoreGatheringDone);
      handlers := handlers[SessionDescriptionPt := HandleSessionDescription]
                          [CandidatePt := HandleCandidate]
                          [GatheringDonePt := HandleGatheringDone];
      remoteDesc, sessionDescSet, remoteGatheringDone := "", false, false;
      controlling, step := role, StartingBackend;
      attemptStart := |log|;
      log := log + [created, StartBackend];
      assert Current() == Signaling.Connect(s0, role);
      ConnectPreservesInv(s0, role);
    }

    /** `start_backend` completed with `ok`: a failure returns false, otherwise the role picks the next step. */
    method BackendStarted(ok: bool)
      requires Valid() && step == StartingBackend
      modifies this
      ensures Valid() && Current() == Resume(old(Current()), Outcome.BackendStarted(ok))
    {
      ghost var s0 := Current();
      if !ok {
        step := Returned(false);
      } else if controlling {
        step := FetchingLocalDescription;
      } else {
        step := AwaitingRemoteDescription;
      }
      assert Current() == Resume(s0, Outcome.BackendStarted(ok));
      ResumePreservesInv(s0, Outcome.BackendStarted(ok));
    }

    /** Once `session_desc_set` is notified: apply the stored remote description, the engine answering `code`. */
    method ApplyRemoteDescription(code: int)
      requires Valid() && step == AwaitingRemoteDescription && sessionDescSet
      modifies this
      ensures Valid() && Current() == Resume(old(Current()), RemoteDescriptionSet(code))
    {
      ghost var s0 := Current();
      log := log + [SetRemoteDescription(remoteDesc)];
      if code != Juice.ErrSuccess {
        step := Returned(false);
      } else if controlling {
        step := GatheringCandidates;
      } else {
        step := FetchingLocalDescription;
      }
      assert Current() == Resume(s0, RemoteDescriptionSet(code));
      ResumePreservesInv(s0, RemoteDescriptionSet(code));
    }

    /** Fetch the local description (the engine answering `code` and `desc`) and send it as a request. */
    method PublishLocalDescription(code: int, desc: string)
      requires Valid() && step == FetchingLocalDescription
      modifies this
      ensures Valid() && Current() == Resume(old(Current()), LocalDescription(code, desc))
    {
      ghost var s0 := Current();
      log := log + [GetLocalDescription];
      if code != Juice.ErrSuccess {
        step := Returned(false);
      } else {
        log := log + [Request(SessionDescription(desc))];
        step := AwaitingSuccess;
      }
      assert Current() == Resume(s0, LocalDescription(code, desc));
      ResumePreservesInv(s0, LocalDescription(code, desc));
    }

    /** The response to the local description arrived; `ok` when it was a Success. */
    method LocalDescriptionAnswered(ok: bool)
      requires Valid() && step == AwaitingSuccess
      modifies this
      ensures Valid() && Current() == Resume(old(Current()), ResponseReceived(ok))
    {
      ghost var s0 := Current();
      if !ok {
        step := Returned(false);
      } else if controlling {
        step := AwaitingRemoteDescription;
      } else {
        step := GatheringCandidates;
      }
      assert Current() == Resume(s0, ResponseReceived(ok));
      ResumePreservesInv(s0, ResponseReceived(ok));
    }

    /** Start candidate gathering (the engine answering `code`); on success drop the GatheringDone entry. */
    method StartGathering(code: int)
      requires Valid() && step == GatheringCandidates
      modifies this
      ensures Valid() && Current() == Resume(old(Current()), CandidatesGathered(code))
    {
      ghost var s0 := Current();
      log := log + [GatherCandidates];
      if code != Juice.ErrSuccess {
        step := Returned(false);
      } else {
        handlers := handlers - {GatheringDonePt};
        step := AwaitingConnected;
      }
      assert Current() == Resume(s0, CandidatesGathered(code));
      ResumePreservesInv(s0, CandidatesGathered(code));
    }

    /** Once `connected` is notified, `connect` returns true. */
    method Finish()
      requires Valid() && step == AwaitingConnected && connected
      modifies this
      ensures Valid() && Current() == Resume(old(Current()), ConnectedNotified)
    {
      ghost var s0 := Current();
      step := Returned(true);
      assert Current() == Resume(s0, ConnectedNotified);
      ResumePreservesInv(s0, ConnectedNotified);
    }

    /** The SessionDescription handler. */
    method OnSessionDescriptionPacket(header: Header, payload: Option<string>, replyOk: bool) returns (ok: bool)
      modifies this
      ensures (Current(), ok) == SessionDescriptionHandler(old(Current()), header, payload, replyOk)
    {
      if payload.None? {
        return false;
      }
      remoteDesc := payload.value;
      sessionDescSet := true;
      log := log + [Reply(Success, header.id)];
      if !replyOk {
        return false;
      }
      handlers := handlers - {SessionDescriptionPt};
      return true;
    }

    /** The Candidate handler. */
    method OnCandidatePacket(payload: Option<string>, code: int) returns (ok: bool)
      modifies this
      ensures (Current(), ok) == CandidateHandler(old(Current()), payload, code)
    {
      if payload.None? {
        return false;
      }
      log := log + [AddRemoteCandidate(payload.value)];
      return code == Juice.ErrSuccess;
    }

    /** The GatheringDone handler, erasing the SessionDescription entry as written. */
    method OnGatheringDonePacket(header: Header, replyOk: bool) returns (ok: bool)
      modifies this
      ensures (Current(), ok) == GatheringDoneHandler(old(Current()), header, replyOk)
    {
      remoteGatheringDone := true;
      log := log + [Reply(Success, header.id)];
      if !replyOk {
        return false;
      }
      handlers := handlers - {SessionDescriptionPt};
      return true;
    }

    /** `parser.callbacks.invoke`: run the handler registered for the header's type, false when there is none. */
    method Invoke(header: Header, input: Inbound) returns (handled: bool)
      modifies this
      ensures (Current(), handled) == Signaling.Invoke(old(Current()), header, input)
    {
      if header.pt !in handlers {
        return false;
      }
      match handlers[header.pt] {
        case HandleSessionDescription =>
          handled := OnSessionDescriptionPacket(header, input.payload, input.replyOk);
        case HandleCandidate =>
          handled := OnCandidatePacket(input.payload, input.candidateCode);
        case HandleGatheringDone =>
          handled := OnGatheringDonePacket(header, input.replyOk);
      }
    }

    /** `push_signaling_data`: dispatch through the handler table, answering Error when nothing took the packet. */
    method PushSignalingData(input: Inbound) returns (ok: bool)
      requires Valid()
      modifies this
      ensures Valid() && (Current(), ok) == Push(old(Current()), input)
    {
      ghost var s0 := Current();
      PushPreservesInv(s0, input);
      if input.parsed.None? {
        return true;
      }
      var header := input.parsed.value;
      var handled := Invoke(header, input);
      ghost var s1 := Current();
      if !handled && header.id != ErrorPt as int {
        log := log + [Reply(Error, header.id)];
        assert Current() == s1.(log := s1.log + [Reply(Error, header.id)]);
        ok := input.errorReplyOk;
      } else {
        ok := true;
      }
      assert (Current(), ok) == Push(s0, input);
    }

    /** `on_state_changed`: COMPLETED notifies `connected`, FAILED invokes `on_disconnected`. */
    method OnStateChanged(state: Juice.State)
      requires Valid()
      modifies this
      ensures Valid() && Current() == Signaling.OnStateChanged(old(Current()), state)
    {
      ghost var s0 := Current();
      match state {
        case Completed => connected := true;
        case Failed => log := log + [Disconnected];
        case _ =>
      }
      assert Current() == Signaling.OnStateChanged(s0, state);
      StateChangedPreservesInv(s0, state);
    }

    /** `on_candidate`: send the discovered candidate; a failed send invokes `on_disconnected`. */
    method OnCandidate(desc: string, sendOk: bool)
      requires Valid()
      modifies this
      ensures Valid() && Current() == Signaling.OnCandidate(old(Current()), desc, sendOk)
    {
      ghost var s0 := Current();
      log := log + [Request(Candidate(desc))];
      if !sendOk {
        log := log + [Disconnected];
      }
      assert Current() == Signaling.OnCandidate(s0, desc, sendOk);
      CandidateFoundPreservesInv(s0, desc, sendOk);
    }
  }
}
