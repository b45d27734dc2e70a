/** What every interleaving of observations and sends guarantees together (sections 4.1 and 4.5 of
    RFC 7641). */
module ServerTheorems {
  import opened NotificationLoop
  import opened Packets
  import opened SendLoop
  import opened Server
  import Observing = ObserveSystem
  import Sending = SendSystem

  /** Both halves of a run of the server are runs of the component systems, so everything proved
      about those holds inside the server. */
  lemma {:induction false} Projections(p: Parameters, seed: MessageId, actions: seq<Action>)
    returns (observing: seq<Observing.Action>, sending: seq<Sending.Action>)
    requires Legal(p, seed, actions)
    ensures Observing.Legal(observing) && Observing.Reach(observing) == Reach(p, seed, actions).observing
    ensures Sending.Legal(p, seed, sending) && Sending.Reach(p, seed, sending) == Reach(p, seed, actions).sending
    decreases |actions|
  {
    observing, sending := [], [];
    if actions != [] {
      var last := |actions| - 1;
      var s := Reach(p, seed, actions[..last]);
      observing, sending := Projections(p, seed, actions[..last]);
      match actions[last] {
        case Observe(change) =>
          observing := ObservingSnoc(observing, change);
        case Notify(i, response, t0) =>
          observing := ObservingSnoc(observing, NotifyStep(i, response));
          sending := SendingSnoc(p, seed, sending, StartStep(s, i, response, t0));
        case Resume(i) =>
          observing := ObservingSnoc(observing, ResumeStep(p, s, i));
        case Transport(step) =>
          sending := SendingSnoc(p, seed, sending, step);
      }
    }
  }

  lemma ObservingSnoc(run: seq<Observing.Action>, a: Observing.Action) returns (longer: seq<Observing.Action>)
    requires Observing.Legal(run) && Observing.Enabled(Observing.Reach(run), a)
    ensures Observing.Legal(longer) && Observing.Reach(longer) == Observing.Apply(Observing.Reach(run), a)
  {
    longer := run + [a];
    assert longer[..|longer| - 1] == run;
  }

  lemma SendingSnoc(p: Parameters, seed: MessageId, run: seq<Sending.Action>, a: Sending.Action)
    returns (longer: seq<Sending.Action>)
    requires Sending.Legal(p, seed, run) && Sending.Enabled(p, Sending.Reach(p, seed, run), a)
    ensures Sending.Legal(p, seed, longer)
    ensures Sending.Reach(p, seed, longer) == Sending.Apply(p, Sending.Reach(p, seed, run), a)
  {
    longer := run + [a];
    assert longer[..|longer| - 1] == run;
  }

  ghost predicate AwaitedBy(p: Parameters, s: Server, i: nat, k: nat)
    requires Coherent(p, s)
  {
    i < |s.handles| && k < |s.handles[i]| && Sending.Awaited(p, s.sending, s.handles[i][k])
  }

  lemma {:induction false} HandlesHold(p: Parameters, seed: MessageId, actions: seq<Action>, i: nat)
    requires Legal(p, seed, actions) && i < |Reach(p, seed, actions).handles|
    ensures HandlesOk(p, Reach(p, seed, actions), i)
  {
    ReachInv(p, seed, actions);
  }

  /** A send that was not acknowledged is the last of its observation. */
  lemma {:induction false} UnackedIsLast(p: Parameters, seed: MessageId, actions: seq<Action>, i: nat, k: nat)
    requires Legal(p, seed, actions)
    requires i < |Reach(p, seed, actions).handles| && k < |Reach(p, seed, actions).handles[i]|
    requires !IsAcked(p, Reach(p, seed, actions), Reach(p, seed, actions).handles[i][k])
    ensures var s := Reach(p, seed, actions);
            && k == |s.handles[i]| - 1
            && (LoopOf(s, i).pc == NotificationLoop.Sending || LoopOf(s, i).pc == Stopped(SendFailed))
            && (LoopOf(s, i).pc == Stopped(SendFailed) ==> PhaseOf(p, s, s.handles[i][k]).Done?)
  {
    HandlesHold(p, seed, actions, i);
    UnackedComesLast(p, Reach(p, seed, actions), i, k);
  }

  lemma UnackedComesLast(p: Parameters, s: Server, i: nat, k: nat)
    requires Coherent(p, s) && i < |s.handles| && k < |s.handles[i]| && HandlesOk(p, s, i)
    requires !IsAcked(p, s, s.handles[i][k])
    ensures k == |s.handles[i]| - 1
    ensures LoopOf(s, i).pc == NotificationLoop.Sending || LoopOf(s, i).pc == Stopped(SendFailed)
    ensures LoopOf(s, i).pc == Stopped(SendFailed) ==> PhaseOf(p, s, s.handles[i][k]).Done?
  {
  }

  /** One notification in flight: an observation awaits at most its latest send, its loop is then
      parked on it, and every send before it was acknowledged. */
  lemma {:induction false} OneInFlight(p: Parameters, seed: MessageId, actions: seq<Action>, i: nat, k: nat)
    requires Legal(p, seed, actions) && AwaitedBy(p, Reach(p, seed, actions), i, k)
    ensures var s := Reach(p, seed, actions);
            && k == |s.handles[i]| - 1
            && LoopOf(s, i).pc == NotificationLoop.Sending
            && (forall m :: 0 <= m < k ==> IsAcked(p, s, s.handles[i][m]))
  {
    UnackedIsLast(p, seed, actions, i, k);
    HandlesHold(p, seed, actions, i);
  }

  /** A send of this observation ended without an Ack. */
  ghost predicate Failed(p: Parameters, s: Server, i: nat, k: nat)
    requires Coherent(p, s)
  {
    && i < |s.handles| && k < |s.handles[i]|
    && !Sending.Awaited(p, s.sending, s.handles[i][k]) && !IsAcked(p, s, s.handles[i][k])
  }

  /** It is then the last one, and its loop has stopped or is about to. */
  lemma {:induction false} FailureIsLast(p: Parameters, seed: MessageId, actions: seq<Action>, i: nat, k: nat)
    requires Legal(p, seed, actions) && Failed(p, Reach(p, seed, actions), i, k)
    ensures var s := Reach(p, seed, actions);
            && k == |s.handles[i]| - 1
            && (LoopOf(s, i).pc == NotificationLoop.Sending || LoopOf(s, i).pc == Stopped(SendFailed))
  {
    UnackedIsLast(p, seed, actions, i, k);
  }

  lemma StepKeepsFailure(p: Parameters, s: Server, a: Action, i: nat, k: nat)
    requires Coherent(p, s) && Enabled(p, s, a) && Failed(p, s, i, k)
    requires LoopOf(s, i).pc == NotificationLoop.Sending || LoopOf(s, i).pc == Stopped(SendFailed)
    ensures Failed(p, Apply(p, s, a), i, k) && Apply(p, s, a).handles[i] == s.handles[i]
  {
    if a.Notify? {
      assert a.observation != i;
    }
  }

  lemma {:induction false} PrefixLegal(p: Parameters, seed: MessageId, actions: seq<Action>, n: nat)
    requires Legal(p, seed, actions) && n <= |actions|
    ensures Legal(p, seed, actions[..n])
    decreases |actions|
  {
    if n < |actions| {
      var shorter := actions[..|actions| - 1];
      PrefixLegal(p, seed, shorter, n);
      assert shorter[..n] == actions[..n];
    } else {
      assert actions[..n] == actions;
    }
  }

  /** The state after the first `n` actions of a run. */
  ghost function ReachAt(p: Parameters, seed: MessageId, actions: seq<Action>, n: nat): (s: Server)
    requires Legal(p, seed, actions) && n <= |actions|
    ensures Coherent(p, s)
  {
    PrefixLegal(p, seed, actions, n);
    Reach(p, seed, actions[..n])
  }

  /** A loop sends nothing more after a Reset, a NoReply or any other end but an Ack: in no
      continuation of the run does the observation start another send. */
  lemma {:induction false} SilentAfterFailure(p: Parameters, seed: MessageId, actions: seq<Action>,
                                              n: nat, i: nat, k: nat)
    requires Legal(p, seed, actions) && n <= |actions| && Failed(p, ReachAt(p, seed, actions, n), i, k)
    ensures Failed(p, Reach(p, seed, actions), i, k)
    ensures Reach(p, seed, actions).handles[i] == ReachAt(p, seed, actions, n).handles[i]
    decreases |actions|
  {
    if n < |actions| {
      var shorter := actions[..|actions| - 1];
      assert shorter[..n] == actions[..n];
      SilentAfterFailure(p, seed, shorter, n, i, k);
      FailureIsLast(p, seed, shorter, i, k);
      StepKeepsFailure(p, Reach(p, seed, shorter), actions[|actions| - 1], i, k);
    } else {
      assert actions[..n] == actions;
    }
  }

  /** The k-th notification of an observation goes to its own peer, unchanged but for the ID, and
      the next one starts only after that peer's Ack for it was on the wire. */
  lemma {:induction false} AckedByItsPeer(p: Parameters, seed: MessageId, actions: seq<Action>, i: nat, k: nat)
    requires Legal(p, seed, actions)
    requires i < |Reach(p, seed, actions).handles| && k < |Reach(p, seed, actions).handles[i]| - 1
    ensures var s := Reach(p, seed, actions);
            var task, next := s.sending.tasks[s.handles[i][k]], s.sending.tasks[s.handles[i][k + 1]];
            && task.key.peer == PeerOf(s, i)
            && k < |LoopOf(s, i).sent|
            && task.packet == LoopOf(s, i).sent[k].packet.(messageId := task.key.messageId)
            && exists at: nat :: Sending.AnsweredAt(s.sending.history, task.start, task.key, Acknowledgement, at)
                            && at < next.start
  {
    ReachInv(p, seed, actions);
    var s := Reach(p, seed, actions);
    assert HandlesOk(p, s, i);
    assert Carries(s, i, k);
    assert Sending.TaskOk(p, seed, s.sending, s.handles[i][k]);
    assert AckedBeforeNext(s, i, k);
  }

  /** What becomes of a change: whatever the handler responds, it is numbered and handed to the manager
      for the observation's own peer, for any first timeout in the range, and the loop waits for it. */
  lemma {:induction false} NotifiesItsPeer(p: Parameters, seed: MessageId, actions: seq<Action>,
                                           i: nat, response: Packet, t0: Duration)
    requires Legal(p, seed, actions) && i < |Reach(p, seed, actions).handles|
    requires LoopOf(Reach(p, seed, actions), i).pc.Generating?
    ensures var s := Reach(p, seed, actions);
            && (Enabled(p, s, Notify(i, response, t0)) <==> InTimeoutRange(p, t0))
            && (InTimeoutRange(p, t0) ==>
                  var s' := Apply(p, s, Notify(i, response, t0));
                  var task := s'.sending.tasks[|s.sending.tasks|];
                  && s'.handles[i] == s.handles[i] + [|s.sending.tasks|]
                  && task.key.peer == PeerOf(s, i) && task.t0 == t0
                  && task.packet == Numbered(response, LoopOf(s, i).pc.num).(messageId := task.key.messageId)
                  && LoopOf(s', i).pc == NotificationLoop.Sending)
  {
    ReachInv(p, seed, actions);
    var s := Reach(p, seed, actions);
    assert Observing.ObservationOk(s.observing, i);
    NotifiesFrom(p, s, i, response, t0);
  }

  lemma NotifiesFrom(p: Parameters, s: Server, i: nat, response: Packet, t0: Duration)
    requires Coherent(p, s) && i < |s.handles| && Observing.ObservationOk(s.observing, i)
    requires LoopOf(s, i).pc.Generating?
    ensures Enabled(p, s, Notify(i, response, t0)) <==> InTimeoutRange(p, t0)
    ensures InTimeoutRange(p, t0) ==>
              var s' := Apply(p, s, Notify(i, response, t0));
              var task := s'.sending.tasks[|s.sending.tasks|];
              && s'.handles[i] == s.handles[i] + [|s.sending.tasks|]
              && task.key.peer == PeerOf(s, i) && task.t0 == t0
              && task.packet == Numbered(response, LoopOf(s, i).pc.num).(messageId := task.key.messageId)
              && LoopOf(s', i).pc == NotificationLoop.Sending
  {
  }

  /** An observation goes on exactly if its send was acknowledged: when that send has returned, its loop
      can take the outcome up, and then waits for the next change after an Ack, and stops after
      anything else. */
  lemma {:induction false} GoesOnExactly(p: Parameters, seed: MessageId, actions: seq<Action>, i: nat)
    requires Legal(p, seed, actions) && i < |Reach(p, seed, actions).handles|
    requires LoopOf(Reach(p, seed, actions), i).pc == NotificationLoop.Sending
    ensures var s := Reach(p, seed, actions);
            && s.handles[i] != []
            && (Enabled(p, s, Resume(i)) <==> PhaseOf(p, s, Current(s, i)).Done?)
            && (Enabled(p, s, Resume(i)) ==>
                  LoopOf(Apply(p, s, Resume(i)), i).pc ==
                  if PhaseOf(p, s, Current(s, i)) == Done(Acked) then Selecting else Stopped(SendFailed))
  {
    HandlesHold(p, seed, actions, i);
    ReachInv(p, seed, actions);
    var s := Reach(p, seed, actions);
    assert Observing.ObservationOk(s.observing, i);
    GoesOn(p, s, i);
  }

  lemma GoesOn(p: Parameters, s: Server, i: nat)
    requires Coherent(p, s) && i < |s.handles| && HandlesOk(p, s, i) && Observing.ObservationOk(s.observing, i)
    requires LoopOf(s, i).pc == NotificationLoop.Sending
    ensures s.handles[i] != [] && (Enabled(p, s, Resume(i)) <==> PhaseOf(p, s, Current(s, i)).Done?)
    ensures Enabled(p, s, Resume(i)) ==>
              LoopOf(Apply(p, s, Resume(i)), i).pc ==
              if PhaseOf(p, s, Current(s, i)) == Done(Acked) then Selecting else Stopped(SendFailed)
  {
  }

  // ---------------------------------------------------------------- counting

  ghost function LiveLoops(s: Server): set<nat>
    requires |s.handles| == |s.observing.observations|
  {
    set i | 0 <= i < |s.handles| && Observing.Live(s.observing.observations[i])
  }

  /** The awaited sends of this resource. */
  ghost function AwaitedSends(p: Parameters, s: Server): set<nat>
    requires Coherent(p, s)
  {
    set i, k | 0 <= i < |s.handles| && 0 <= k < |s.handles[i]| && Sending.Awaited(p, s.sending, s.handles[i][k]) ::
      s.handles[i][k]
  }

  lemma {:induction false} ImageNoLarger(domain: set<nat>, image: set<nat>, f: map<nat, nat>)
    requires forall y :: y in image ==> exists x :: x in domain && x in f && f[x] == y
    ensures |image| <= |domain|
    decreases |domain|
  {
    if image != {} {
      var y :| y in image;
      var x :| x in domain && x in f && f[x] == y;
      forall z | z in image - {y}
        ensures exists w :: w in domain - {x} && w in f && f[w] == z
      {
        var w :| w in domain && w in f && f[w] == z;
        assert w in domain - {x};
      }
      ImageNoLarger(domain - {x}, image - {y}, f);
    }
  }

  /** Every awaited send of this resource is the current one of a running loop. */
  lemma AwaitedHasLoop(p: Parameters, s: Server, h: nat) returns (i: nat)
    requires Coherent(p, s) && h in AwaitedSends(p, s)
    requires forall j :: 0 <= j < |s.handles| ==> HandlesOk(p, s, j)
    ensures i in LiveLoops(s) && i < |s.handles| && s.handles[i] != [] && Current(s, i) == h
  {
    var j, k :| 0 <= j < |s.handles| && 0 <= k < |s.handles[j]| && s.handles[j][k] == h
                && Sending.Awaited(p, s.sending, s.handles[j][k]);
    i := j;
    UnackedComesLast(p, s, i, k);
  }

  /** Awaited sends never outnumber running loops. */
  lemma {:induction false} NoMoreSendsThanLoops(p: Parameters, seed: MessageId, actions: seq<Action>)
    requires Legal(p, seed, actions)
    ensures var s := Reach(p, seed, actions);
            |AwaitedSends(p, s)| <= |LiveLoops(s)|
  {
    var s := Reach(p, seed, actions);
    ReachInv(p, seed, actions);
    var current := map i | 0 <= i < |s.handles| && s.handles[i] != [] :: Current(s, i);
    forall h | h in AwaitedSends(p, s)
      ensures exists i :: i in LiveLoops(s) && i in current && current[i] == h
    {
      var i := AwaitedHasLoop(p, s, h);
      assert current[i] == h;
    }
    ImageNoLarger(LiveLoops(s), AwaitedSends(p, s), current);
  }
}
