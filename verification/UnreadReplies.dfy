/** What becomes of a reply that the manager accepted: the send reads it, unless the send gives up
    with the reply already in its channel. */
module UnreadReplies {
  import opened Packets
  import opened RetransmissionManager
  import opened SendLoop
  import opened SendSystem
  import opened SendTheorems
  import opened SendTiming
  import opened Sequences

  /** This action is a reply that the manager accepts for send `i`. */
  predicate AcceptsFor(s: System, a: Action, i: nat, kind: MessageType)
    requires WellFormed(s.manager)
  {
    && a.Reply? && a.reply.kind == kind
    && ReplyOutcomeOf(s.manager, a.reply, a.peer).Accepted?
    && s.manager.table[ReplyKey(a.reply, a.peer)] == i
  }

  ghost predicate AcceptedAt(p: Parameters, seed: MessageId, actions: seq<Action>, n: nat, i: nat, kind: MessageType)
    requires Legal(p, seed, actions)
  {
    n < |actions| && AcceptsFor(ReachAt(p, seed, actions, n), actions[n], i, kind)
  }

  /** A peer's reply is in a channel from the step that accepts it, and no other step puts one there. */
  lemma StepFillsChannel(p: Parameters, s: System, a: Action, i: nat, kind: MessageType)
    requires Coherent(p, s) && Enabled(p, s, a) && i < |s.tasks|
    ensures var before, after := s.manager.channels[i].value, Apply(p, s, a).manager.channels[i].value;
            && (AcceptsFor(s, a, i, kind) ==> after == PeerResponse(kind))
            && (after == PeerResponse(kind) && before != after ==> AcceptsFor(s, a, i, kind))
  {
  }

  lemma NewChannelIsEmpty(p: Parameters, s: System, a: Action)
    requires Coherent(p, s) && Enabled(p, s, a)
    ensures var s' := Apply(p, s, a);
            && |s.tasks| <= |s'.tasks| <= |s.tasks| + 1
            && (|s'.tasks| > |s.tasks| ==> s'.manager.channels[|s.tasks|].value == NoReplyYet)
  {
  }

  /** A send that has returned hears nothing any more. */
  lemma StepKeepsReturned(p: Parameters, s: System, a: Action, i: nat)
    requires Coherent(p, s) && Enabled(p, s, a) && i < |s.tasks|
    requires !Awaited(p, s, i) && s.manager.channels[i].receivers == 0
    ensures Returned(p, s, Apply(p, s, a), i)
  {
  }

  /** Send `i` has returned, and is in `t` as it was in `s`. */
  predicate Returned(p: Parameters, s: System, t: System, i: nat)
    requires Coherent(p, s) && Coherent(p, t)
  {
    && i < |s.tasks| && i < |t.tasks|
    && !Awaited(p, t, i) && Local(p, t, i) == Local(p, s, i)
    && t.manager.channels[i].receivers == 0
    && t.manager.channels[i].value == s.manager.channels[i].value
  }

  lemma {:induction false} ReachNext(p: Parameters, seed: MessageId, actions: seq<Action>, n: nat)
    requires Legal(p, seed, actions) && n < |actions|
    ensures Enabled(p, ReachAt(p, seed, actions, n), actions[n])
    ensures ReachAt(p, seed, actions, n + 1) == Apply(p, ReachAt(p, seed, actions, n), actions[n])
  {
    PrefixLegal(p, seed, actions, n + 1);
    assert DropLast(actions[..n + 1]) == actions[..n];
  }

  lemma {:induction false} ReachAtEnd(p: Parameters, seed: MessageId, actions: seq<Action>)
    requires Legal(p, seed, actions)
    ensures ReachAt(p, seed, actions, |actions|) == Reach(p, seed, actions)
  {
    WholePrefix(actions);
  }

  lemma {:induction false} StillAt(p: Parameters, seed: MessageId, actions: seq<Action>, n: nat)
    requires Legal(p, seed, actions) && n < |actions|
    ensures Legal(p, seed, DropLast(actions))
    ensures ReachAt(p, seed, DropLast(actions), n) == ReachAt(p, seed, actions, n)
  {
    PrefixOfDropLast(actions, n);
  }

  /** A channel holds a peer's reply exactly if the manager accepted that reply for its send. */
  lemma {:induction false} HoldsWhatWasAccepted(p: Parameters, seed: MessageId, actions: seq<Action>,
                                                i: nat, kind: MessageType)
    requires Legal(p, seed, actions) && i < |Reach(p, seed, actions).tasks|
    ensures Reach(p, seed, actions).manager.channels[i].value == PeerResponse(kind) <==>
              exists n :: AcceptedAt(p, seed, actions, n, i, kind)
  {
    if Reach(p, seed, actions).manager.channels[i].value == PeerResponse(kind) {
      var n := AcceptedSometime(p, seed, actions, i, kind);
    }
    forall n | AcceptedAt(p, seed, actions, n, i, kind)
      ensures Reach(p, seed, actions).manager.channels[i].value == PeerResponse(kind)
    {
      AcceptedIsHeld(p, seed, actions, n, i, kind);
    }
  }

  lemma {:induction false} AcceptedIsHeld(p: Parameters, seed: MessageId, actions: seq<Action>,
                                          n: nat, i: nat, kind: MessageType)
    requires Legal(p, seed, actions) && AcceptedAt(p, seed, actions, n, i, kind)
    ensures i < |Reach(p, seed, actions).tasks|
    ensures Reach(p, seed, actions).manager.channels[i].value == PeerResponse(kind)
  {
    ReachNext(p, seed, actions, n);
    StepFillsChannel(p, ReachAt(p, seed, actions, n), actions[n], i, kind);
    NewChannelIsEmpty(p, ReachAt(p, seed, actions, n), actions[n]);
    RepliesAreFinal(p, seed, actions, n + 1, i);
  }

  lemma {:induction false} AcceptedSometime(p: Parameters, seed: MessageId, actions: seq<Action>,
                                            i: nat, kind: MessageType)
    returns (n: nat)
    requires Legal(p, seed, actions) && i < |Reach(p, seed, actions).tasks|
    requires Reach(p, seed, actions).manager.channels[i].value == PeerResponse(kind)
    ensures AcceptedAt(p, seed, actions, n, i, kind)
    decreases |actions|
  {
    var before, last := DropLast(actions), |actions| - 1;
    var s := Reach(p, seed, before);
    StillAt(p, seed, actions, last);
    ReachAtEnd(p, seed, before);
    NewChannelIsEmpty(p, s, actions[last]);
    StepFillsChannel(p, s, actions[last], i, kind);
    if s.manager.channels[i].value == PeerResponse(kind) {
      n := AcceptedSometime(p, seed, before, i, kind);
      StillAt(p, seed, actions, n);
    } else {
      n := last;
    }
  }

  lemma ReturnedTwice(p: Parameters, s: System, t: System, u: System, i: nat)
    requires Coherent(p, s) && Coherent(p, t) && Coherent(p, u)
    requires Returned(p, s, t, i) && Returned(p, t, u, i)
    ensures Returned(p, s, u, i)
  {
  }

  lemma {:induction false} ReturnedForGood(p: Parameters, seed: MessageId, actions: seq<Action>, m: nat, i: nat)
    requires Legal(p, seed, actions) && m <= |actions| && i < |ReachAt(p, seed, actions, m).tasks|
    requires !Awaited(p, ReachAt(p, seed, actions, m), i)
    ensures Returned(p, ReachAt(p, seed, actions, m), Reach(p, seed, actions), i)
    decreases |actions|
  {
    if m == |actions| {
      ReachAtEnd(p, seed, actions);
      ReachInv(p, seed, actions);
      assert TaskOk(p, seed, Reach(p, seed, actions), i);
    } else {
      var before := DropLast(actions);
      StillAt(p, seed, actions, m);
      ReturnedForGood(p, seed, before, m, i);
      StepKeepsReturned(p, Reach(p, seed, before), actions[|actions| - 1], i);
      ReturnedTwice(p, ReachAt(p, seed, actions, m), Reach(p, seed, before), Reach(p, seed, actions), i);
    }
  }

  /** This action is the one with which send `i` gives up. */
  ghost predicate GivesUpAt(p: Parameters, seed: MessageId, actions: seq<Action>, m: nat, i: nat)
    requires Legal(p, seed, actions)
  {
    && m < |actions| && i < |ReachAt(p, seed, actions, m).tasks|
    && Awaited(p, ReachAt(p, seed, actions, m), i)
    && i < |ReachAt(p, seed, actions, m + 1).tasks| && GaveUp(p, ReachAt(p, seed, actions, m + 1), i)
  }

  lemma GivingUpChangesNoChannel(p: Parameters, s: System, a: Action, i: nat)
    requires Coherent(p, s) && Enabled(p, s, a) && i < |s.tasks|
    requires Awaited(p, s, i) && !Awaited(p, Apply(p, s, a), i)
    ensures Apply(p, s, a).manager.channels[i].value == s.manager.channels[i].value
  {
  }

  /** An accepted reply is read or still to be read, except that one goes unread for good exactly if
      the send gives up (no more attempts, no transport, an overflow) with it in its channel already. */
  lemma {:induction false} UnreadExactly(p: Parameters, seed: MessageId, actions: seq<Action>,
                                         m: nat, i: nat, kind: MessageType)
    requires Legal(p, seed, actions) && GivesUpAt(p, seed, actions, m, i)
    ensures (exists n :: AcceptedAt(p, seed, actions, n, i, kind)) <==>
              ReachAt(p, seed, actions, m).manager.channels[i].value == PeerResponse(kind)
  {
    ReachNext(p, seed, actions, m);
    GivingUpChangesNoChannel(p, ReachAt(p, seed, actions, m), actions[m], i);
    ReturnedForGood(p, seed, actions, m + 1, i);
    HoldsWhatWasAccepted(p, seed, actions, i, kind);
  }

  lemma {:induction false} ReadOrGivenUp(p: Parameters, seed: MessageId, actions: seq<Action>,
                                         n: nat, i: nat, kind: MessageType)
    requires Legal(p, seed, actions) && AcceptedAt(p, seed, actions, n, i, kind)
    ensures var s := Reach(p, seed, actions);
            && i < |s.tasks| && kind in {Acknowledgement, Reset}
            && (|| Awaited(p, s, i)
                || Local(p, s, i).phase == Done(if kind == Acknowledgement then Acked else WasReset)
                || GaveUpOn(p, s.tasks[i], Local(p, s, i).phase))
  {
    AcceptedIsHeld(p, seed, actions, n, i, kind);
    ReachInv(p, seed, actions);
    var s := Reach(p, seed, actions);
    assert TaskOk(p, seed, s, i);
    if GaveUp(p, s, i) {
      WhyGivenUp(p, s.tasks[i]);
    }
  }

  /** A send gave up, for the one reason there is for its outcome. */
  predicate GaveUpOn(p: Parameters, task: Task, phase: Phase) {
    && task.script != []
    && match task.script[|task.script| - 1]
       case Transmit(false) => phase == Done(TransmissionError)
       case Transmit(true) =>
         phase == Done(DurationOverflow) && task.t0 * Pow2(p.maxRetransmit + 1) > MAX_DURATION
       case Expire => phase == Done(NoReply(p.maxRetransmit + 1))
       case Wake(_) => false
  }

  lemma WhyGivenUp(p: Parameters, task: Task)
    requires Plays(p, task.packet, task.t0, task.script)
    requires var phase := Run(p, task.packet, task.t0, task.script).phase;
             && phase.Done?
             && (phase.outcome.NoReply? || phase.outcome.TransmissionError? || phase.outcome.DurationOverflow?)
    ensures GaveUpOn(p, task, Run(p, task.packet, task.t0, task.script).phase)
  {
    OutcomeExactly(p, task.packet, task.t0, task.script);
    if Run(p, task.packet, task.t0, task.script).phase == Done(DurationOverflow) {
      OverflowNeeds(p, task.packet, task.t0, task.script);
    }
  }

  /** A run in which an Ack goes unread, for every number of attempts: it is accepted during the last
      wait, and `select!` picks the timeout all the same. */
  lemma UnreadAck(p: Parameters, seed: MessageId, packet: Packet, peer: Endpoint, t0: Duration) returns (s: System)
    requires InTimeoutRange(p, t0) && t0 * Pow2(p.maxRetransmit + 1) <= MAX_DURATION
    ensures Coherent(p, s) && Reachable(p, seed, s)
    ensures |s.tasks| == 1 && Local(p, s, 0).phase == Done(NoReply(p.maxRetransmit + 1))
    ensures s.manager.channels[0].value == PeerResponse(Acknowledgement)
  {
    var waiting := SilentRun(p, seed, packet, peer, t0, p.maxRetransmit);
    SilenceIsWaiting(p, waiting.tasks[0].packet, t0, p.maxRetransmit);
    var a := Reply(packet.(kind := Acknowledgement, messageId := seed), peer);
    StepReachable(p, seed, waiting, a);
    s := ProceedAlone(p, seed, Apply(p, waiting, a), Expire);
  }
}
