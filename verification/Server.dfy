/** One observable resource together with the retransmission manager its notifications go
    through.  The manager is shared: sends of other resources interleave freely. */
module Server {
  import opened NotificationLoop
  import opened Packets
  import opened SendLoop
  import Wrappers
  import Observing = ObserveSystem
  import ObserveKept = ObserveInvariant
  import Sending = SendSystem

  /** `handles` lists the sends each observation has started, in order. */
  datatype Server = Server(observing: Observing.System, sending: Sending.System, handles: seq<seq<nat>>)

  datatype Action =
    | Observe(change: Observing.Action)
    | Notify(observation: nat, response: Packet, t0: Duration)
    | Resume(observation: nat)
    | Transport(step: Sending.Action)

  function Initial(seed: MessageId): Server {
    Server(Observing.Initial(), Sending.Initial(seed), [])
  }

  predicate Coherent(p: Parameters, s: Server) {
    && Observing.Coherent(s.observing)
    && Sending.Coherent(p, s.sending)
    && |s.handles| == |s.observing.observations|
    && (forall i, k :: 0 <= i < |s.handles| && 0 <= k < |s.handles[i]| ==> s.handles[i][k] < |s.sending.tasks|)
  }

  function LoopOf(s: Server, i: nat): LoopState
    requires i < |s.observing.observations|
  {
    s.observing.observations[i].loop
  }

  function PeerOf(s: Server, i: nat): Endpoint
    requires i < |s.observing.observations|
  {
    s.observing.observations[i].key.peer
  }

  function PhaseOf(p: Parameters, s: Server, h: nat): Phase
    requires Coherent(p, s) && h < |s.sending.tasks|
  {
    Sending.Local(p, s.sending, h).phase
  }

  /** The current send of an observation that awaits one. */
  function Current(s: Server, i: nat): nat
    requires i < |s.handles| && s.handles[i] != []
  {
    s.handles[i][|s.handles[i]| - 1]
  }

  /** A handler's success and the outcome of a send belong to the joint actions. */
  predicate Joint(a: Observing.Action) {
    a.Loop? && (a.event.SendReturned? || (a.event.HandlerReturned? && a.event.response.Ok?))
  }

  function NotifyStep(i: nat, response: Packet): Observing.Action {
    Observing.Loop(i, HandlerReturned(Wrappers.Ok(response)))
  }

  function StartStep(s: Server, i: nat, response: Packet, t0: Duration): Sending.Action
    requires i < |s.observing.observations| && LoopOf(s, i).pc.Generating?
  {
    Sending.Start(Numbered(response, LoopOf(s, i).pc.num), PeerOf(s, i), t0)
  }

  function ResumeStep(p: Parameters, s: Server, i: nat): Observing.Action
    requires Coherent(p, s) && i < |s.handles| && s.handles[i] != []
  {
    Observing.Loop(i, SendReturned(PhaseOf(p, s, Current(s, i)) == Done(Acked)))
  }

  predicate Enabled(p: Parameters, s: Server, a: Action)
    requires Coherent(p, s)
  {
    match a
    case Observe(change) => !Joint(change) && Observing.Enabled(s.observing, change)
    case Notify(i, response, t0) =>
      && i < |s.handles| && Observing.Enabled(s.observing, NotifyStep(i, response))
      && InTimeoutRange(p, t0)
    case Resume(i) =>
      && i < |s.handles| && s.handles[i] != [] && PhaseOf(p, s, Current(s, i)).Done?
      && Observing.Enabled(s.observing, ResumeStep(p, s, i))
    case Transport(step) => Sending.Enabled(p, s.sending, step)
  }

  function Apply(p: Parameters, s: Server, a: Action): (r: Server)
    requires Coherent(p, s) && Enabled(p, s, a)
    ensures Coherent(p, r)
  {
    match a
    case Observe(change) =>
      var observing := Observing.Apply(s.observing, change);
      Server(observing, s.sending, if change.SubscribeTo? then s.handles + [[]] else s.handles)
    case Notify(i, response, t0) =>
      Server(Observing.Apply(s.observing, NotifyStep(i, response)),
             Sending.Apply(p, s.sending, StartStep(s, i, response, t0)),
             s.handles[i := s.handles[i] + [|s.sending.tasks|]])
    case Resume(i) =>
      s.(observing := Observing.Apply(s.observing, ResumeStep(p, s, i)))
    case Transport(step) =>
      s.(sending := Sending.Apply(p, s.sending, step))
  }

  predicate Legal(p: Parameters, seed: MessageId, actions: seq<Action>)
    decreases |actions|, 0
  {
    actions != [] ==>
      var last := |actions| - 1;
      Legal(p, seed, actions[..last]) && Enabled(p, Reach(p, seed, actions[..last]), actions[last])
  }

  function Reach(p: Parameters, seed: MessageId, actions: seq<Action>): (s: Server)
    requires Legal(p, seed, actions)
    ensures Coherent(p, s)
    decreases |actions|, 1
  {
    if actions == [] then Initial(seed)
    else
      var last := |actions| - 1;
      Apply(p, Reach(p, seed, actions[..last]), actions[last])
  }

  // ---------------------------------------------------------------- invariant

  predicate IsAcked(p: Parameters, s: Server, h: nat)
    requires Coherent(p, s) && h < |s.sending.tasks|
  {
    PhaseOf(p, s, h) == Done(Acked)
  }

  /** The k-th send of an observation carries its k-th notification to its own peer. */
  ghost predicate Carries(s: Server, i: nat, k: nat)
    requires i < |s.handles| == |s.observing.observations| && k < |s.handles[i]|
  {
    && s.handles[i][k] < |s.sending.tasks| && k < |LoopOf(s, i).sent|
    && var task := s.sending.tasks[s.handles[i][k]];
       var packet := LoopOf(s, i).sent[k].packet;
       task.key.peer == PeerOf(s, i) && task.packet == packet.(messageId := task.packet.messageId)
       && packet.kind == Confirmable
  }

  /** Every send but the last was acknowledged; and the last one too, unless it is awaited or
      ended the loop. */
  ghost predicate HandlesOk(p: Parameters, s: Server, i: nat)
    requires Coherent(p, s) && i < |s.handles|
  {
    var mine, pc := s.handles[i], LoopOf(s, i).pc;
    && |mine| == |LoopOf(s, i).sent|
    && (forall k :: 0 <= k < |mine| ==> Carries(s, i, k))
    && (forall k :: 0 <= k < |mine| - 1 ==> IsAcked(p, s, mine[k]))
    && (pc == NotificationLoop.Sending ==> mine != [])
    && (mine != [] && pc != NotificationLoop.Sending && pc != Stopped(SendFailed) ==> IsAcked(p, s, Current(s, i)))
    && (pc == Stopped(SendFailed) ==>
          mine != [] && PhaseOf(p, s, Current(s, i)).Done? && !IsAcked(p, s, Current(s, i)))
  }

  /** No send belongs to two observations, or twice to one. */
  ghost predicate Exclusive(s: Server) {
    forall i, j, k, m ::
      0 <= i < |s.handles| && 0 <= j < |s.handles| && 0 <= k < |s.handles[i]| && 0 <= m < |s.handles[j]| ==>
        s.handles[i][k] == s.handles[j][m] ==> i == j && k == m
  }

  /** The peer's Ack for the k-th send was on the wire before the next send started. */
  ghost predicate AckedBeforeNext(s: Server, i: nat, k: nat)
    requires i < |s.handles| && k < |s.handles[i]| - 1
    requires forall m :: 0 <= m < |s.handles[i]| ==> s.handles[i][m] < |s.sending.tasks|
  {
    var task, next := s.sending.tasks[s.handles[i][k]], s.sending.tasks[s.handles[i][k + 1]];
    exists at: nat ::
      Sending.AnsweredAt(s.sending.history, task.start, task.key, Acknowledgement, at) && at < next.start
  }

  ghost predicate Inv(p: Parameters, seed: MessageId, s: Server)
    requires Coherent(p, s)
  {
    && Observing.Inv(s.observing)
    && Sending.Inv(p, seed, s.sending)
    && Exclusive(s)
    && (forall i :: 0 <= i < |s.handles| ==> HandlesOk(p, s, i))
    && (forall i, k :: 0 <= i < |s.handles| && 0 <= k < |s.handles[i]| - 1 ==> AckedBeforeNext(s, i, k))
  }

  // ---------------------------------------------------------------- every step keeps it

  /** A step moves at most the loop it is about, and no observation changes its key. */
  lemma StepKeepsIdentity(o: Observing.System, a: Observing.Action, i: nat)
    requires Observing.Coherent(o) && Observing.Enabled(o, a) && i < |o.observations|
    ensures var o' := Observing.Apply(o, a);
            && i < |o'.observations| && o'.observations[i].key == o.observations[i].key
            && o'.observations[i].loop ==
               if a.Loop? && a.observation == i then LoopStep(o.observations[i].loop, a.event)
               else o.observations[i].loop
  {
  }

  lemma ObserveKeepsHandles(p: Parameters, s: Server, a: Action, i: nat)
    requires a.Observe? && Coherent(p, s) && Enabled(p, s, a) && i < |s.handles| && HandlesOk(p, s, i)
    ensures HandlesOk(p, Apply(p, s, a), i)
  {
    var s' := Apply(p, s, a);
    StepKeepsIdentity(s.observing, a.change, i);
    assert s'.handles[i] == s.handles[i] && s'.sending == s.sending;
    forall k | 0 <= k < |s.handles[i]|
      ensures Carries(s', i, k)
    {
      assert Carries(s, i, k);
    }
  }

  lemma ObserveKeepsInv(p: Parameters, seed: MessageId, s: Server, a: Action)
    requires a.Observe? && Coherent(p, s) && Inv(p, seed, s) && Enabled(p, s, a)
    ensures Inv(p, seed, Apply(p, s, a))
  {
    ObserveKept.StepKeepsInv(s.observing, a.change);
    forall i | 0 <= i < |Apply(p, s, a).handles|
      ensures HandlesOk(p, Apply(p, s, a), i)
    {
      if i < |s.handles| {
        ObserveKeepsHandles(p, s, a, i);
      }
    }
    forall i, k | 0 <= i < |Apply(p, s, a).handles| && 0 <= k < |Apply(p, s, a).handles[i]| - 1
      ensures AckedBeforeNext(Apply(p, s, a), i, k)
    {
      assert AckedBeforeNext(s, i, k);
    }
  }

  lemma NotifyKeepsHandles(p: Parameters, s: Server, a: Action, i: nat)
    requires a.Notify? && Coherent(p, s) && Enabled(p, s, a) && i < |s.handles| && HandlesOk(p, s, i)
    ensures HandlesOk(p, Apply(p, s, a), i)
  {
    NotifyKeepsSends(p, s, a, i);
    forall k | 0 <= k < |Apply(p, s, a).handles[i]|
      ensures Carries(Apply(p, s, a), i, k)
    {
      NotifyCarries(p, s, a, i, k);
    }
  }

  lemma NotifyCarries(p: Parameters, s: Server, a: Action, i: nat, k: nat)
    requires a.Notify? && Coherent(p, s) && Enabled(p, s, a) && i < |s.handles| && k < |Apply(p, s, a).handles[i]|
    requires |s.handles[i]| == |LoopOf(s, i).sent| && (k < |s.handles[i]| ==> Carries(s, i, k))
    ensures Carries(Apply(p, s, a), i, k)
  {
    StepKeepsIdentity(s.observing, NotifyStep(a.observation, a.response), i);
  }

  /** The sends that are out stay as they are; the notification, if it is this observation's, starts
      one more. */
  lemma NotifyKeepsSends(p: Parameters, s: Server, a: Action, i: nat)
    requires a.Notify? && Coherent(p, s) && Enabled(p, s, a) && i < |s.handles|
    ensures var s' := Apply(p, s, a);
            && (forall h :: 0 <= h < |s.sending.tasks| ==>
                  h < |s'.sending.tasks| && PhaseOf(p, s', h) == PhaseOf(p, s, h))
            && LoopOf(s', i).pc == (if i == a.observation then NotificationLoop.Sending else LoopOf(s, i).pc)
            && (i == a.observation ==> LoopOf(s, i).pc.Generating? && |LoopOf(s', i).sent| == |LoopOf(s, i).sent| + 1)
            && (i != a.observation ==> LoopOf(s', i) == LoopOf(s, i) && s'.handles[i] == s.handles[i])
            && (i == a.observation ==> s'.handles[i] == s.handles[i] + [|s.sending.tasks|])
  {
    StepKeepsIdentity(s.observing, NotifyStep(a.observation, a.response), i);
  }

  lemma AnswerRemains(history: seq<Sending.Event>, e: Sending.Event, start: nat, key: MessageKey, at: nat)
    requires Sending.AnsweredAt(history, start, key, Acknowledgement, at)
    ensures Sending.AnsweredAt(history + [e], start, key, Acknowledgement, at)
  {
  }

  /** What is in order stays so when events are added at the end. */
  lemma OrderRemains(s: Server, s': Server, i: nat, k: nat, e: Sending.Event)
    requires i < |s.handles| && k < |s.handles[i]| - 1
    requires forall m :: 0 <= m < |s.handles[i]| ==> s.handles[i][m] < |s.sending.tasks|
    requires AckedBeforeNext(s, i, k)
    requires i < |s'.handles| && s.handles[i] <= s'.handles[i]
    requires forall m :: 0 <= m < |s'.handles[i]| ==> s'.handles[i][m] < |s'.sending.tasks|
    requires s'.sending.history == s.sending.history + [e]
    requires |s.sending.tasks| <= |s'.sending.tasks|
    requires forall h :: 0 <= h < |s.sending.tasks| ==>
               && s'.sending.tasks[h].start == s.sending.tasks[h].start
               && s'.sending.tasks[h].key == s.sending.tasks[h].key
    ensures AckedBeforeNext(s', i, k)
  {
    var task, next := s.sending.tasks[s.handles[i][k]], s.sending.tasks[s.handles[i][k + 1]];
    var at: nat :| Sending.AnsweredAt(s.sending.history, task.start, task.key, Acknowledgement, at) && at < next.start;
    AnswerRemains(s.sending.history, e, task.start, task.key, at);
    assert s'.handles[i][k] == s.handles[i][k] && s'.handles[i][k + 1] == s.handles[i][k + 1];
  }

  lemma NotifyKeepsOlder(p: Parameters, s: Server, a: Action, i: nat, k: nat)
    requires a.Notify? && Coherent(p, s) && Enabled(p, s, a)
    requires i < |s.handles| && k < |s.handles[i]| - 1 && AckedBeforeNext(s, i, k)
    ensures AckedBeforeNext(Apply(p, s, a), i, k)
  {
    OrderRemains(s, Apply(p, s, a), i, k, Apply(p, s, a).sending.history[|s.sending.history|]);
  }

  /** The notification that starts one more send follows the Ack for the one before. */
  lemma NotifyFollowsAck(p: Parameters, seed: MessageId, s: Server, a: Action, k: nat)
    requires a.Notify? && Coherent(p, s) && Enabled(p, s, a) && k == |s.handles[a.observation]| - 1
    requires HandlesOk(p, s, a.observation) && Sending.TaskOk(p, seed, s.sending, s.handles[a.observation][k])
    ensures AckedBeforeNext(Apply(p, s, a), a.observation, k)
  {
    var s', history := Apply(p, s, a), s.sending.history;
    var h := s.handles[a.observation][k];
    var task := s.sending.tasks[h];
    var at: nat :| Sending.AnsweredAt(history, task.start, task.key, Acknowledgement, at);
    AnswerRemains(history, s'.sending.history[|history|], task.start, task.key, at);
    assert s'.handles[a.observation][k] == h && s'.sending.tasks[h] == task;
    assert s'.sending.history == history + [s'.sending.history[|history|]];
    assert Sending.AnsweredAt(s'.sending.history, task.start, task.key, Acknowledgement, at);
    assert s'.sending.tasks[s'.handles[a.observation][k + 1]].start == |history|;
  }

  lemma NotifyKeepsOrder(p: Parameters, seed: MessageId, s: Server, a: Action, i: nat, k: nat)
    requires a.Notify? && Coherent(p, s) && Inv(p, seed, s) && Enabled(p, s, a)
    requires i < |s.handles| && k < |Apply(p, s, a).handles[i]| - 1
    ensures AckedBeforeNext(Apply(p, s, a), i, k)
  {
    if k < |s.handles[i]| - 1 {
      assert AckedBeforeNext(s, i, k);
      NotifyKeepsOlder(p, s, a, i, k);
    } else {
      assert HandlesOk(p, s, i) && Sending.TaskOk(p, seed, s.sending, s.handles[i][k]);
      NotifyFollowsAck(p, seed, s, a, k);
    }
  }

  lemma NotifyKeepsExclusive(p: Parameters, s: Server, a: Action)
    requires a.Notify? && Coherent(p, s) && Enabled(p, s, a) && Exclusive(s)
    ensures Exclusive(Apply(p, s, a))
  {
  }

  lemma NotifyKeepsInv(p: Parameters, seed: MessageId, s: Server, a: Action)
    requires a.Notify? && Coherent(p, s) && Inv(p, seed, s) && Enabled(p, s, a)
    ensures Inv(p, seed, Apply(p, s, a))
  {
    ObserveKept.StepKeepsInv(s.observing, NotifyStep(a.observation, a.response));
    Sending.StepKeepsInv(p, seed, s.sending, StartStep(s, a.observation, a.response, a.t0));
    NotifyKeepsExclusive(p, s, a);
    forall i | 0 <= i < |Apply(p, s, a).handles|
      ensures HandlesOk(p, Apply(p, s, a), i)
    {
      NotifyKeepsHandles(p, s, a, i);
    }
    forall i, k | 0 <= i < |Apply(p, s, a).handles| && 0 <= k < |Apply(p, s, a).handles[i]| - 1
      ensures AckedBeforeNext(Apply(p, s, a), i, k)
    {
      NotifyKeepsOrder(p, seed, s, a, i, k);
    }
  }

  lemma ResumeKeepsHandles(p: Parameters, s: Server, a: Action, i: nat)
    requires a.Resume? && Coherent(p, s) && Enabled(p, s, a) && i < |s.handles| && HandlesOk(p, s, i)
    ensures HandlesOk(p, Apply(p, s, a), i)
  {
    var s' := Apply(p, s, a);
    StepKeepsIdentity(s.observing, ResumeStep(p, s, a.observation), i);
    forall k | 0 <= k < |s.handles[i]|
      ensures Carries(s', i, k)
    {
      assert Carries(s, i, k);
    }
  }

  lemma ResumeKeepsInv(p: Parameters, seed: MessageId, s: Server, a: Action)
    requires a.Resume? && Coherent(p, s) && Inv(p, seed, s) && Enabled(p, s, a)
    ensures Inv(p, seed, Apply(p, s, a))
  {
    ObserveKept.StepKeepsInv(s.observing, ResumeStep(p, s, a.observation));
    forall i | 0 <= i < |s.handles|
      ensures HandlesOk(p, Apply(p, s, a), i)
    {
      ResumeKeepsHandles(p, s, a, i);
    }
    forall i, k | 0 <= i < |s.handles| && 0 <= k < |s.handles[i]| - 1
      ensures AckedBeforeNext(Apply(p, s, a), i, k)
    {
      assert AckedBeforeNext(s, i, k);
    }
  }

  /** A send that has returned stays as it is, and no send changes its key or packet. */
  lemma TransportKeepsSend(p: Parameters, s: Server, a: Action, h: nat)
    requires a.Transport? && Coherent(p, s) && Enabled(p, s, a) && h < |s.sending.tasks|
    ensures var s' := Apply(p, s, a);
            && h < |s'.sending.tasks|
            && s'.sending.tasks[h].key == s.sending.tasks[h].key
            && s'.sending.tasks[h].packet == s.sending.tasks[h].packet
            && (PhaseOf(p, s, h).Done? ==> PhaseOf(p, s', h) == PhaseOf(p, s, h))
  {
  }

  lemma TransportKeepsHandles(p: Parameters, s: Server, a: Action, i: nat)
    requires a.Transport? && Coherent(p, s) && Enabled(p, s, a) && i < |s.handles| && HandlesOk(p, s, i)
    ensures HandlesOk(p, Apply(p, s, a), i)
  {
    var s' := Apply(p, s, a);
    forall k | 0 <= k < |s.handles[i]|
      ensures Carries(s', i, k) && (IsAcked(p, s, s.handles[i][k]) ==> IsAcked(p, s', s.handles[i][k]))
    {
      assert Carries(s, i, k);
      TransportKeepsSend(p, s, a, s.handles[i][k]);
    }
    if s.handles[i] != [] {
      TransportKeepsSend(p, s, a, Current(s, i));
    }
  }

  lemma TransportKeepsOrder(p: Parameters, seed: MessageId, s: Server, a: Action, i: nat, k: nat)
    requires a.Transport? && Coherent(p, s) && Inv(p, seed, s) && Enabled(p, s, a)
    requires i < |s.handles| && k < |s.handles[i]| - 1
    ensures AckedBeforeNext(Apply(p, s, a), i, k)
  {
    var s', history := Apply(p, s, a), s.sending.history;
    var h, g := s.handles[i][k], s.handles[i][k + 1];
    var task, next := s.sending.tasks[h], s.sending.tasks[g];
    assert AckedBeforeNext(s, i, k);
    var at: nat :| Sending.AnsweredAt(history, task.start, task.key, Acknowledgement, at) && at < next.start;
    if |s'.sending.history| > |history| {
      var e := s'.sending.history[|history|];
      assert s'.sending.history == history + [e];
      AnswerRemains(history, e, task.start, task.key, at);
    }
    assert s'.sending.tasks[h].start == task.start && s'.sending.tasks[g].start == next.start;
    assert s'.sending.tasks[h].key == task.key;
    assert Sending.AnsweredAt(s'.sending.history, task.start, task.key, Acknowledgement, at);
  }

  lemma TransportKeepsInv(p: Parameters, seed: MessageId, s: Server, a: Action)
    requires a.Transport? && Coherent(p, s) && Inv(p, seed, s) && Enabled(p, s, a)
    ensures Inv(p, seed, Apply(p, s, a))
  {
    Sending.StepKeepsInv(p, seed, s.sending, a.step);
    forall i | 0 <= i < |s.handles|
      ensures HandlesOk(p, Apply(p, s, a), i)
    {
      TransportKeepsHandles(p, s, a, i);
    }
    forall i, k | 0 <= i < |s.handles| && 0 <= k < |s.handles[i]| - 1
      ensures AckedBeforeNext(Apply(p, s, a), i, k)
    {
      TransportKeepsOrder(p, seed, s, a, i, k);
    }
  }

  /** The invariant holds in every state that any interleaving reaches. */
  lemma {:induction false} ReachInv(p: Parameters, seed: MessageId, actions: seq<Action>)
    requires Legal(p, seed, actions)
    ensures Inv(p, seed, Reach(p, seed, actions))
    decreases |actions|
  {
    if actions != [] {
      var last := |actions| - 1;
      var s, a := Reach(p, seed, actions[..last]), actions[last];
      ReachInv(p, seed, actions[..last]);
      match a {
        case Observe(_) => ObserveKeepsInv(p, seed, s, a);
        case Notify(_, _, _) => NotifyKeepsInv(p, seed, s, a);
        case Resume(_) => ResumeKeepsInv(p, seed, s, a);
        case Transport(_) => TransportKeepsInv(p, seed, s, a);
      }
    }
  }
}
