/** All reliable sends of one manager, interleaved freely with each other and with the replies
    that arrive: a transition system over the operations of RetransmissionManager and the steps
    of SendLoop. */
module SendSystem {
  import opened Packets
  import opened RetransmissionManager
  import opened SendLoop

  /** A send: its key and packet, its first timeout, what its loop went through, and the position
      in the history at which it started. */
  datatype Task = Task(key: MessageKey, packet: Packet, t0: Duration, script: seq<SendEvent>, start: nat)

  /** What the wire and the callers did, in order. */
  datatype Event = Started(key: MessageKey) | Arrived(kind: MessageType, key: MessageKey)

  datatype System = System(manager: Manager, tasks: seq<Task>, history: seq<Event>)

  datatype Action =
    | Start(packet: Packet, peer: Endpoint, t0: Duration)
    | Reply(reply: Packet, peer: Endpoint)
    | Proceed(task: nat, event: SendEvent)

  function Initial(seed: MessageId): System {
    System(Fresh(seed), [], [])
  }

  predicate Coherent(p: Parameters, s: System) {
    && WellFormed(s.manager)
    && |s.tasks| == |s.manager.channels|
    && (forall i :: 0 <= i < |s.tasks| ==> Plays(p, s.tasks[i].packet, s.tasks[i].t0, s.tasks[i].script))
  }

  /** Where the loop of send `i` stands. */
  function Local(p: Parameters, s: System, i: nat): SendState
    requires Coherent(p, s) && i < |s.tasks|
  {
    Run(p, s.tasks[i].packet, s.tasks[i].t0, s.tasks[i].script)
  }

  predicate Awaited(p: Parameters, s: System, i: nat)
    requires Coherent(p, s) && i < |s.tasks|
  {
    !Local(p, s, i).phase.Done?
  }

  predicate Stored(s: System, i: nat)
    requires i < |s.tasks|
  {
    s.tasks[i].key in s.manager.table && s.manager.table[s.tasks[i].key] == i
  }

  /** `changed()` resolves on an unseen value, or when the sender is gone from the table. */
  predicate Resolves(s: System, i: nat)
    requires i < |s.tasks| == |s.manager.channels|
  {
    s.manager.channels[i].version > 0 || !Stored(s, i)
  }

  predicate Enabled(p: Parameters, s: System, a: Action)
    requires Coherent(p, s)
  {
    match a
    case Start(_, _, t0) => InTimeoutRange(p, t0)
    case Reply(_, _) => true
    case Proceed(i, e) =>
      && i < |s.tasks|
      && Fits(Local(p, s, i).phase, e)
      && (e.Wake? ==> Resolves(s, i) && e.event == s.manager.channels[i].value)
  }

  function Apply(p: Parameters, s: System, a: Action): (r: System)
    requires Coherent(p, s) && Enabled(p, s, a)
    ensures Coherent(p, r)
  {
    match a
    case Start(packet, peer, t0) =>
      System(StartSend(s.manager, peer),
             s.tasks + [Task(NextKey(s.manager, peer), Prepared(s.manager, packet), t0, [], |s.history|)],
             s.history + [Started(NextKey(s.manager, peer))])
    case Reply(packet, peer) =>
      System(TakeReply(s.manager, packet, peer), s.tasks,
             if IsReply(packet) then s.history + [Arrived(packet.kind, ReplyKey(packet, peer))] else s.history)
    case Proceed(i, e) =>
      var task := s.tasks[i].(script := s.tasks[i].script + [e]);
      RunOneMore(p, s.tasks[i], e);
      System(if Run(p, task.packet, task.t0, task.script).phase.Done? then Abandon(s.manager, i) else s.manager,
             s.tasks[i := task], s.history)
  }

  lemma RunOneMore(p: Parameters, task: Task, e: SendEvent)
    requires Plays(p, task.packet, task.t0, task.script)
    requires Fits(Run(p, task.packet, task.t0, task.script).phase, e)
    ensures Plays(p, task.packet, task.t0, task.script + [e])
    ensures Run(p, task.packet, task.t0, task.script + [e]) ==
            Step(p, task.packet, Run(p, task.packet, task.t0, task.script), e)
  {
    var longer := task.script + [e];
    assert longer[..|longer| - 1] == task.script;
  }

  /** A run: every action is enabled when it happens. */
  predicate Legal(p: Parameters, seed: MessageId, actions: seq<Action>)
    decreases |actions|, 0
  {
    actions != [] ==>
      var last := |actions| - 1;
      Legal(p, seed, actions[..last]) && Enabled(p, Reach(p, seed, actions[..last]), actions[last])
  }

  function Reach(p: Parameters, seed: MessageId, actions: seq<Action>): (s: System)
    requires Legal(p, seed, actions)
    ensures Coherent(p, s)
    decreases |actions|, 1
  {
    if actions == [] then Initial(seed)
    else
      var last := |actions| - 1;
      Apply(p, Reach(p, seed, actions[..last]), actions[last])
  }

  // ---------------------------------------------------------------- history

  predicate Touches(e: Event, key: MessageKey) {
    e.key == key
  }

  /** Nothing with this key happened strictly between the two positions. */
  predicate Untouched(history: seq<Event>, key: MessageKey, from: nat, to: nat) {
    forall k :: from < k < to && k < |history| ==> !Touches(history[k], key)
  }

  /** The send started at `start` is the latest with its key and has had no Ack or Reset since. */
  predicate Open(history: seq<Event>, start: nat, key: MessageKey) {
    start < |history| && history[start] == Started(key) && Untouched(history, key, start, |history|)
  }

  /** The first thing to happen to the send started at `start` is a reply of this kind, at `at`. */
  predicate AnsweredAt(history: seq<Event>, start: nat, key: MessageKey, kind: MessageType, at: nat) {
    start < at < |history| && history[at] == Arrived(kind, key) && Untouched(history, key, start, at)
  }

  /** The first thing to happen to the send started at `start` is another send with its key. */
  predicate ReplacedAt(history: seq<Event>, start: nat, key: MessageKey, at: nat) {
    start < at < |history| && history[at] == Started(key) && Untouched(history, key, start, at)
  }

  // ---------------------------------------------------------------- invariant

  /** A timeline of one wait per attempt: transmit, time out, transmit, ..., and at most one reply,
      at the end. */
  predicate Alternating(script: seq<SendEvent>) {
    && (forall k :: 0 <= k < |script| ==> (script[k].Transmit? <==> k % 2 == 0))
    && (forall k :: 0 <= k < |script| && script[k].Wake? ==> k == |script| - 1 && script[k].event != NoReplyYet)
  }

  /** What the script of a send says about where its loop stands. */
  ghost predicate ScriptOk(phase: Phase, script: seq<SendEvent>) {
    && Alternating(script)
    && (phase.Ready? ==> |script| % 2 == 0)
    && (phase.Waiting? ==> |script| % 2 == 1)
    && (!phase.Done? ==> forall k :: 0 <= k < |script| ==> !script[k].Wake?)
  }

  ghost predicate ChannelOk(history: seq<Event>, task: Task, c: ReplyChannel) {
    match c.value
    case NoReplyYet => c.version == 0
    case PeerResponse(kind) =>
      c.version == 1 && (kind == Acknowledgement || kind == Reset)
      && exists at :: AnsweredAt(history, task.start, task.key, kind, at)
    case KeyReused =>
      c.version == 1 && exists at :: ReplacedAt(history, task.start, task.key, at)
  }

  predicate OutcomeOk(phase: Phase, c: ReplyChannel) {
    && c.receivers == (if phase.Done? then 0 else 1)
    && (phase.Done? ==>
          match phase.outcome
          case Acked => c.value == PeerResponse(Acknowledgement)
          case WasReset => c.value == PeerResponse(Reset)
          case ReusedKey => c.value == KeyReused
          case UnexpectedReply(_) => false
          case _ => true)
  }

  ghost predicate TaskOk(p: Parameters, seed: MessageId, s: System, i: nat)
    requires Coherent(p, s) && i < |s.tasks|
  {
    var task, c, phase := s.tasks[i], s.manager.channels[i], Local(p, s, i).phase;
    && task.key.messageId == (seed + i) % ID_COUNT
    && task.packet.kind == Confirmable && task.packet.messageId == task.key.messageId
    && InTimeoutRange(p, task.t0)
    && task.start < |s.history| && s.history[task.start] == Started(task.key)
    && (Stored(s, i) <==> Open(s.history, task.start, task.key))
    && (Stored(s, i) ==> c.value == NoReplyYet)
    && (Awaited(p, s, i) ==> (Stored(s, i) <==> c.value == NoReplyYet))
    && ChannelOk(s.history, task, c)
    && OutcomeOk(phase, c)
    && ScriptOk(phase, task.script)
  }

  ghost predicate TableOk(s: System) {
    && (forall key :: key in s.manager.table ==>
          s.manager.table[key] < |s.tasks| && s.tasks[s.manager.table[key]].key == key)
    && (forall j :: 0 <= j < |s.history| && s.history[j].Started? ==>
          exists i :: 0 <= i < |s.tasks| && s.tasks[i].start == j)
    && (forall i, j :: 0 <= i < j < |s.tasks| ==> s.tasks[i].start < s.tasks[j].start)
  }

  ghost predicate Inv(p: Parameters, seed: MessageId, s: System)
    requires Coherent(p, s)
  {
    && s.manager.nextId == (seed + |s.tasks|) % ID_COUNT
    && TableOk(s)
    && (forall i :: 0 <= i < |s.tasks| ==> TaskOk(p, seed, s, i))
  }

  // ---------------------------------------------------------------- every step keeps it

  lemma OpenGrows(history: seq<Event>, e: Event, start: nat, key: MessageKey)
    requires start < |history|
    ensures Open(history + [e], start, key) <==> Open(history, start, key) && e.key != key
  {
    var longer := history + [e];
    assert longer[|history|] == e;
    if Open(longer, start, key) {
      forall k | start < k < |history|
        ensures !Touches(history[k], key)
      {
        assert longer[k] == history[k];
      }
    }
  }

  lemma ChannelOkGrows(history: seq<Event>, e: Event, task: Task, c: ReplyChannel)
    requires ChannelOk(history, task, c)
    ensures ChannelOk(history + [e], task, c)
  {
    match c.value {
      case NoReplyYet =>
      case PeerResponse(kind) =>
        var at :| AnsweredAt(history, task.start, task.key, kind, at);
        assert AnsweredAt(history + [e], task.start, task.key, kind, at);
      case KeyReused =>
        var at :| ReplacedAt(history, task.start, task.key, at);
        assert ReplacedAt(history + [e], task.start, task.key, at);
    }
  }

  lemma StartKeepsTask(p: Parameters, seed: MessageId, s: System, a: Action, i: nat)
    requires a.Start? && Coherent(p, s) && Inv(p, seed, s) && Enabled(p, s, a) && i < |s.tasks|
    ensures TaskOk(p, seed, Apply(p, s, a), i)
  {
    var s' := Apply(p, s, a);
    var key, e := NextKey(s.manager, a.peer), Started(NextKey(s.manager, a.peer));
    var task, c := s.tasks[i], s.manager.channels[i];
    assert TaskOk(p, seed, s, i);
    assert s'.tasks[i] == task && Local(p, s', i) == Local(p, s, i);
    OpenGrows(s.history, e, task.start, task.key);
    ChannelOkGrows(s.history, e, task, c);
    if Stored(s, i) && task.key == key {
      assert Open(s.history, task.start, task.key);
      assert ReplacedAt(s'.history, task.start, task.key, |s.history|);
    }
  }

  lemma StartAddsTask(p: Parameters, seed: MessageId, s: System, a: Action)
    requires a.Start? && Coherent(p, s) && Inv(p, seed, s) && Enabled(p, s, a)
    ensures TaskOk(p, seed, Apply(p, s, a), |s.tasks|)
  {
  }

  lemma StartKeepsInv(p: Parameters, seed: MessageId, s: System, a: Action)
    requires a.Start? && Coherent(p, s) && Inv(p, seed, s) && Enabled(p, s, a)
    ensures Inv(p, seed, Apply(p, s, a))
  {
    var s' := Apply(p, s, a);
    forall i | 0 <= i < |s'.tasks|
      ensures TaskOk(p, seed, s', i)
    {
      if i < |s.tasks| {
        StartKeepsTask(p, seed, s, a, i);
      } else {
        StartAddsTask(p, seed, s, a);
      }
    }
    forall j | 0 <= j < |s'.history| && s'.history[j].Started?
      ensures exists i :: 0 <= i < |s'.tasks| && s'.tasks[i].start == j
    {
      if j < |s.history| {
        var i :| 0 <= i < |s.tasks| && s.tasks[i].start == j;
        assert s'.tasks[i].start == j;
      } else {
        assert s'.tasks[|s.tasks|].start == j;
      }
    }
    forall i | 0 <= i < |s.tasks|
      ensures s.tasks[i].start < |s.history|
    {
      assert TaskOk(p, seed, s, i);
    }
  }

  lemma ReplyKeepsTask(p: Parameters, seed: MessageId, s: System, a: Action, i: nat)
    requires a.Reply? && Coherent(p, s) && Inv(p, seed, s) && i < |s.tasks|
    ensures TaskOk(p, seed, Apply(p, s, a), i)
  {
    var s' := Apply(p, s, a);
    var task, c := s.tasks[i], s.manager.channels[i];
    assert TaskOk(p, seed, s, i);
    assert Local(p, s', i) == Local(p, s, i);
    if IsReply(a.reply) {
      var key := ReplyKey(a.reply, a.peer);
      var e := Arrived(a.reply.kind, key);
      OpenGrows(s.history, e, task.start, task.key);
      ChannelOkGrows(s.history, e, task, c);
      if Stored(s, i) && task.key == key {
        assert Open(s.history, task.start, task.key);
        assert AnsweredAt(s'.history, task.start, task.key, a.reply.kind, |s.history|);
      }
    }
  }

  lemma ReplyKeepsInv(p: Parameters, seed: MessageId, s: System, a: Action)
    requires a.Reply? && Coherent(p, s) && Inv(p, seed, s)
    ensures Inv(p, seed, Apply(p, s, a))
  {
    var s' := Apply(p, s, a);
    forall i | 0 <= i < |s'.tasks|
      ensures TaskOk(p, seed, s', i)
    {
      ReplyKeepsTask(p, seed, s, a, i);
    }
  }

  lemma ScriptGrows(p: Parameters, task: Task, e: SendEvent)
    requires Plays(p, task.packet, task.t0, task.script)
    requires var phase := Run(p, task.packet, task.t0, task.script).phase;
             Fits(phase, e) && ScriptOk(phase, task.script)
    requires e != Wake(NoReplyYet)
    ensures Plays(p, task.packet, task.t0, task.script + [e])
    ensures ScriptOk(Run(p, task.packet, task.t0, task.script + [e]).phase, task.script + [e])
  {
    RunOneMore(p, task, e);
    var longer := task.script + [e];
    assert forall k :: 0 <= k < |task.script| ==> longer[k] == task.script[k];
  }

  lemma ProceedKeepsOwnTask(p: Parameters, seed: MessageId, s: System, a: Action)
    requires a.Proceed? && Coherent(p, s) && Inv(p, seed, s) && Enabled(p, s, a)
    ensures TaskOk(p, seed, Apply(p, s, a), a.task)
  {
    var i, s' := a.task, Apply(p, s, a);
    var task, c := s.tasks[i], s.manager.channels[i];
    assert TaskOk(p, seed, s, i);
    assert Awaited(p, s, i);
    ScriptGrows(p, task, a.event);
    RunOneMore(p, task, a.event);
    assert s'.tasks[i] == task.(script := task.script + [a.event]);
    assert Stored(s', i) <==> Stored(s, i);
    var phase' := Local(p, s', i).phase;
    assert OutcomeOk(phase', s'.manager.channels[i]);
  }

  lemma ProceedKeepsTask(p: Parameters, seed: MessageId, s: System, a: Action, i: nat)
    requires a.Proceed? && Coherent(p, s) && Inv(p, seed, s) && Enabled(p, s, a) && i < |s.tasks|
    ensures TaskOk(p, seed, Apply(p, s, a), i)
  {
    if i == a.task {
      ProceedKeepsOwnTask(p, seed, s, a);
    } else {
      var s' := Apply(p, s, a);
      assert TaskOk(p, seed, s, i);
      assert s'.tasks[i] == s.tasks[i] && s'.manager.channels[i] == s.manager.channels[i];
      assert Local(p, s', i) == Local(p, s, i);
    }
  }

  lemma ProceedKeepsInv(p: Parameters, seed: MessageId, s: System, a: Action)
    requires a.Proceed? && Coherent(p, s) && Inv(p, seed, s) && Enabled(p, s, a)
    ensures Inv(p, seed, Apply(p, s, a))
  {
    var s' := Apply(p, s, a);
    forall i | 0 <= i < |s'.tasks|
      ensures TaskOk(p, seed, s', i)
    {
      ProceedKeepsTask(p, seed, s, a, i);
    }
    forall j | 0 <= j < |s'.history| && s'.history[j].Started?
      ensures exists i :: 0 <= i < |s'.tasks| && s'.tasks[i].start == j
    {
      var i :| 0 <= i < |s.tasks| && s.tasks[i].start == j;
      assert s'.tasks[i].start == j;
    }
  }

  lemma StepKeepsInv(p: Parameters, seed: MessageId, s: System, a: Action)
    requires Coherent(p, s) && Inv(p, seed, s) && Enabled(p, s, a)
    ensures Inv(p, seed, Apply(p, s, a))
  {
    match a {
      case Start(_, _, _) => StartKeepsInv(p, seed, s, a);
      case Reply(_, _) => ReplyKeepsInv(p, seed, s, a);
      case Proceed(_, _) => ProceedKeepsInv(p, seed, s, a);
    }
  }

  /** The invariant holds in every state that any interleaving reaches. */
  lemma {:induction false} ReachInv(p: Parameters, seed: MessageId, actions: seq<Action>)
    requires Legal(p, seed, actions)
    ensures Inv(p, seed, Reach(p, seed, actions))
    decreases |actions|
  {
    if actions != [] {
      var last := |actions| - 1;
      ReachInv(p, seed, actions[..last]);
      StepKeepsInv(p, seed, Reach(p, seed, actions[..last]), actions[last]);
    }
  }
}
