/** What every interleaving of sends and replies guarantees (sections 4.2, 4.4 and 4.8.2 of
    RFC 7252). */
module SendTheorems {
  import opened Packets
  import opened RetransmissionManager
  import opened SendLoop
  import opened SendSystem
  import opened SendTiming
  import Watch

  /** While a send is awaited, its reply channel is empty exactly as long as its own handle is in
      the table.  So the loop never wakes to an empty channel, never to an unexpected reply, and
      waits once per attempt. */
  lemma {:induction false} AwaitedWhileStored(p: Parameters, seed: MessageId, actions: seq<Action>, i: nat)
    requires Legal(p, seed, actions) && i < |Reach(p, seed, actions).tasks|
    ensures var s := Reach(p, seed, actions);
            && (Awaited(p, s, i) ==> (s.manager.channels[i].value == NoReplyYet <==> Stored(s, i)))
            && (Awaited(p, s, i) && s.manager.channels[i].value == NoReplyYet ==>
                  forall e :: Enabled(p, s, Proceed(i, e)) ==> !e.Wake?)
            && Alternating(s.tasks[i].script)
            && (forall kind :: Local(p, s, i).phase != Done(UnexpectedReply(kind)))
  {
    ReachInv(p, seed, actions);
    assert TaskOk(p, seed, Reach(p, seed, actions), i);
  }

  lemma StepKeepsReply(p: Parameters, seed: MessageId, s: System, a: Action, i: nat)
    requires Coherent(p, s) && Inv(p, seed, s) && Enabled(p, s, a) && i < |s.tasks|
    ensures var s' := Apply(p, s, a);
            && i < |s'.tasks| && s'.tasks[i].key == s.tasks[i].key && s'.tasks[i].start == s.tasks[i].start
            && (s.manager.channels[i].value != NoReplyYet ==>
                  s'.manager.channels[i].value == s.manager.channels[i].value)
  {
    assert TaskOk(p, seed, s, i);
  }

  lemma {:induction false} PrefixLegal(p: Parameters, seed: MessageId, actions: seq<Action>, n: nat)
    requires Legal(p, seed, actions) && n <= |actions|
    ensures Legal(p, seed, actions[..n])
    decreases |actions|
  {
    if n < |actions| {
      var shorter := actions[..|actions| - 1];
      PrefixLegal(p, seed, shorter, n);
      assert shorter[..n] == actions[..n];
    } else {
      assert actions[..n] == actions;
    }
  }

  /** The state after the first `n` actions of a run. */
  ghost function ReachAt(p: Parameters, seed: MessageId, actions: seq<Action>, n: nat): (s: System)
    requires Legal(p, seed, actions) && n <= |actions|
    ensures Coherent(p, s)
  {
    PrefixLegal(p, seed, actions, n);
    Reach(p, seed, actions[..n])
  }

  /** A reply channel is written at most once: what it holds after the first `n` actions of a run
      it holds for the rest of it. */
  lemma {:induction false} RepliesAreFinal(p: Parameters, seed: MessageId, actions: seq<Action>, n: nat, i: nat)
    requires Legal(p, seed, actions) && n <= |actions| && i < |ReachAt(p, seed, actions, n).tasks|
    ensures var earlier, later := ReachAt(p, seed, actions, n), Reach(p, seed, actions);
            && i < |later.tasks|
            && later.manager.channels[i].version <= 1
            && (earlier.manager.channels[i].value != NoReplyYet ==>
                  later.manager.channels[i].value == earlier.manager.channels[i].value)
    decreases |actions|
  {
    ReachInv(p, seed, actions);
    if n < |actions| {
      var shorter := actions[..|actions| - 1];
      assert shorter[..n] == actions[..n];
      RepliesAreFinal(p, seed, shorter, n, i);
      ReachInv(p, seed, shorter);
      StepKeepsReply(p, seed, Reach(p, seed, shorter), actions[|actions| - 1], i);
    } else {
      assert actions[..n] == actions;
    }
    assert TaskOk(p, seed, Reach(p, seed, actions), i);
  }

  lemma SameIdDistance(seed: MessageId, i: nat, j: nat)
    requires i < j && (seed + i) % ID_COUNT == (seed + j) % ID_COUNT
    ensures (j - i) % ID_COUNT == 0 && j - i >= ID_COUNT
  {
    var a, b := (seed + i) / ID_COUNT, (seed + j) / ID_COUNT;
    assert j - i == ID_COUNT * (b - a);
    assert b > a;
  }

  /** IDs follow the seed in order of start, and the table leads from keys to sends with them. */
  predicate IdsOk(seed: MessageId, s: System) {
    && s.manager.nextId == (seed + |s.tasks|) % ID_COUNT
    && (forall i :: 0 <= i < |s.tasks| ==> s.tasks[i].key.messageId == (seed + i) % ID_COUNT)
    && (forall key :: key in s.manager.table ==>
          s.manager.table[key] < |s.tasks| && s.tasks[s.manager.table[key]].key == key)
  }

  lemma {:induction false} IdsFollowTheSeed(p: Parameters, seed: MessageId, actions: seq<Action>)
    requires Legal(p, seed, actions)
    ensures IdsOk(seed, Reach(p, seed, actions))
  {
    ReachInv(p, seed, actions);
    var s := Reach(p, seed, actions);
    forall i | 0 <= i < |s.tasks|
      ensures s.tasks[i].key.messageId == (seed + i) % ID_COUNT
    {
      assert TaskOk(p, seed, s, i);
    }
  }

  lemma DisplacedDistance(seed: MessageId, s: System, key: MessageKey)
    requires IdsOk(seed, s) && key.messageId == s.manager.nextId && key in s.manager.table
    ensures var older := s.manager.table[key];
            && older < |s.tasks| && s.tasks[older].key == key
            && (|s.tasks| - older) % ID_COUNT == 0 && |s.tasks| - older >= ID_COUNT
  {
    SameIdDistance(seed, s.manager.table[key], |s.tasks|);
  }

  /** A new send takes over a table entry only from a send to the same peer that started a
      positive multiple of 65536 sends earlier. */
  lemma {:induction false} DisplacesOnlyAfterWrap(p: Parameters, seed: MessageId, actions: seq<Action>, peer: Endpoint)
    requires Legal(p, seed, actions)
    ensures var s := Reach(p, seed, actions);
            NextKey(s.manager, peer) in s.manager.table ==>
              var older := s.manager.table[NextKey(s.manager, peer)];
              && older < |s.tasks|
              && s.tasks[older].key.peer == peer
              && (|s.tasks| - older) % ID_COUNT == 0 && |s.tasks| - older >= ID_COUNT
  {
    var s := Reach(p, seed, actions);
    IdsFollowTheSeed(p, seed, actions);
    if NextKey(s.manager, peer) in s.manager.table {
      DisplacedDistance(seed, s, NextKey(s.manager, peer));
    }
  }

  lemma ReusedDistance(p: Parameters, seed: MessageId, s: System, i: nat)
    requires Coherent(p, s) && Inv(p, seed, s) && i < |s.tasks| && s.manager.channels[i].value == KeyReused
    ensures |s.tasks| - 1 - i >= ID_COUNT
  {
    var task := s.tasks[i];
    assert TaskOk(p, seed, s, i);
    var at :| ReplacedAt(s.history, task.start, task.key, at);
    var j :| 0 <= j < |s.tasks| && s.tasks[j].start == at;
    assert TaskOk(p, seed, s, j);
    assert j > i;
    SameIdDistance(seed, i, j);
  }

  /** A send never fails with the reuse error before 65536 later sends have started, whatever
      their peers. */
  lemma {:induction false} NoEarlyReuse(p: Parameters, seed: MessageId, actions: seq<Action>, i: nat)
    requires Legal(p, seed, actions) && i < |Reach(p, seed, actions).tasks|
    requires |Reach(p, seed, actions).tasks| - 1 - i < ID_COUNT
    ensures var s := Reach(p, seed, actions);
            s.manager.channels[i].value != KeyReused && Local(p, s, i).phase != Done(ReusedKey)
  {
    ReachInv(p, seed, actions);
    var s := Reach(p, seed, actions);
    assert TaskOk(p, seed, s, i);
    if s.manager.channels[i].value == KeyReused {
      ReusedDistance(p, seed, s, i);
      assert false;
    }
  }

  /** The table refines the history: a key is stored exactly when the latest send with that key
      has had no matching Ack or Reset since, and it is stored for that very send. */
  lemma {:induction false} TableRefinesHistory(p: Parameters, seed: MessageId, actions: seq<Action>, key: MessageKey)
    requires Legal(p, seed, actions)
    ensures var s := Reach(p, seed, actions);
            && (key in s.manager.table <==> exists start :: Open(s.history, start, key))
            && (key in s.manager.table ==>
                  && s.manager.table[key] < |s.tasks|
                  && Open(s.history, s.tasks[s.manager.table[key]].start, key))
  {
    ReachInv(p, seed, actions);
    var s := Reach(p, seed, actions);
    if key in s.manager.table {
      var i := s.manager.table[key];
      assert TaskOk(p, seed, s, i);
      assert Stored(s, i);
    }
    if start :| Open(s.history, start, key) {
      var i :| 0 <= i < |s.tasks| && s.tasks[i].start == start;
      assert TaskOk(p, seed, s, i);
      assert Stored(s, i);
    }
  }

  /** The send this reply answers: open under the reply's key. */
  ghost predicate Addressed(s: System, packet: Packet, peer: Endpoint, i: nat) {
    && i < |s.tasks|
    && IsReply(packet)
    && s.tasks[i].key == ReplyKey(packet, peer)
    && Open(s.history, s.tasks[i].start, s.tasks[i].key)
  }

  lemma {:induction false} AddressedIffMatches(p: Parameters, seed: MessageId, actions: seq<Action>,
                                               packet: Packet, peer: Endpoint)
    requires Legal(p, seed, actions)
    ensures var s := Reach(p, seed, actions);
            && (Matches(s.manager, packet, peer) <==> exists i :: Addressed(s, packet, peer, i))
            && (forall i :: Addressed(s, packet, peer, i) ==>
                  ReplyKey(packet, peer) in s.manager.table && i == s.manager.table[ReplyKey(packet, peer)])
  {
    ReachInv(p, seed, actions);
    var s := Reach(p, seed, actions);
    var key := ReplyKey(packet, peer);
    if Matches(s.manager, packet, peer) {
      var i := s.manager.table[key];
      assert TaskOk(p, seed, s, i);
      assert Addressed(s, packet, peer, i);
    }
    forall i | Addressed(s, packet, peer, i)
      ensures key in s.manager.table && i == s.manager.table[key]
    {
      assert TaskOk(p, seed, s, i);
      assert Stored(s, i);
    }
  }

  /** Where a reply goes.  It is accepted exactly when it addresses a send still awaited, and then
      exactly that send's channel receives it.  It is given back, changing nothing, exactly when
      it addresses no send.  The remaining case is the panic of the `unwrap`. */
  lemma {:induction false} ReplyRouting(p: Parameters, seed: MessageId, actions: seq<Action>,
                                        packet: Packet, peer: Endpoint)
    requires Legal(p, seed, actions)
    ensures var s := Reach(p, seed, actions);
            var outcome, m' := ReplyOutcomeOf(s.manager, packet, peer), TakeReply(s.manager, packet, peer);
            && (outcome.Accepted? <==> exists i :: Addressed(s, packet, peer, i) && Awaited(p, s, i))
            && (outcome.Panicked? <==> exists i :: Addressed(s, packet, peer, i) && !Awaited(p, s, i))
            && (outcome.HandedBack? <==> !exists i :: Addressed(s, packet, peer, i))
            && (outcome.HandedBack? ==> outcome.packet == packet && m' == s.manager)
            && (outcome.Accepted? ==>
                  forall i :: 0 <= i < |s.tasks| ==>
                    m'.channels[i].value == if Addressed(s, packet, peer, i) then PeerResponse(packet.kind)
                                            else s.manager.channels[i].value)
            && (outcome.Panicked? ==> m'.channels == s.manager.channels)
  {
    ReachInv(p, seed, actions);
    AddressedIffMatches(p, seed, actions, packet, peer);
    var s := Reach(p, seed, actions);
    if Matches(s.manager, packet, peer) {
      var i := s.manager.table[ReplyKey(packet, peer)];
      assert TaskOk(p, seed, s, i);
      assert Addressed(s, packet, peer, i);
    }
  }

  /** A reply whose key has arrived before is given back and changes nothing, whatever became of the
      earlier one, unless a send has started under that key in between. */
  lemma {:induction false} DuplicatesAreHandedBack(p: Parameters, seed: MessageId, actions: seq<Action>,
                                                   at: nat, packet: Packet, peer: Endpoint)
    requires Legal(p, seed, actions) && at < |Reach(p, seed, actions).history|
    requires var s, key := Reach(p, seed, actions), ReplyKey(packet, peer);
             && s.history[at].Arrived? && s.history[at].key == key
             && forall k :: at < k < |s.history| ==> s.history[k] != Started(key)
    ensures var m := Reach(p, seed, actions).manager;
            ReplyOutcomeOf(m, packet, peer) == HandedBack(packet) && TakeReply(m, packet, peer) == m
  {
    var s, key := Reach(p, seed, actions), ReplyKey(packet, peer);
    TableRefinesHistory(p, seed, actions, key);
    if start: nat :| Open(s.history, start, key) {
      assert start != at;
      assert start < at ==> Touches(s.history[at], key);
    }
  }

  /** The panic strikes exactly on a reply, the first one and under the latest use of its key, to
      a send that stopped on its own: out of attempts, out of transport, or by overflow. */
  lemma {:induction false} PanicsOnLateReply(p: Parameters, seed: MessageId, actions: seq<Action>,
                                             packet: Packet, peer: Endpoint)
    requires Legal(p, seed, actions)
    ensures var s := Reach(p, seed, actions);
            ReplyOutcomeOf(s.manager, packet, peer) == Panicked <==>
              exists i :: Addressed(s, packet, peer, i) && GaveUp(p, s, i)
  {
    ReplyRouting(p, seed, actions, packet, peer);
    ReachInv(p, seed, actions);
    var s := Reach(p, seed, actions);
    forall i | Addressed(s, packet, peer, i) && !Awaited(p, s, i)
      ensures GaveUp(p, s, i)
    {
      assert TaskOk(p, seed, s, i);
      assert Stored(s, i);
    }
  }

  predicate GaveUp(p: Parameters, s: System, i: nat)
    requires Coherent(p, s) && i < |s.tasks|
  {
    var phase := Local(p, s, i).phase;
    phase.Done? && (phase.outcome.NoReply? || phase.outcome.TransmissionError? || phase.outcome.DurationOverflow?)
  }

  ghost predicate Reachable(p: Parameters, seed: MessageId, s: System) {
    exists actions :: Legal(p, seed, actions) && Reach(p, seed, actions) == s
  }

  lemma StepReachable(p: Parameters, seed: MessageId, s: System, a: Action)
    requires Coherent(p, s) && Reachable(p, seed, s) && Enabled(p, s, a)
    ensures Reachable(p, seed, Apply(p, s, a))
  {
    var actions :| Legal(p, seed, actions) && Reach(p, seed, actions) == s;
    var longer := actions + [a];
    assert longer[..|longer| - 1] == actions;
    assert Legal(p, seed, longer) && Reach(p, seed, longer) == Apply(p, s, a);
  }

  lemma FirstSend(p: Parameters, seed: MessageId, packet: Packet, peer: Endpoint, t0: Duration) returns (s: System)
    requires InTimeoutRange(p, t0)
    ensures Coherent(p, s) && Reachable(p, seed, s)
    ensures |s.tasks| == 1 && s.tasks[0].script == [] && s.tasks[0].t0 == t0
    ensures s.manager.table == map[MessageKey(seed, peer) := 0] && s.tasks[0].key == MessageKey(seed, peer)
    ensures s.manager.channels == [Watch.WatchState(NoReplyYet, 0, 1)]
  {
    assert Legal(p, seed, []) && Reach(p, seed, []) == Initial(seed);
    StepReachable(p, seed, Initial(seed), Start(packet, peer, t0));
    s := Apply(p, Initial(seed), Start(packet, peer, t0));
  }

  /** The only send of the manager, started with this timeout, waits; nothing has arrived. */
  ghost predicate Silent(p: Parameters, seed: MessageId, s: System, peer: Endpoint, t0: Duration, k: nat) {
    && Coherent(p, s) && Reachable(p, seed, s)
    && |s.tasks| == 1 && s.tasks[0].script == Silence(k) && s.tasks[0].t0 == t0
    && s.tasks[0].key == MessageKey(seed, peer)
    && s.manager.table == map[MessageKey(seed, peer) := 0]
    && s.manager.channels == [Watch.WatchState(NoReplyYet, 0, 1)]
  }

  /** As long as no timeout overflows, silence keeps a send waiting after each copy. */
  lemma SilenceIsWaiting(p: Parameters, packet: Packet, t0: Duration, k: nat)
    requires k <= p.maxRetransmit && t0 * Pow2(p.maxRetransmit + 1) <= MAX_DURATION
    ensures Plays(p, packet, t0, Silence(k))
    ensures Run(p, packet, t0, Silence(k)).phase == Waiting(k, t0 * Pow2(k), t0 * Pow2(k + 1))
  {
    Pow2Monotone(k + 1, p.maxRetransmit + 1);
    ScaleMonotone(t0, Pow2(k + 1), Pow2(p.maxRetransmit + 1));
    SentAtNext(t0, k);
    SilenceWaits(p, packet, t0, k);
  }

  /** One more event of the only send, which does not return on it. */
  lemma ProceedAlone(p: Parameters, seed: MessageId, s: System, e: SendEvent) returns (r: System)
    requires Coherent(p, s) && Reachable(p, seed, s) && |s.tasks| == 1
    requires !e.Wake? && Fits(Local(p, s, 0).phase, e)
    ensures Coherent(p, r) && Reachable(p, seed, r)
    ensures r.tasks == [s.tasks[0].(script := s.tasks[0].script + [e])] && r.manager.table == s.manager.table
    ensures Local(p, r, 0) == Step(p, s.tasks[0].packet, Local(p, s, 0), e)
    ensures r.manager == if Awaited(p, r, 0) then s.manager else Abandon(s.manager, 0)
  {
    RunOneMore(p, s.tasks[0], e);
    StepReachable(p, seed, s, Proceed(0, e));
    r := Apply(p, s, Proceed(0, e));
  }

  lemma {:induction false} SilentRun(p: Parameters, seed: MessageId, packet: Packet, peer: Endpoint,
                                     t0: Duration, k: nat)
    returns (s: System)
    requires InTimeoutRange(p, t0) && k <= p.maxRetransmit && t0 * Pow2(p.maxRetransmit + 1) <= MAX_DURATION
    ensures Silent(p, seed, s, peer, t0, k)
  {
    if k == 0 {
      var started := FirstSend(p, seed, packet, peer, t0);
      SilenceIsWaiting(p, started.tasks[0].packet, t0, 0);
      s := ProceedAlone(p, seed, started, Transmit(true));
    } else {
      var before := SilentRun(p, seed, packet, peer, t0, k - 1);
      s := OneMoreCopy(p, seed, before, peer, t0, k);
    }
  }

  lemma OneMoreCopy(p: Parameters, seed: MessageId, before: System, peer: Endpoint, t0: Duration, k: nat)
    returns (s: System)
    requires 0 < k <= p.maxRetransmit && t0 * Pow2(p.maxRetransmit + 1) <= MAX_DURATION
    requires Silent(p, seed, before, peer, t0, k - 1)
    ensures Silent(p, seed, s, peer, t0, k)
  {
    SilenceIsWaiting(p, before.tasks[0].packet, t0, k - 1);
    SilenceIsWaiting(p, before.tasks[0].packet, t0, k);
    SilenceGrows(k);
    var expired := ProceedAlone(p, seed, before, Expire);
    s := ProceedAlone(p, seed, expired, Transmit(true));
  }

  lemma SilenceGrows(k: nat)
    requires k > 0
    ensures Silence(k) == Silence(k - 1) + [Expire] + [Transmit(true)]
  {
  }

  /** Such a run, for every number of attempts: they all time out, and then the peer's Ack for the
      very first copy arrives. */
  lemma LateReplyExample(p: Parameters, seed: MessageId, packet: Packet, peer: Endpoint, t0: Duration)
    returns (s: System)
    requires InTimeoutRange(p, t0) && t0 * Pow2(p.maxRetransmit + 1) <= MAX_DURATION
    ensures Coherent(p, s) && Reachable(p, seed, s)
    ensures |s.tasks| == 1 && Local(p, s, 0).phase == Done(NoReply(p.maxRetransmit + 1))
    ensures ReplyOutcomeOf(s.manager, packet.(kind := Acknowledgement, messageId := seed), peer) == Panicked
  {
    var waiting := SilentRun(p, seed, packet, peer, t0, p.maxRetransmit);
    SilenceIsWaiting(p, waiting.tasks[0].packet, t0, p.maxRetransmit);
    s := ProceedAlone(p, seed, waiting, Expire);
  }

  /** In particular under the parameters that the server uses, whatever the first timeout. */
  lemma LateReplyByDefault(seed: MessageId, packet: Packet, peer: Endpoint, t0: Duration) returns (s: System)
    requires InTimeoutRange(DEFAULT, t0)
    ensures Coherent(DEFAULT, s) && Reachable(DEFAULT, seed, s)
    ensures |s.tasks| == 1 && Local(DEFAULT, s, 0).phase == Done(NoReply(5))
    ensures ReplyOutcomeOf(s.manager, packet.(kind := Acknowledgement, messageId := seed), peer) == Panicked
  {
    assert Pow2(1) == 2 && Pow2(2) == 4 && Pow2(3) == 8 && Pow2(4) == 16 && Pow2(5) == 32;
    s := LateReplyExample(DEFAULT, seed, packet, peer, t0);
  }

  /** The outcome of a send tells the truth about the wire. */
  lemma {:induction false} TruthfulOutcome(p: Parameters, seed: MessageId, actions: seq<Action>, i: nat)
    requires Legal(p, seed, actions) && i < |Reach(p, seed, actions).tasks|
    ensures var s := Reach(p, seed, actions);
            var task, phase := s.tasks[i], Local(p, s, i).phase;
            && (phase == Done(Acked) ==>
                  exists at :: AnsweredAt(s.history, task.start, task.key, Acknowledgement, at))
            && (phase == Done(WasReset) ==>
                  exists at :: AnsweredAt(s.history, task.start, task.key, Reset, at))
            && (phase == Done(ReusedKey) ==>
                  exists at :: ReplacedAt(s.history, task.start, task.key, at))
  {
    ReachInv(p, seed, actions);
    assert TaskOk(p, seed, Reach(p, seed, actions), i);
  }

  /** And conversely a send returns what it reads, in the same step: an Ack is Ok, a Reset is a Reset, a
      displacement is the reuse error, and nothing else is there to be read.  Only a closed transport
      makes a transmission error, only a timeout NoReply, only a transmission an overflow. */
  lemma {:induction false} ReturnsWhatItReads(p: Parameters, seed: MessageId, actions: seq<Action>,
                                              i: nat, e: SendEvent)
    requires Legal(p, seed, actions) && Enabled(p, Reach(p, seed, actions), Proceed(i, e))
    ensures var s := Reach(p, seed, actions);
            var value, phase := s.manager.channels[i].value, Local(p, Apply(p, s, Proceed(i, e)), i).phase;
            && (e.Wake? ==> value != NoReplyYet)
            && (e.Wake? && value == PeerResponse(Acknowledgement) <==> phase == Done(Acked))
            && (e.Wake? && value == PeerResponse(Reset) <==> phase == Done(WasReset))
            && (e.Wake? && value == KeyReused <==> phase == Done(ReusedKey))
            && (e.Wake? ==> phase.Done? && phase.outcome in {Acked, WasReset, ReusedKey})
            && (e == Transmit(false) <==> phase == Done(TransmissionError))
            && (forall attempts :: phase == Done(NoReply(attempts)) ==> e == Expire)
            && (phase == Done(DurationOverflow) ==> e == Transmit(true))
  {
    ReachInv(p, seed, actions);
    var s := Reach(p, seed, actions);
    var task := s.tasks[i];
    assert TaskOk(p, seed, s, i);
    RunOneMore(p, task, e);
    OutcomeExactly(p, task.packet, task.t0, task.script + [e]);
  }

  /** And about the transmissions: identical Confirmable copies under the allocated ID, the k-th of
      them at t0 * (2^k - 1) and within MAX_TRANSMIT_SPAN; at least one of them and at most
      max_retransmit + 1 behind any reply; exactly that many, and MAX_TRANSMIT_WAIT at most,
      behind a NoReply. */
  lemma {:induction false} TruthfulTransmissions(p: Parameters, seed: MessageId, actions: seq<Action>, i: nat)
    requires Legal(p, seed, actions) && i < |Reach(p, seed, actions).tasks|
    ensures var s := Reach(p, seed, actions);
            var task, local := s.tasks[i], Local(p, s, i);
            && |local.emitted| <= p.maxRetransmit + 1
            && (forall k :: 0 <= k < |local.emitted| ==>
                  && local.emitted[k].packet == task.packet
                  && local.emitted[k].at == SentAt(task.t0, k)
                  && local.emitted[k].at as real <= MaxTransmitSpan(p))
            && task.packet.kind == Confirmable
            && task.packet.messageId == task.key.messageId == (seed + i) % ID_COUNT
            && (local.phase.Done? && local.phase.outcome in {Acked, WasReset, ReusedKey} ==> |local.emitted| >= 1)
            && (forall attempts :: local.phase == Done(NoReply(attempts)) ==>
                  && attempts == |local.emitted| == p.maxRetransmit + 1
                  && local.elapsed == SentAt(task.t0, attempts)
                  && local.elapsed as real <= MaxTransmitWait(p))
  {
    ReachInv(p, seed, actions);
    var s := Reach(p, seed, actions);
    var task := s.tasks[i];
    assert TaskOk(p, seed, s, i);
    RunShaped(p, task.packet, task.t0, task.script);
    RunTimed(p, task.packet, task.t0, task.script);
    TransmitBounds(p, task.packet, task.t0, task.script);
  }

  /** A loop that never wakes to an empty channel makes two moves per attempt. */
  lemma {:induction false} MovesPerAttempt(p: Parameters, packet: Packet, t0: Duration, script: seq<SendEvent>)
    requires Plays(p, packet, t0, script)
    requires forall k :: 0 <= k < |script| ==> script[k] != Wake(NoReplyYet)
    ensures match Run(p, packet, t0, script).phase
            case Ready(attempt, _) => |script| == 2 * attempt && attempt <= p.maxRetransmit
            case Waiting(attempt, _, _) => |script| == 2 * attempt + 1 && attempt <= p.maxRetransmit
            case Done(_) => 1 <= |script| <= 2 * (p.maxRetransmit + 1)
    decreases |script|
  {
    if script != [] {
      MovesPerAttempt(p, packet, t0, script[..|script| - 1]);
    }
  }

  /** So every send returns after at most max_retransmit + 1 waits, whatever the environment does. */
  lemma {:induction false} SendsReturn(p: Parameters, seed: MessageId, actions: seq<Action>, i: nat)
    requires Legal(p, seed, actions) && i < |Reach(p, seed, actions).tasks|
    ensures var s := Reach(p, seed, actions);
            && |s.tasks[i].script| <= 2 * (p.maxRetransmit + 1)
            && (|s.tasks[i].script| == 2 * (p.maxRetransmit + 1) ==> !Awaited(p, s, i))
  {
    AwaitedWhileStored(p, seed, actions, i);
    var task := Reach(p, seed, actions).tasks[i];
    MovesPerAttempt(p, task.packet, task.t0, task.script);
  }
}
