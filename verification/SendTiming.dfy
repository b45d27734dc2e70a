/** When the copies of a reliable transmission leave, and when it gives up: the closed form of
    the doubling timeout, against the bounds of section 4.8.2 of RFC 7252. */
module SendTiming {
  import opened Packets
  import opened SendLoop

  function Pow2(k: nat): (r: nat)
    ensures r >= 1
  {
    if k == 0 then 1 else 2 * Pow2(k - 1)
  }

  lemma {:induction false} Pow2Monotone(i: nat, j: nat)
    requires i <= j
    ensures Pow2(i) <= Pow2(j)
  {
    if i < j {
      Pow2Monotone(i, j - 1);
    }
  }

  /** t0 * (2^k - 1): when copy `k` is sent, counting from zero. */
  function SentAt(t0: Duration, k: nat): Duration {
    t0 * (Pow2(k) - 1)
  }

  lemma SentAtNext(t0: Duration, k: nat)
    ensures SentAt(t0, k + 1) == SentAt(t0, k) + t0 * Pow2(k)
    ensures 2 * (t0 * Pow2(k)) == t0 * Pow2(k + 1)
  {
    assert Pow2(k + 1) == 2 * Pow2(k);
  }

  /** How many copies are out, what they hold, and where the loop stands. */
  predicate Shaped(p: Parameters, packet: Packet, s: SendState) {
    && (forall k :: 0 <= k < |s.emitted| ==> s.emitted[k].packet == packet)
    && match s.phase
       case Ready(attempt, _) => attempt <= p.maxRetransmit && |s.emitted| == attempt
       case Waiting(attempt, _, _) => attempt <= p.maxRetransmit && |s.emitted| == attempt + 1
       case Done(TransmissionError) => |s.emitted| <= p.maxRetransmit
       case Done(NoReply(attempts)) => attempts == |s.emitted| == p.maxRetransmit + 1
       case Done(_) => 1 <= |s.emitted| <= p.maxRetransmit + 1
  }

  /** Copy k left at t0 * (2^k - 1), and the timeouts in hand are the next ones. */
  predicate Timed(p: Parameters, t0: Duration, s: SendState) {
    && (forall k :: 0 <= k < |s.emitted| ==> s.emitted[k].at == SentAt(t0, k))
    && match s.phase
       case Ready(attempt, next) =>
         next == t0 * Pow2(attempt) && s.elapsed == SentAt(t0, attempt)
       case Waiting(attempt, current, next) =>
         && current == t0 * Pow2(attempt) && s.elapsed == SentAt(t0, attempt)
         && next == t0 * Pow2(attempt + 1) <= MAX_DURATION
       case Done(NoReply(attempts)) => s.elapsed == SentAt(t0, attempts)
       case Done(DurationOverflow) => |s.emitted| >= 1 && t0 * Pow2(|s.emitted|) > MAX_DURATION
       case Done(_) => true
  }

  /** Every play of the loop emits identical copies, at most max_retransmit + 1 of them, and gives
      up only after exactly that many. */
  lemma {:induction false} RunShaped(p: Parameters, packet: Packet, t0: Duration, script: seq<SendEvent>)
    requires Plays(p, packet, t0, script)
    ensures Shaped(p, packet, Run(p, packet, t0, script))
    decreases |script|
  {
    if script != [] {
      RunShaped(p, packet, t0, script[..|script| - 1]);
    }
  }

  /** Every play of the loop keeps to the closed form of the back-off. */
  lemma {:induction false} RunTimed(p: Parameters, packet: Packet, t0: Duration, script: seq<SendEvent>)
    requires Plays(p, packet, t0, script)
    ensures Timed(p, t0, Run(p, packet, t0, script))
    decreases |script|
  {
    if script != [] {
      var last := |script| - 1;
      RunTimed(p, packet, t0, script[..last]);
      RunShaped(p, packet, t0, script[..last]);
      var before := Run(p, packet, t0, script[..last]);
      if !before.phase.Done? {
        SentAtNext(t0, before.phase.attempt);
      }
    }
  }

  /** How a play ends is decided by its last event, and says which it was: what a send reads is what it
      returns, only a closed transport is a transmission error, and it gives up on exactly the last
      timeout, or on a transmission after which the doubled timeout does not fit. */
  lemma OutcomeExactly(p: Parameters, packet: Packet, t0: Duration, script: seq<SendEvent>)
    requires Plays(p, packet, t0, script) && script != []
    ensures var s, last := Run(p, packet, t0, script), script[|script| - 1];
            && (s.phase == Done(Acked) <==> last == Wake(PeerResponse(Acknowledgement)))
            && (s.phase == Done(WasReset) <==> last == Wake(PeerResponse(Reset)))
            && (s.phase == Done(ReusedKey) <==> last == Wake(KeyReused))
            && (forall kind :: s.phase == Done(UnexpectedReply(kind)) <==>
                  last == Wake(PeerResponse(kind)) && kind != Acknowledgement && kind != Reset)
            && (s.phase == Done(TransmissionError) <==> last == Transmit(false))
            && (forall attempts :: s.phase == Done(NoReply(attempts)) <==>
                  last == Expire && |s.emitted| == p.maxRetransmit + 1 == attempts)
            && (s.phase == Done(DurationOverflow) <==>
                  last == Transmit(true) && t0 * Pow2(|s.emitted|) > MAX_DURATION)
  {
    RunShaped(p, packet, t0, script);
    RunTimed(p, packet, t0, script);
  }

  /** What goes out, and when: one copy for every transmission that the transport takes, after all
      timeouts that ran out before it. */
  lemma EmitsEachTransmission(p: Parameters, packet: Packet, t0: Duration, script: seq<SendEvent>)
    requires Plays(p, packet, t0, script) && script != []
    ensures var before, last := script[..|script| - 1], script[|script| - 1];
            && Plays(p, packet, t0, before)
            && var s, s' := Run(p, packet, t0, before), Run(p, packet, t0, script);
               && s'.emitted == s.emitted + (if last == Transmit(true) then [Emission(packet, s.elapsed)] else [])
               && s'.elapsed == if last == Expire then SentAt(t0, |s.emitted|) else s.elapsed
  {
    var before := script[..|script| - 1];
    RunShaped(p, packet, t0, before);
    RunTimed(p, packet, t0, script);
  }

  /** A send whose environment stays silent and keeps taking packets: k timeouts, then one more
      transmission. */
  function Silence(k: nat): seq<SendEvent> {
    if k == 0 then [Transmit(true)] else Silence(k - 1) + [Expire, Transmit(true)]
  }

  lemma {:induction false} SilenceWaits(p: Parameters, packet: Packet, t0: Duration, k: nat)
    requires k <= p.maxRetransmit && t0 * Pow2(k) <= MAX_DURATION
    ensures Plays(p, packet, t0, Silence(k))
    ensures var s := Run(p, packet, t0, Silence(k));
            && |s.emitted| == k + 1
            && s.phase == if t0 * Pow2(k + 1) <= MAX_DURATION
                          then Waiting(k, t0 * Pow2(k), t0 * Pow2(k + 1)) else Done(DurationOverflow)
  {
    SentAtNext(t0, k);
    if k == 0 {
      assert Silence(0)[..0] == [];
    } else {
      var before := Silence(k - 1);
      SentAtNext(t0, k - 1);
      assert t0 * Pow2(k - 1) <= t0 * Pow2(k);
      SilenceWaits(p, packet, t0, k - 1);
      var expired := before + [Expire];
      assert expired[..|expired| - 1] == before;
      assert Plays(p, packet, t0, expired);
      assert Silence(k) == expired + [Transmit(true)];
      assert Silence(k)[..|Silence(k)| - 1] == expired;
    }
  }

  lemma ScaleMonotone(t: nat, a: nat, b: nat)
    requires a <= b
    ensures t * a <= t * b
  {
  }

  /** The doubling panics only when the timeout after the last attempt, which is computed but
      never waited for, does not fit a `Duration`. */
  lemma OverflowNeeds(p: Parameters, packet: Packet, t0: Duration, script: seq<SendEvent>)
    requires Plays(p, packet, t0, script)
    requires Run(p, packet, t0, script).phase == Done(DurationOverflow)
    ensures t0 * Pow2(p.maxRetransmit + 1) > MAX_DURATION
  {
    RunShaped(p, packet, t0, script);
    RunTimed(p, packet, t0, script);
    var copies := |Run(p, packet, t0, script).emitted|;
    Pow2Monotone(copies, p.maxRetransmit + 1);
    ScaleMonotone(t0, Pow2(copies), Pow2(p.maxRetransmit + 1));
  }

  /** And whenever it does not fit, silence alone leads to the panic. */
  lemma OverflowHappens(p: Parameters, packet: Packet, t0: Duration) returns (script: seq<SendEvent>)
    requires t0 <= MAX_DURATION < t0 * Pow2(p.maxRetransmit + 1)
    ensures Plays(p, packet, t0, script)
    ensures Run(p, packet, t0, script).phase == Done(DurationOverflow)
  {
    var k := FirstOverflow(p, t0, p.maxRetransmit);
    SilenceWaits(p, packet, t0, k);
    script := Silence(k);
  }

  lemma {:induction false} FirstOverflow(p: Parameters, t0: Duration, n: nat) returns (k: nat)
    requires t0 <= MAX_DURATION < t0 * Pow2(n + 1)
    ensures k <= n && t0 * Pow2(k) <= MAX_DURATION < t0 * Pow2(k + 1)
  {
    if t0 * Pow2(n) <= MAX_DURATION {
      k := n;
    } else {
      assert n > 0 by {
        assert Pow2(0) == 1;
      }
      k := FirstOverflow(p, t0, n - 1);
    }
  }

  lemma ScaledBound(p: Parameters, t0: Duration, n: nat)
    requires InTimeoutRange(p, t0)
    ensures (t0 * n) as real <= p.ackTimeout as real * n as real * p.ackRandomFactor
  {
    var low, factor, count := p.ackTimeout as real, p.ackRandomFactor, n as real;
    assert (t0 * n) as real == t0 as real * count;
    assert t0 as real * count <= (low * factor) * count;
    assert (low * factor) * count == low * count * factor;
  }

  lemma SpanAndWait(p: Parameters, t0: Duration)
    requires InTimeoutRange(p, t0)
    ensures SentAt(t0, p.maxRetransmit) as real <= MaxTransmitSpan(p)
    ensures SentAt(t0, p.maxRetransmit + 1) as real <= MaxTransmitWait(p)
  {
    ScaledBound(p, t0, Pow2(p.maxRetransmit) - 1);
    ScaledBound(p, t0, Pow2(p.maxRetransmit + 1) - 1);
  }

  /** The bounds of section 4.8.2 of RFC 7252: the last copy leaves within MAX_TRANSMIT_SPAN of
      the first, and the send gives up within MAX_TRANSMIT_WAIT of it. */
  lemma TransmitBounds(p: Parameters, packet: Packet, t0: Duration, script: seq<SendEvent>)
    requires InTimeoutRange(p, t0) && Plays(p, packet, t0, script)
    ensures var s := Run(p, packet, t0, script);
            && (forall k :: 0 <= k < |s.emitted| ==> s.emitted[k].at as real <= MaxTransmitSpan(p))
            && (s.phase.Done? && s.phase.outcome.NoReply? ==> s.elapsed as real <= MaxTransmitWait(p))
  {
    var s := Run(p, packet, t0, script);
    RunShaped(p, packet, t0, script);
    RunTimed(p, packet, t0, script);
    SpanAndWait(p, t0);
    forall k | 0 <= k < |s.emitted|
      ensures s.emitted[k].at <= SentAt(t0, p.maxRetransmit)
    {
      Pow2Monotone(k, p.maxRetransmit);
      ScaleMonotone(t0, Pow2(k) - 1, Pow2(p.maxRetransmit) - 1);
    }
  }

  function MaxTransmitSpan(p: Parameters): real {
    p.ackTimeout as real * (Pow2(p.maxRetransmit) - 1) as real * p.ackRandomFactor
  }

  function MaxTransmitWait(p: Parameters): real {
    p.ackTimeout as real * (Pow2(p.maxRetransmit + 1) - 1) as real * p.ackRandomFactor
  }

  /** With the default parameters: 5 copies within 45 seconds, 93 seconds until giving up, and no
      overflow. */
  lemma DefaultBounds(packet: Packet, t0: Duration, script: seq<SendEvent>)
    requires InTimeoutRange(DEFAULT, t0) && Plays(DEFAULT, packet, t0, script)
    ensures var s := Run(DEFAULT, packet, t0, script);
            && |s.emitted| <= 5
            && (forall k :: 0 <= k < |s.emitted| ==> s.emitted[k].at <= 45 * NANOS_PER_SEC)
            && (s.phase.Done? && s.phase.outcome.NoReply? ==> s.elapsed <= 93 * NANOS_PER_SEC && |s.emitted| == 5)
            && s.phase != Done(DurationOverflow)
    ensures MaxTransmitSpan(DEFAULT) == (45 * NANOS_PER_SEC) as real
    ensures MaxTransmitWait(DEFAULT) == (93 * NANOS_PER_SEC) as real
  {
    RunShaped(DEFAULT, packet, t0, script);
    RunTimed(DEFAULT, packet, t0, script);
    assert Pow2(1) == 2 && Pow2(2) == 4 && Pow2(3) == 8 && Pow2(4) == 16 && Pow2(5) == 32;
    TransmitBounds(DEFAULT, packet, t0, script);
    assert MaxTransmitSpan(DEFAULT) == (45 * NANOS_PER_SEC) as real;
    assert MaxTransmitWait(DEFAULT) == (93 * NANOS_PER_SEC) as real;
    assert t0 <= 3 * NANOS_PER_SEC;
    if Run(DEFAULT, packet, t0, script).phase == Done(DurationOverflow) {
      OverflowNeeds(DEFAULT, packet, t0, script);
      assert false;
    }
  }

  /** The default parameters are those of section 4.8 of RFC 7252: the first timeout is between 2 and 3
      seconds, and a silent peer sees five copies, 1, 3, 7 and 15 times that after the first; 31 times
      that after it, the send gives up. */
  lemma DefaultSchedule(packet: Packet, t0: Duration)
    ensures InTimeoutRange(DEFAULT, t0) <==> 2_000_000_000 <= t0 <= 3_000_000_000
    ensures InTimeoutRange(DEFAULT, t0) ==>
              var script := Silence(4) + [Expire];
              && Plays(DEFAULT, packet, t0, script)
              && var s := Run(DEFAULT, packet, t0, script);
                 && s.phase == Done(NoReply(5)) && s.elapsed == 31 * t0 && |s.emitted| == 5
                 && s.emitted[0].at == 0 && s.emitted[1].at == t0 && s.emitted[2].at == 3 * t0
                 && s.emitted[3].at == 7 * t0 && s.emitted[4].at == 15 * t0
  {
    if InTimeoutRange(DEFAULT, t0) {
      assert Pow2(1) == 2 && Pow2(2) == 4 && Pow2(3) == 8 && Pow2(4) == 16 && Pow2(5) == 32;
      SilenceWaits(DEFAULT, packet, t0, 4);
      var script := Silence(4) + [Expire];
      assert script[..|script| - 1] == Silence(4);
      assert Plays(DEFAULT, packet, t0, script);
      RunShaped(DEFAULT, packet, t0, script);
      RunTimed(DEFAULT, packet, t0, script);
    }
  }
}
