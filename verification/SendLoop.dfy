/** One reliable transmission (retransmission_manager.rs, `SendReliably::into_future`): send,
    wait for a reply, double the timeout, send again. */
module SendLoop {
  import opened Packets
  import opened Wrappers

  /** Nanoseconds.  A `Duration` holds a 64-bit count of seconds and a fraction. */
  type Duration = nat

  const NANOS_PER_SEC: nat := 1_000_000_000
  const MAX_DURATION: nat := 0x1_0000_0000_0000_0000 * NANOS_PER_SEC - 1

  datatype Parameters = Parameters(ackTimeout: Duration, ackRandomFactor: real, maxRetransmit: nat)

  const DEFAULT: Parameters := Parameters(2 * NANOS_PER_SEC, 1.5, 4)

  /** Membership in `ack_timeout_range`. */
  predicate InTimeoutRange(p: Parameters, t: Duration) {
    p.ackTimeout <= t && t as real <= p.ackTimeout as real * p.ackRandomFactor
  }

  /** Rejects a factor below one and a zero timeout, so that the range drawn from is never empty
      and every timeout drawn is positive. */
  function NewParameters(ackTimeout: Duration, ackRandomFactor: real, maxRetransmit: nat): (r: Option<Parameters>)
    ensures r.Some? <==> ackRandomFactor >= 1.0 && ackTimeout > 0
    ensures r.Some? ==> InTimeoutRange(r.value, ackTimeout)
    ensures r.Some? ==> r.value.ackTimeout == ackTimeout && r.value.ackRandomFactor == ackRandomFactor
                        && r.value.maxRetransmit == maxRetransmit
    ensures r.Some? ==> forall t :: InTimeoutRange(r.value, t) ==> t > 0
  {
    if ackRandomFactor < 1.0 || ackTimeout == 0 then None
    else
      assert ackTimeout as real * 1.0 <= ackTimeout as real * ackRandomFactor;
      Some(Parameters(ackTimeout, ackRandomFactor, maxRetransmit))
  }

  /** The value of a send's reply channel. */
  datatype ReplyEvent =
    | NoReplyYet
    | PeerResponse(kind: MessageType)
    | KeyReused

  datatype Outcome =
    | Acked
    | WasReset
    | NoReply(attempts: nat)
    | TransmissionError
    | ReusedKey
    | UnexpectedReply(kind: MessageType)
    | DurationOverflow

  /** Ready to transmit an attempt, waiting in `select!`, or returned (the last outcome being a
      panic of the `*= 2`). */
  datatype Phase =
    | Ready(attempt: nat, next: Duration)
    | Waiting(attempt: nat, current: Duration, next: Duration)
    | Done(outcome: Outcome)

  /** A packet handed to the transport, and when. */
  datatype Emission = Emission(packet: Packet, at: Duration)

  /** `elapsed` adds up the timeouts that ran out. */
  datatype SendState = SendState(phase: Phase, emitted: seq<Emission>, elapsed: Duration)

  /** What the environment decides: whether the transport still takes packets, and which branch
      of `select!` is picked. */
  datatype SendEvent =
    | Transmit(open: bool)
    | Expire
    | Wake(event: ReplyEvent)

  predicate Fits(phase: Phase, e: SendEvent) {
    match phase
    case Ready(_, _) => e.Transmit?
    case Waiting(_, _, _) => e.Expire? || e.Wake?
    case Done(_) => false
  }

  function OnReply(phase: Phase, event: ReplyEvent): Phase
    requires phase.Waiting?
  {
    match event
    case NoReplyYet => phase
    case PeerResponse(kind) =>
      Done(if kind == Acknowledgement then Acked
           else if kind == Reset then WasReset
           else UnexpectedReply(kind))
    case KeyReused => Done(ReusedKey)
  }

  function Step(p: Parameters, packet: Packet, s: SendState, e: SendEvent): SendState
    requires Fits(s.phase, e)
  {
    match e
    case Transmit(open) =>
      var Ready(attempt, next) := s.phase;
      if !open then s.(phase := Done(TransmissionError))
      else
        s.(emitted := s.emitted + [Emission(packet, s.elapsed)],
           phase := if 2 * next > MAX_DURATION then Done(DurationOverflow)
                    else Waiting(attempt, next, 2 * next))
    case Expire =>
      var Waiting(attempt, current, next) := s.phase;
      s.(elapsed := s.elapsed + current,
         phase := if attempt == p.maxRetransmit then Done(NoReply(p.maxRetransmit + 1))
                  else Ready(attempt + 1, next))
    case Wake(event) =>
      s.(phase := OnReply(s.phase, event))
  }

  /** A script is played when each of its events fits the moment at which it happens. */
  predicate Plays(p: Parameters, packet: Packet, t0: Duration, script: seq<SendEvent>)
    decreases |script|, 0
  {
    script != [] ==>
      var last := |script| - 1;
      Plays(p, packet, t0, script[..last]) && Fits(Run(p, packet, t0, script[..last]).phase, script[last])
  }

  function Run(p: Parameters, packet: Packet, t0: Duration, script: seq<SendEvent>): SendState
    requires Plays(p, packet, t0, script)
    decreases |script|, 1
  {
    if script == [] then SendState(Ready(0, t0), [], 0)
    else
      var last := |script| - 1;
      Step(p, packet, Run(p, packet, t0, script[..last]), script[last])
  }

  /** The state after the first `n` events. */
  ghost function After(p: Parameters, packet: Packet, t0: Duration, script: seq<SendEvent>, n: nat): SendState
    requires n <= |script| && Plays(p, packet, t0, script)
  {
    PlaysPrefix(p, packet, t0, script, n);
    Run(p, packet, t0, script[..n])
  }

  lemma {:induction false} PlaysPrefix(p: Parameters, packet: Packet, t0: Duration, script: seq<SendEvent>, n: nat)
    requires n <= |script| && Plays(p, packet, t0, script)
    ensures Plays(p, packet, t0, script[..n])
    decreases |script|
  {
    if n < |script| {
      var shorter := script[..|script| - 1];
      PlaysPrefix(p, packet, t0, shorter, n);
      assert shorter[..n] == script[..n];
    } else {
      assert script[..n] == script;
    }
  }

  /** One more event is one more step; and no event fits a send that has returned. */
  lemma AfterStep(p: Parameters, packet: Packet, t0: Duration, script: seq<SendEvent>, n: nat)
    requires n < |script| && Plays(p, packet, t0, script)
    ensures var before := After(p, packet, t0, script, n);
            && Fits(before.phase, script[n])
            && !before.phase.Done?
            && After(p, packet, t0, script, n + 1) == Step(p, packet, before, script[n])
  {
    PlaysPrefix(p, packet, t0, script, n + 1);
    assert script[..n + 1][..n] == script[..n];
  }

  lemma AfterAll(p: Parameters, packet: Packet, t0: Duration, script: seq<SendEvent>)
    requires Plays(p, packet, t0, script)
    ensures After(p, packet, t0, script, |script|) == Run(p, packet, t0, script)
  {
    assert script[..|script|] == script;
  }

  /** The loop itself.  The environment's choices come as a script; when the script ends first,
      the send is still pending. */
  method IntoFuture(p: Parameters, packet: Packet, t0: Duration, script: seq<SendEvent>)
    returns (result: Option<Outcome>, emitted: seq<Emission>, elapsed: Duration)
    requires Plays(p, packet, t0, script)
    ensures var s := Run(p, packet, t0, script);
            && emitted == s.emitted
            && elapsed == s.elapsed
            && result == if s.phase.Done? then Some(s.phase.outcome) else None
  {
    emitted, elapsed := [], 0;
    var nextTimeout: Duration := t0;
    var cursor := 0;
    AfterAll(p, packet, t0, script);
    for attempt := 0 to p.maxRetransmit + 1
      invariant 0 <= cursor <= |script|
      invariant After(p, packet, t0, script, cursor) ==
                SendState(if attempt <= p.maxRetransmit then Ready(attempt, nextTimeout)
                          else Done(NoReply(p.maxRetransmit + 1)), emitted, elapsed)
    {
      if cursor == |script| {
        return None, emitted, elapsed;
      }
      AfterStep(p, packet, t0, script, cursor);
      var open := script[cursor].open;
      cursor := cursor + 1;
      if !open {
        if cursor < |script| {
          AfterStep(p, packet, t0, script, cursor);
        }
        return Some(TransmissionError), emitted, elapsed;
      }
      emitted := emitted + [Emission(packet, elapsed)];
      var currTimeout: Duration := nextTimeout;
      if 2 * nextTimeout > MAX_DURATION {
        if cursor < |script| {
          AfterStep(p, packet, t0, script, cursor);
        }
        return Some(DurationOverflow), emitted, elapsed;
      }
      nextTimeout := 2 * nextTimeout;
      var expired := false;
      while !expired
        invariant 0 <= cursor <= |script|
        invariant After(p, packet, t0, script, cursor) ==
                  if !expired then SendState(Waiting(attempt, currTimeout, nextTimeout), emitted, elapsed)
                  else SendState(if attempt == p.maxRetransmit then Done(NoReply(p.maxRetransmit + 1))
                                 else Ready(attempt + 1, nextTimeout), emitted, elapsed)
        decreases !expired, |script| - cursor
      {
        if cursor == |script| {
          return None, emitted, elapsed;
        }
        AfterStep(p, packet, t0, script, cursor);
        var branch := script[cursor];
        cursor := cursor + 1;
        if branch.Expire? {
          elapsed := elapsed + currTimeout;
          expired := true;
        } else if branch.event != NoReplyYet {
          if cursor < |script| {
            AfterStep(p, packet, t0, script, cursor);
          }
          match branch.event {
            case PeerResponse(kind) =>
              if kind == Acknowledgement {
                return Some(Acked), emitted, elapsed;
              } else if kind == Reset {
                return Some(WasReset), emitted, elapsed;
              } else {
                return Some(UnexpectedReply(kind)), emitted, elapsed;
              }
            case KeyReused =>
              return Some(ReusedKey), emitted, elapsed;
          }
        }
      }
    }
    if cursor < |script| {
      AfterStep(p, packet, t0, script, cursor);
    }
    result := Some(NoReply(p.maxRetransmit + 1));
  }
}
