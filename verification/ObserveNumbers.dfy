/** The sequence numbers of notifications: which numbers the calls of `notify_change` get, and when
    an observer's are in the freshness order of section 3.4 of RFC 7641. */
module ObserveNumbers {
  import opened ObserveOrder
  import opened ObserveSystem
  import opened ObserveTheorems
  import Packets
  import opened U24
  import opened Wrappers

  /** The number given to call `c` of `notify_change`, the lifetime's first number for zero. */
  function CallNumber(lt: Lifetime, c: nat): u24
    requires c <= |lt.numbers|
  {
    if c == 0 then lt.first else lt.numbers[c - 1]
  }

  lemma CallNumbersDistinct(lt: Lifetime, c: nat, d: nat)
    requires NumbersOk(lt) && c < d <= |lt.numbers| && d - c < TWO_TO_24
    ensures CallNumber(lt, c) != CallNumber(lt, d)
  {
    AdvanceDistinct(lt.first, c, d);
  }

  /** Under every interleaving, any 2^24 consecutive `notify_change` calls of one lifetime get
      pairwise distinct numbers, its first number counting as one more. */
  lemma {:induction false} DistinctNumbers(actions: seq<Action>, l: nat, c: nat, d: nat)
    requires Legal(actions) && l < |Reach(actions).lifetimes|
    requires c < d <= |Reach(actions).lifetimes[l].numbers| && d - c < TWO_TO_24
    ensures CallNumber(Reach(actions).lifetimes[l], c) != CallNumber(Reach(actions).lifetimes[l], d)
  {
    LifetimeHolds(actions, l);
    CallNumbersDistinct(Reach(actions).lifetimes[l], c, d);
  }

  /** The number behind the response (`k == 0`) or behind re-run `k` of an observation. */
  function SeenNumber(s: System, o: Observation, k: nat): u24
    requires o.lifetime < |s.lifetimes| && k < |o.shown|
  {
    Advance(s.lifetimes[o.lifetime].first, o.shown[k])
  }

  /** As long as no call publishes behind a listener, an observation goes through numbers in call
      order, and a later one is newer than an earlier one, registration included and across
      wrap-around, exactly when at least one and fewer than 2^23 calls lie in between (up to one
      turn of the counter). */
  lemma {:induction false} NumbersAreFresh(actions: seq<Action>, i: nat, a: nat, b: nat)
    requires Legal(actions) && NeverBehind(actions) && i < |Reach(actions).observations|
    requires a < b < |Reach(actions).observations[i].shown|
    ensures var s := Reach(actions);
            var o := s.observations[i];
            && o.shown[a] <= o.shown[b]
            && (o.shown[b] - o.shown[a] < TWO_TO_24 ==>
                  (Newer(SeenNumber(s, o, a), SeenNumber(s, o, b)) <==> 1 <= o.shown[b] - o.shown[a] < TWO_TO_23))
  {
    OrderHolds(actions, i);
    var s := Reach(actions);
    var o := s.observations[i];
    if o.shown[b] - o.shown[a] < TWO_TO_24 {
      AdvanceNewer(s.lifetimes[o.lifetime].first, o.shown[a], o.shown[b]);
    }
  }

  /** So it is in particular when calls do not overlap. */
  lemma {:induction false} SerialNumbersAreFresh(actions: seq<Action>, i: nat, a: nat, b: nat)
    requires Legal(actions) && Serial(actions) && i < |Reach(actions).observations|
    requires a < b < |Reach(actions).observations[i].shown|
    ensures var s := Reach(actions);
            var o := s.observations[i];
            && o.shown[a] <= o.shown[b]
            && (o.shown[b] - o.shown[a] < TWO_TO_24 ==>
                  (Newer(SeenNumber(s, o, a), SeenNumber(s, o, b)) <==> 1 <= o.shown[b] - o.shown[a] < TWO_TO_23))
  {
    SerialInCallOrder(actions);
    CallOrderNeverBehind(actions);
    NumbersAreFresh(actions, i, a, b);
  }

  /** These are the numbers on the wire: of the registration, and of every notification whose
      handler set none. */
  lemma {:induction false} NumbersOnTheWire(actions: seq<Action>, i: nat)
    requires Legal(actions) && i < |Reach(actions).observations|
    requires Reach(actions).observations[i].registeredNum.Some?
    ensures var s := Reach(actions);
            var o := s.observations[i];
            && |o.loop.sent| < |o.shown| <= |o.loop.sent| + 2
            && o.registeredNum == Some(SeenNumber(s, o, 0))
            && (forall k :: 0 <= k < |o.loop.sent| ==>
                  && o.loop.sent[k].packet.kind == Packets.Confirmable
                  && o.loop.sent[k].packet.observe == if o.loop.sent[k].own.Some? then o.loop.sent[k].own
                                                      else Some(SeenNumber(s, o, k + 1)))
  {
    ObservationHolds(actions, i);
  }
}
