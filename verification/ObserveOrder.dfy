/** In which order the numbers of `notify_change` calls come to an observer, and exactly when that
    order can run backwards. */
module ObserveOrder {
  import opened NotificationLoop
  import ObserveInvariant
  import opened ObserveSystem
  import opened ObserveTheorems
  import Packets
  import opened Sequences
  import opened U24
  import opened Wrappers

  // ---------------------------------------------------------------- what stays in call order

  /** The call behind the number that an observation went through last. */
  function LastShown(o: Observation): nat
    requires o.shown != []
  {
    o.shown[|o.shown| - 1]
  }

  /** This observation still listens, and has gone through a number of this lifetime. */
  predicate Listens(s: System, l: nat, i: nat) {
    i < |s.observations| && s.observations[i].lifetime == l && Live(s.observations[i]) && s.observations[i].shown != []
  }

  /** What is published is not behind what any listener has already gone through. */
  ghost predicate PublishesAhead(s: System, a: Action) {
    a.PublishCall? ==> forall i: nat :: Listens(s, a.lifetime, i) ==> LastShown(s.observations[i]) <= a.call
  }

  ghost predicate NeverBehind(actions: seq<Action>)
    requires Legal(actions)
    decreases |actions|
  {
    actions != [] ==>
      var last := |actions| - 1;
      NeverBehind(actions[..last]) && PublishesAhead(Reach(actions[..last]), actions[last])
  }

  predicate InOrder(o: Observation) {
    forall a, b :: 0 <= a < b < |o.shown| ==> o.shown[a] <= o.shown[b]
  }

  ghost predicate AllInOrder(s: System) {
    forall i :: 0 <= i < |s.observations| ==> InOrder(s.observations[i])
  }

  /** In order, and what the channel holds is not behind what a listener went through. */
  predicate OrderOk(s: System, i: nat)
    requires Coherent(s) && i < |s.observations|
  {
    var o := s.observations[i];
    InOrder(o) && (Live(o) && o.shown != [] ==> LastShown(o) <= s.lifetimes[o.lifetime].published)
  }

  lemma StepKeepsOrder(s: System, a: Action, i: nat)
    requires Coherent(s) && Enabled(s, a) && PublishesAhead(s, a) && i < |s.observations| && OrderOk(s, i)
    ensures OrderOk(Apply(s, a), i)
  {
    StepFrame(s, a, i);
    assert Listens(s, s.observations[i].lifetime, i) <==> Live(s.observations[i]) && s.observations[i].shown != [];
  }

  lemma {:induction false} OrderHolds(actions: seq<Action>, i: nat)
    requires Legal(actions) && NeverBehind(actions) && i < |Reach(actions).observations|
    ensures OrderOk(Reach(actions), i)
    decreases |actions|
  {
    if actions != [] {
      var before, a := actions[..|actions| - 1], actions[|actions| - 1];
      var s := Reach(before);
      if i < |s.observations| {
        OrderHolds(before, i);
        StepKeepsOrder(s, a, i);
      }
    }
  }

  // ---------------------------------------------------------------- what runs backwards

  /** What observers do by themselves: borrow the number of a registration, and run their loops. */
  predicate ObserversAlone(tail: seq<Action>) {
    forall k :: 0 <= k < |tail| ==> tail[k].Loop? || tail[k].BorrowNumber?
  }

  lemma OneMore(actions: seq<Action>, a: Action)
    requires Legal(actions) && Enabled(Reach(actions), a)
    ensures Legal(actions + [a]) && Reach(actions + [a]) == Apply(Reach(actions), a)
  {
    LastOfSum(actions, [a]);
    SumWithEmpty(actions);
  }

  const ANY_RESPONSE: Packets.Packet := Packets.Packet(Packets.Acknowledgement, Packets.Response, 0, [], None, [])

  /** The next step of a running loop on its way to a borrow, when nothing fails. */
  function Onward(s: System, i: nat): LoopEvent
    requires Coherent(s) && i < |s.observations| && Live(s.observations[i])
  {
    var o := s.observations[i];
    match o.loop.pc
    case Selecting => Changed
    case Woken => Borrowed(s.registry.watches[o.lifetime].value)
    case Generating(_) => HandlerReturned(Ok(ANY_RESPONSE))
    case Sending => SendReturned(true)
  }

  function StepsToBorrow(pc: Pc): nat {
    match pc
    case Woken => 1
    case Selecting => 2
    case Sending => 3
    case Generating(_) => 4
    case Stopped(_) => 0
  }

  /** The loop of this observation runs, and will borrow a change that it has not borrowed yet. */
  predicate Due(s: System, i: nat)
    requires Coherent(s)
  {
    && i < |s.observations|
    && var o := s.observations[i];
       var w := s.registry.watches[o.lifetime];
       && Live(o) && o.registeredNum.Some?
       && w.value.ResourceChanged?
       && (o.loop.pc == Woken || o.seen != w.version)
  }

  lemma OnwardStep(s: System, i: nat)
    requires Coherent(s) && Due(s, i)
    ensures Enabled(s, Loop(i, Onward(s, i)))
    ensures var s' := Apply(s, Loop(i, Onward(s, i)));
            var o, o' := s.observations[i], s'.observations[i];
            if o.loop.pc == Woken then WentThrough(s, i, s.lifetimes[o.lifetime].published, s')
            else NothingMore(s, i, s') && Due(s', i) && StepsToBorrow(o'.loop.pc) < StepsToBorrow(o.loop.pc)
  {
  }

  /** Observation `i` has gone through the number of one more call, and goes on. */
  predicate WentThrough(s: System, i: nat, call: nat, s': System) {
    && s'.lifetimes == s.lifetimes
    && i < |s.observations| && i < |s'.observations|
    && var o, o' := s.observations[i], s'.observations[i];
       o'.lifetime == o.lifetime && Live(o') && o'.shown == o.shown + [call]
  }

  /** A continuation in which only observers do something, and this one goes through the number
      that the channel held at its start. */
  predicate Delivers(actions: seq<Action>, tail: seq<Action>, i: nat)
    requires Legal(actions)
  {
    && ObserversAlone(tail) && Legal(actions + tail)
    && i < |Reach(actions).observations|
    && var s := Reach(actions);
       WentThrough(s, i, s.lifetimes[s.observations[i].lifetime].published, Reach(actions + tail))
  }

  lemma DeliversNow(actions: seq<Action>, a: Action, i: nat)
    requires Legal(actions) && Enabled(Reach(actions), a) && (a.Loop? || a.BorrowNumber?)
    requires var s := Reach(actions);
             i < |s.observations| &&
             WentThrough(s, i, s.lifetimes[s.observations[i].lifetime].published, Apply(s, a))
    ensures Delivers(actions, [a], i)
  {
    OneMore(actions, a);
  }

  /** Observation `i` has gone through nothing more, and no lifetime has moved. */
  predicate NothingMore(s: System, i: nat, s': System) {
    && s'.lifetimes == s.lifetimes
    && i < |s.observations| && i < |s'.observations|
    && s'.observations[i].lifetime == s.observations[i].lifetime
    && s'.observations[i].shown == s.observations[i].shown
  }

  lemma DeliversAfter(actions: seq<Action>, longer: seq<Action>, rest: seq<Action>, tail: seq<Action>, i: nat)
    requires Legal(actions) && Legal(longer) && NothingMore(Reach(actions), i, Reach(longer))
    requires Delivers(longer, rest, i)
    requires actions + tail == longer + rest && ObserversAlone(tail)
    ensures Delivers(actions, tail, i)
  {
  }

  lemma AloneFirst(a: Action, rest: seq<Action>)
    requires (a.Loop? || a.BorrowNumber?) && ObserversAlone(rest)
    ensures ObserversAlone([a] + rest)
  {
  }

  /** One step on the way, and then the rest of the way. */
  lemma DeliversLater(actions: seq<Action>, a: Action, rest: seq<Action>, i: nat)
    requires Legal(actions) && a.Loop? && Legal(actions + [a])
    requires NothingMore(Reach(actions), i, Reach(actions + [a]))
    requires Delivers(actions + [a], rest, i)
    ensures Delivers(actions, [a] + rest, i)
  {
    Reassociate(actions, [a], rest);
    AloneFirst(a, rest);
    DeliversAfter(actions, actions + [a], rest, [a] + rest, i);
  }

  /** Left to itself, a loop that has not borrowed the latest change yet goes through its number. */
  lemma {:induction false} Delivered(actions: seq<Action>, i: nat) returns (tail: seq<Action>)
    requires Legal(actions) && Due(Reach(actions), i)
    ensures Delivers(actions, tail, i)
    decreases StepsToBorrow(Reach(actions).observations[i].loop.pc)
  {
    var a := Loop(i, Onward(Reach(actions), i));
    OnwardStep(Reach(actions), i);
    if Reach(actions).observations[i].loop.pc == Woken {
      DeliversNow(actions, a, i);
      tail := [a];
    } else {
      OneMore(actions, a);
      var rest := Delivered(actions + [a], i);
      DeliversLater(actions, a, rest, i);
      tail := [a] + rest;
    }
  }

  /** A listener is due once something is published. */
  lemma PublishMakesDue(s: System, l: nat, call: nat, i: nat)
    requires Coherent(s) && Enabled(s, PublishCall(l, call)) && Listens(s, l, i)
    requires ObservationOk(s, i) && LifetimeOk(s, l)
    ensures var s' := Apply(s, PublishCall(l, call));
            Due(s', i) && s'.observations[i] == s.observations[i] && s'.lifetimes[l].published == call
  {
    assert i in LiveOn(s, l);
  }

  /** A publish behind what a listener went through makes that listener, left to itself, go
      backwards: its next number is the older one, in the freshness order too when fewer than 2^23
      calls lie in between. */
  lemma {:induction false} BehindRunsBackwards(actions: seq<Action>, l: nat, call: nat, i: nat)
    returns (tail: seq<Action>)
    requires Legal(actions) && Enabled(Reach(actions), PublishCall(l, call))
    requires Listens(Reach(actions), l, i) && call < LastShown(Reach(actions).observations[i])
    ensures ObserversAlone(tail) && Legal(actions + [PublishCall(l, call)] + tail)
    ensures var s, s' := Reach(actions), Reach(actions + [PublishCall(l, call)] + tail);
            && i < |s'.observations|
            && s'.observations[i].shown == s.observations[i].shown + [call]
            && !InOrder(s'.observations[i])
            && (LastShown(s.observations[i]) - call < TWO_TO_23 ==>
                  Newer(Advance(s.lifetimes[l].first, call),
                        Advance(s.lifetimes[l].first, LastShown(s.observations[i]))))
  {
    var s, published := Reach(actions), actions + [PublishCall(l, call)];
    var o := s.observations[i];
    ObservationHolds(actions, i);
    LifetimeHolds(actions, l);
    PublishMakesDue(s, l, call, i);
    OneMore(actions, PublishCall(l, call));
    tail := Delivered(published, i);
    AppendedBehind(o, call, Reach(published + tail).observations[i]);
    if LastShown(o) - call < TWO_TO_23 {
      AdvanceNewer(s.lifetimes[l].first, call, LastShown(o));
    }
  }

  lemma AppendedBehind(o: Observation, call: nat, o': Observation)
    requires o.shown != [] && call < LastShown(o) && o'.shown == o.shown + [call]
    ensures !InOrder(o')
  {
    assert o'.shown[|o.shown| - 1] > o'.shown[|o.shown|];
  }

  /** However observers went on by themselves from any moment of this run, none would go backwards. */
  ghost predicate StaysInOrder(actions: seq<Action>) {
    forall n, tail :: 0 <= n <= |actions| && ObserversAlone(tail) && Legal(actions[..n] + tail) ==>
      AllInOrder(Reach(actions[..n] + tail))
  }

  lemma {:induction false} NeverBehindPrefix(actions: seq<Action>, n: nat)
    requires Legal(actions) && NeverBehind(actions) && n <= |actions|
    ensures Legal(actions[..n]) && NeverBehind(actions[..n])
    decreases |actions|
  {
    if n < |actions| {
      PrefixOfDropLast(actions, n);
      NeverBehindPrefix(DropLast(actions), n);
    } else {
      WholePrefix(actions);
    }
  }

  lemma {:induction false} AloneKeepsNeverBehind(actions: seq<Action>, tail: seq<Action>)
    requires Legal(actions) && NeverBehind(actions) && ObserversAlone(tail) && Legal(actions + tail)
    ensures NeverBehind(actions + tail)
    decreases |tail|
  {
    if tail == [] {
      SumWithEmpty(actions);
    } else {
      LastOfSum(actions, tail);
      AloneKeepsNeverBehind(actions, DropLast(tail));
    }
  }

  /** Exactly when sequence numbers can run backwards: observers stay in call order, whatever their
      own pace, if and only if no call publishes behind what a listener has already gone through. */
  lemma {:induction false} InOrderExactly(actions: seq<Action>)
    requires Legal(actions)
    ensures NeverBehind(actions) <==> StaysInOrder(actions)
    decreases |actions|
  {
    if NeverBehind(actions) {
      forall n, tail | 0 <= n <= |actions| && ObserversAlone(tail) && Legal(actions[..n] + tail)
        ensures AllInOrder(Reach(actions[..n] + tail))
      {
        NeverBehindPrefix(actions, n);
        AloneKeepsNeverBehind(actions[..n], tail);
        AllOrdered(actions[..n] + tail);
      }
    } else {
      BackwardsSomewhere(actions);
    }
  }

  lemma {:induction false} AllOrdered(actions: seq<Action>)
    requires Legal(actions) && NeverBehind(actions)
    ensures AllInOrder(Reach(actions))
  {
    forall i | 0 <= i < |Reach(actions).observations|
      ensures InOrder(Reach(actions).observations[i])
    {
      OrderHolds(actions, i);
    }
  }

  lemma {:induction false} BackwardsSomewhere(actions: seq<Action>)
    requires Legal(actions) && !NeverBehind(actions)
    ensures !StaysInOrder(actions)
    decreases |actions|
  {
    var before, a := DropLast(actions), actions[|actions| - 1];
    if NeverBehind(before) {
      var i: nat :| Listens(Reach(before), a.lifetime, i) && LastShown(Reach(before).observations[i]) > a.call;
      BackwardsAtLast(actions, before, i);
    } else {
      BackwardsSomewhere(before);
      BackwardsEarlier(actions, before);
    }
  }

  lemma {:induction false} BackwardsAtLast(actions: seq<Action>, before: seq<Action>, i: nat)
    requires Legal(actions) && Legal(before) && actions != [] && before == DropLast(actions)
    requires var a := actions[|actions| - 1];
             && Enabled(Reach(before), a) && a.PublishCall? && Listens(Reach(before), a.lifetime, i)
             && a.call < LastShown(Reach(before).observations[i])
    ensures !StaysInOrder(actions)
  {
    var a := actions[|actions| - 1];
    var tail := BehindRunsBackwards(before, a.lifetime, a.call, i);
    SplitLast(actions);
    WholePrefix(actions);
    assert !AllInOrder(Reach(actions[..|actions|] + tail));
  }

  lemma {:induction false} BackwardsEarlier(actions: seq<Action>, before: seq<Action>)
    requires Legal(actions) && Legal(before) && actions != [] && before == DropLast(actions)
    requires !StaysInOrder(before)
    ensures !StaysInOrder(actions)
  {
    var n, tail :| 0 <= n <= |before| && ObserversAlone(tail) && Legal(before[..n] + tail)
                   && !AllInOrder(Reach(before[..n] + tail));
    PrefixOfDropLast(actions, n);
  }

  // ---------------------------------------------------------------- what callers can do about it

  /** What reaches the channel comes later in call order than what it holds. */
  predicate PublishesNext(s: System, a: Action)
    requires Coherent(s) && Enabled(s, a)
  {
    a.PublishCall? && s.registry.watches[a.lifetime].receivers > 0 ==> s.lifetimes[a.lifetime].published < a.call
  }

  predicate InCallOrder(actions: seq<Action>)
    requires Legal(actions)
    decreases |actions|
  {
    actions != [] ==>
      var last := |actions| - 1;
      InCallOrder(actions[..last]) && PublishesNext(Reach(actions[..last]), actions[last])
  }

  /** Publishes in call order are never behind, overlap or not. */
  lemma {:induction false} CallOrderNeverBehind(actions: seq<Action>)
    requires Legal(actions) && InCallOrder(actions)
    ensures NeverBehind(actions)
    decreases |actions|
  {
    if actions != [] {
      var before, a := actions[..|actions| - 1], actions[|actions| - 1];
      var s := Reach(before);
      CallOrderNeverBehind(before);
      if a.PublishCall? {
        forall i: nat | Listens(s, a.lifetime, i)
          ensures LastShown(s.observations[i]) <= a.call
        {
          OrderHolds(before, i);
          LifetimeHolds(before, a.lifetime);
          assert i in LiveOn(s, a.lifetime);
        }
      }
    }
  }

  lemma {:induction false} AloneKeepsCallOrder(actions: seq<Action>, tail: seq<Action>)
    requires Legal(actions) && InCallOrder(actions) && ObserversAlone(tail) && Legal(actions + tail)
    ensures InCallOrder(actions + tail) && Reach(actions + tail).lifetimes == Reach(actions).lifetimes
    decreases |tail|
  {
    if tail == [] {
      SumWithEmpty(actions);
    } else {
      LastOfSum(actions, tail);
      AloneKeepsCallOrder(actions, DropLast(tail));
    }
  }

  /** A loop with nothing left to borrow has gone through what the channel holds. */
  predicate Attuned(s: System, i: nat)
    requires Coherent(s) && i < |s.observations|
  {
    var o := s.observations[i];
    var w := s.registry.watches[o.lifetime];
    Live(o) && o.shown != [] && o.loop.pc != Woken && o.seen == w.version && w.version > 0 ==>
      LastShown(o) == s.lifetimes[o.lifetime].published
  }

  lemma StepKeepsAttuned(s: System, a: Action, i: nat)
    requires Coherent(s) && Enabled(s, a) && i < |s.observations| && Attuned(s, i)
    requires ObservationOk(s, i) && LifetimeOk(s, s.observations[i].lifetime)
    ensures Attuned(Apply(s, a), i)
  {
    StepFrame(s, a, i);
  }

  lemma {:induction false} AttunedHolds(actions: seq<Action>, i: nat)
    requires Legal(actions) && i < |Reach(actions).observations|
    ensures Attuned(Reach(actions), i)
    decreases |actions|
  {
    if actions != [] {
      var before := actions[..|actions| - 1];
      var s := Reach(before);
      if i < |s.observations| {
        AttunedHolds(before, i);
        ObservationHolds(before, i);
        LifetimeHolds(before, s.observations[i].lifetime);
        StepKeepsAttuned(s, actions[|actions| - 1], i);
      }
    }
  }

  /** Left to itself, a running observer comes to listen at what the channel holds. */
  lemma {:induction false} CatchUp(actions: seq<Action>, i: nat) returns (tail: seq<Action>)
    requires Legal(actions) && i < |Reach(actions).observations|
    requires var s := Reach(actions);
             Live(s.observations[i]) && s.lifetimes[s.observations[i].lifetime].published > 0
    ensures ObserversAlone(tail) && Legal(actions + tail)
    ensures var s, s' := Reach(actions), Reach(actions + tail);
            var l := s.observations[i].lifetime;
            && s'.lifetimes == s.lifetimes && Listens(s', l, i)
            && LastShown(s'.observations[i]) == s.lifetimes[l].published
  {
    var s := Reach(actions);
    ObservationHolds(actions, i);
    LifetimeHolds(actions, s.observations[i].lifetime);
    AttunedHolds(actions, i);
    if s.observations[i].registeredNum.None? {
      tail := [BorrowNumber(i)];
      OneMore(actions, BorrowNumber(i));
    } else if Due(s, i) {
      tail := Delivered(actions, i);
    } else {
      tail := [];
      SumWithEmpty(actions);
    }
  }

  /** Whatever pace the observers have before and after this publish, none goes backwards. */
  ghost predicate HarmlessPublish(actions: seq<Action>, a: Action) {
    forall before, after ::
      ObserversAlone(before) && ObserversAlone(after) && Legal(actions + before + [a] + after) ==>
        AllInOrder(Reach(actions + before + [a] + after))
  }

  /** Exactly what callers have to keep to: as long as publishes came in call order, the next one
      that is heard is harmless, whatever the pace of the observers, if and only if it continues
      that order. */
  lemma {:induction false} CallOrderExactly(actions: seq<Action>, l: nat, call: nat)
    requires Legal(actions) && InCallOrder(actions) && Enabled(Reach(actions), PublishCall(l, call))
    requires Reach(actions).registry.watches[l].receivers > 0
    ensures Reach(actions).lifetimes[l].published < call <==> HarmlessPublish(actions, PublishCall(l, call))
  {
    var s, a := Reach(actions), PublishCall(l, call);
    LifetimeHolds(actions, l);
    if s.lifetimes[l].published < call {
      forall before, after |
        ObserversAlone(before) && ObserversAlone(after) && Legal(actions + before + [a] + after)
        ensures AllInOrder(Reach(actions + before + [a] + after))
      {
        NextPublishInOrder(actions, a, before, after);
      }
    } else {
      assert LiveOn(s, l) != {};
      var i :| i in LiveOn(s, l);
      var before := CatchUp(actions, i);
      var after := BehindRunsBackwards(actions + before, l, call, i);
      assert !AllInOrder(Reach(actions + before + [a] + after));
    }
  }

  lemma {:induction false} LegalPrefix(actions: seq<Action>, tail: seq<Action>)
    requires Legal(actions + tail)
    ensures Legal(actions)
    decreases |tail|
  {
    if tail == [] {
      SumWithEmpty(actions);
    } else {
      LastOfSum(actions, tail);
      LegalPrefix(actions, DropLast(tail));
    }
  }

  lemma {:induction false} NextPublishInOrder(actions: seq<Action>, a: Action, before: seq<Action>, after: seq<Action>)
    requires Legal(actions) && InCallOrder(actions) && a.PublishCall? && Enabled(Reach(actions), a)
    requires Reach(actions).lifetimes[a.lifetime].published < a.call
    requires ObserversAlone(before) && ObserversAlone(after) && Legal(actions + before + [a] + after)
    ensures AllInOrder(Reach(actions + before + [a] + after))
  {
    LegalPrefix(actions + before + [a], after);
    LegalPrefix(actions + before, [a]);
    AloneKeepsCallOrder(actions, before);
    LastOfSum(actions + before, [a]);
    AloneKeepsCallOrder(actions + before + [a], after);
    CallOrderNeverBehind(actions + before + [a] + after);
    AllOrdered(actions + before + [a] + after);
  }

  /** A run in which no `notify_change` call starts between the increment and the publish of
      another one of the same lifetime. */
  ghost predicate Serial(actions: seq<Action>)
    requires Legal(actions)
    decreases |actions|
  {
    actions != [] ==>
      var last := |actions| - 1;
      && Serial(actions[..last])
      && (actions[last].Increment? ==> Reach(actions[..last]).lifetimes[actions[last].lifetime].pending == {})
  }

  /** In such runs only the latest call can be pending. */
  ghost predicate OnePending(lt: Lifetime) {
    forall call :: call in lt.pending ==> call == |lt.numbers| && lt.published < call
  }

  lemma StepKeepsOnePending(s: System, a: Action, l: nat)
    requires Coherent(s) && Inv(s) && Enabled(s, a)
    requires a.Increment? ==> s.lifetimes[a.lifetime].pending == {}
    requires l < |Apply(s, a).lifetimes| && (l < |s.lifetimes| ==> OnePending(s.lifetimes[l]))
    ensures OnePending(Apply(s, a).lifetimes[l])
  {
    if l < |s.lifetimes| {
      assert LifetimeOk(s, l);
    }
  }

  lemma {:induction false} SerialHolds(actions: seq<Action>, l: nat)
    requires Legal(actions) && Serial(actions) && l < |Reach(actions).lifetimes|
    ensures OnePending(Reach(actions).lifetimes[l])
    decreases |actions|
  {
    if actions != [] {
      var before := actions[..|actions| - 1];
      if l < |Reach(before).lifetimes| {
        SerialHolds(before, l);
      }
      ObserveInvariant.ReachInv(before);
      StepKeepsOnePending(Reach(before), actions[|actions| - 1], l);
    }
  }

  /** Calls that do not overlap publish in call order. */
  lemma {:induction false} SerialInCallOrder(actions: seq<Action>)
    requires Legal(actions) && Serial(actions)
    ensures InCallOrder(actions)
    decreases |actions|
  {
    if actions != [] {
      var before, a := actions[..|actions| - 1], actions[|actions| - 1];
      SerialInCallOrder(before);
      if a.PublishCall? {
        SerialHolds(before, a.lifetime);
      }
    }
  }
}
