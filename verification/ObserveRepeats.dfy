/** When an observation goes through one number twice in a row: what it borrows from the channel,
    and what it had marked by then. */
module ObserveRepeats {
  import opened NotificationLoop
  import ObserveInvariant
  import opened ObserveNumbers
  import opened ObserveSystem
  import opened ObserveTheorems
  import Sequences
  import opened U24

  /** One borrow: the version marked by then, at the subscription or by `changed`, the version
      borrowed, and the call behind it.  Every version is one publish. */
  datatype Borrow = Borrow(marked: nat, version: nat, call: nat)

  /** What this step borrows for observation `i`, if anything. */
  function BorrowIn(s: System, a: Action, i: nat): (r: seq<Borrow>)
    requires Coherent(s) && Enabled(s, a)
  {
    if i < |s.observations|
       && (a == BorrowNumber(i)
           || (a.Loop? && a.observation == i && a.event.Borrowed? && a.event.state.ResourceChanged?))
    then
      var o := s.observations[i];
      [Borrow(o.seen, s.registry.watches[o.lifetime].version, s.lifetimes[o.lifetime].published)]
    else []
  }

  /** All borrows of an observation in a run, that of its registration first. */
  function Borrows(actions: seq<Action>, i: nat): seq<Borrow>
    requires Legal(actions)
    decreases |actions|
  {
    if actions == [] then []
    else
      var last := |actions| - 1;
      Borrows(actions[..last], i) + BorrowIn(Reach(actions[..last]), actions[last], i)
  }

  /** The borrows are behind the numbers; equal versions are equal calls, whose publish is over. */
  ghost predicate BorrowsOk(o: Observation, lt: Lifetime, version: nat, b: seq<Borrow>) {
    && |b| == |o.shown|
    && (forall k :: 0 <= k < |b| ==>
          && b[k].call == o.shown[k] && b[k].marked <= b[k].version <= version
          && b[k].call !in lt.pending && b[k].call <= |lt.numbers|
          && (b[k].version == version <==> b[k].call == lt.published))
    && (forall j, k :: 0 <= j < k < |b| ==> (b[j].version == b[k].version <==> b[j].call == b[k].call))
  }

  ghost predicate BorrowsOkIn(s: System, i: nat, b: seq<Borrow>)
    requires Coherent(s)
  {
    && i < |s.observations|
    && var l := s.observations[i].lifetime;
       BorrowsOk(s.observations[i], s.lifetimes[l], s.registry.watches[l].version, b)
  }

  /** Each borrow follows a mark of its own. */
  ghost predicate MarksOk(o: Observation, b: seq<Borrow>) {
    && (forall j, k :: 0 <= j < k < |b| ==> b[j].marked < b[k].marked && b[j].version <= b[k].version)
    && (b != [] ==>
          var m := b[|b| - 1].marked;
          if o.loop.pc == Woken then m < o.seen else m == o.seen)
  }

  lemma BorrowKeepsBorrows(o: Observation, o': Observation, lt: Lifetime, version: nat, b: seq<Borrow>)
    requires BorrowsOk(o, lt, version, b) && o.seen <= version
    requires o'.shown == o.shown + [lt.published] && lt.published !in lt.pending && lt.published <= |lt.numbers|
    ensures BorrowsOk(o', lt, version, b + [Borrow(o.seen, version, lt.published)])
  {
  }

  lemma PublishKeepsBorrows(o: Observation, lt: Lifetime, lt': Lifetime, version: nat, b: seq<Borrow>)
    requires BorrowsOk(o, lt, version, b) && lt'.published in lt.pending
    requires lt'.pending <= lt.pending && lt'.numbers == lt.numbers
    ensures BorrowsOk(o, lt', version + 1, b)
  {
  }

  lemma OthersKeepBorrows(o: Observation, lt: Lifetime, lt': Lifetime, version: nat, b: seq<Borrow>)
    requires BorrowsOk(o, lt, version, b) && lt'.published == lt.published && |lt.numbers| <= |lt'.numbers|
    requires forall call :: call in lt'.pending && call !in lt.pending ==> call > |lt.numbers|
    ensures BorrowsOk(o, lt', version, b)
  {
  }

  /** What a step does to the calls of a lifetime. */
  lemma CallsFrame(s: System, a: Action, l: nat)
    requires Coherent(s) && Enabled(s, a) && l < |s.lifetimes|
    ensures var lt, lt' := s.lifetimes[l], Apply(s, a).lifetimes[l];
            && |lt.numbers| <= |lt'.numbers|
            && (forall call :: call in lt'.pending && call !in lt.pending ==> call > |lt.numbers|)
            && (a.PublishCall? ==> lt'.pending <= lt.pending && lt'.numbers == lt.numbers)
  {
  }

  lemma {:induction false} StepKeepsBorrows(s: System, a: Action, i: nat, b: seq<Borrow>)
    requires Coherent(s) && Enabled(s, a) && i < |s.observations|
    requires ObservationOk(s, i) && LifetimeOk(s, s.observations[i].lifetime) && BorrowsOkIn(s, i, b)
    ensures BorrowsOkIn(Apply(s, a), i, b + BorrowIn(s, a, i))
  {
    var s', o := Apply(s, a), s.observations[i];
    var l := o.lifetime;
    var version := s.registry.watches[l].version;
    StepFrame(s, a, i);
    CallsFrame(s, a, l);
    if BorrowIn(s, a, i) != [] {
      BorrowKeepsBorrows(o, s'.observations[i], s.lifetimes[l], version, b);
    } else {
      Sequences.SumWithEmpty(b);
      assert s'.observations[i].shown == o.shown;
      if a.PublishCall? && a.lifetime == l && s.registry.watches[l].receivers > 0 {
        PublishKeepsBorrows(o, s.lifetimes[l], s'.lifetimes[l], version, b);
      } else {
        OthersKeepBorrows(o, s.lifetimes[l], s'.lifetimes[l], version, b);
      }
    }
  }

  lemma ChangedKeepsMarks(o: Observation, o': Observation, version: nat, b: seq<Borrow>)
    requires MarksOk(o, b) && o.loop.pc == Selecting && o.seen < version
    requires o'.loop.pc == Woken && o'.seen == version
    ensures MarksOk(o', b)
  {
  }

  lemma BorrowKeepsMarks(o: Observation, o': Observation, borrow: Borrow, b: seq<Borrow>)
    requires MarksOk(o, b) && (b == [] || o.loop.pc == Woken)
    requires o'.loop.pc != Woken && o'.seen == o.seen == borrow.marked
    requires forall k :: 0 <= k < |b| ==> b[k].version <= borrow.version
    ensures MarksOk(o', b + [borrow])
  {
  }

  lemma OthersKeepMarks(o: Observation, o': Observation, b: seq<Borrow>)
    requires MarksOk(o, b) && o.loop.pc != Woken && o'.loop.pc != Woken && o'.seen == o.seen
    ensures MarksOk(o', b)
  {
  }

  lemma LoopKeepsMarks(s: System, i: nat, e: LoopEvent, b: seq<Borrow>)
    requires Coherent(s) && Enabled(s, Loop(i, e))
    requires var o := s.observations[i];
             var w := s.registry.watches[o.lifetime];
             && SenderAlive(s, o.lifetime) && o.seen <= w.version && MarksOk(o, b)
             && (o.loop.pc == Woken ==> w.value.ResourceChanged?)
             && (forall k :: 0 <= k < |b| ==> b[k].version <= w.version)
    ensures MarksOk(Advanced(s, i, e), b + BorrowIn(s, Loop(i, e), i))
  {
    var o, o' := s.observations[i], Advanced(s, i, e);
    if e.Borrowed? {
      BorrowKeepsMarks(o, o', BorrowIn(s, Loop(i, e), i)[0], b);
    } else {
      assert BorrowIn(s, Loop(i, e), i) == [];
      Sequences.SumWithEmpty(b);
      if e.Changed? {
        ChangedKeepsMarks(o, o', s.registry.watches[o.lifetime].version, b);
      } else {
        OthersKeepMarks(o, o', b);
      }
    }
  }

  lemma StepKeepsMarks(s: System, a: Action, i: nat, b: seq<Borrow>)
    requires Coherent(s) && Enabled(s, a) && i < |s.observations|
    requires var o := s.observations[i];
             && SenderAlive(s, o.lifetime) && ObservationOk(s, i) && LifetimeOk(s, o.lifetime)
             && s.registry.signals[i] == 0
             && BorrowsOkIn(s, i, b) && MarksOk(o, b)
    ensures MarksOk(Apply(s, a).observations[i], b + BorrowIn(s, a, i))
  {
    StepFrame(s, a, i);
    if a.Loop? && a.observation == i {
      LoopKeepsMarks(s, i, a.event, b);
    } else if a == BorrowNumber(i) {
      BorrowKeepsMarks(s.observations[i], Registering(s, i), BorrowIn(s, a, i)[0], b);
    } else {
      Sequences.SumWithEmpty(b);
    }
  }

  /** A step adds at most one observation, and that one has shown nothing yet. */
  lemma NewShowsNothing(s: System, a: Action)
    requires Coherent(s) && Enabled(s, a)
    ensures |s.observations| <= |Apply(s, a).observations| <= |s.observations| + 1
    ensures |Apply(s, a).observations| > |s.observations| ==> Apply(s, a).observations[|s.observations|].shown == []
  {
  }

  lemma {:induction false} BorrowsHold(actions: seq<Action>, i: nat)
    requires Legal(actions) && i < |Reach(actions).observations|
    ensures BorrowsOkIn(Reach(actions), i, Borrows(actions, i))
    decreases |actions|
  {
    if actions != [] {
      var before, a := actions[..|actions| - 1], actions[|actions| - 1];
      var s := Reach(before);
      if i < |s.observations| {
        BorrowsHold(before, i);
        ObservationHolds(before, i);
        LifetimeHolds(before, s.observations[i].lifetime);
        StepKeepsBorrows(s, a, i, Borrows(before, i));
      } else {
        NewBorrowsNothing(s, a, i);
        NothingBorrowed(before, i);
      }
    }
  }

  lemma NewBorrowsNothing(s: System, a: Action, i: nat)
    requires Coherent(s) && Enabled(s, a) && |s.observations| <= i < |Apply(s, a).observations|
    ensures BorrowsOkIn(Apply(s, a), i, [] + BorrowIn(s, a, i))
    ensures MarksOk(Apply(s, a).observations[i], [] + BorrowIn(s, a, i))
  {
    NewShowsNothing(s, a);
  }

  lemma {:induction false} NothingBorrowed(actions: seq<Action>, i: nat)
    requires Legal(actions) && i >= |Reach(actions).observations|
    ensures Borrows(actions, i) == []
    decreases |actions|
  {
    if actions != [] {
      var before := actions[..|actions| - 1];
      NewShowsNothing(Reach(before), actions[|actions| - 1]);
      NothingBorrowed(before, i);
    }
  }

  lemma {:induction false} MarksHold(actions: seq<Action>, i: nat)
    requires Legal(actions) && i < |Reach(actions).observations| && Reach(actions).registry.signals[i] == 0
    ensures MarksOk(Reach(actions).observations[i], Borrows(actions, i))
    decreases |actions|
  {
    if actions != [] {
      var before, a := actions[..|actions| - 1], actions[|actions| - 1];
      var s := Reach(before);
      if i < |s.observations| {
        StepFrame(s, a, i);
        MarksHold(before, i);
        BorrowsHold(before, i);
        ObservationHolds(before, i);
        LifetimeHolds(before, s.observations[i].lifetime);
        SenderHolds(before, i);
        StepKeepsMarks(s, a, i, Borrows(before, i));
      } else {
        NewBorrowsNothing(s, a, i);
        NothingBorrowed(before, i);
      }
    }
  }

  /** One number twice in a row, until the termination signal: exactly if something was published
      between the mark and the borrow of the first, the mark of a registration being its
      subscription, and nothing between the two borrows.  A recipient that goes by the numbers then
      takes the later representation for no newer. */
  lemma {:induction false} RepeatsExactly(actions: seq<Action>, i: nat, k: nat)
    requires Legal(actions) && i < |Reach(actions).observations| && Reach(actions).registry.signals[i] == 0
    requires k + 1 < |Reach(actions).observations[i].shown|
    ensures var s, b := Reach(actions), Borrows(actions, i);
            var o := s.observations[i];
            && |b| == |o.shown|
            && (o.shown[k] == o.shown[k + 1] <==> b[k].marked < b[k].version == b[k + 1].version)
            && (o.shown[k] == o.shown[k + 1] ==> !Newer(SeenNumber(s, o, k), SeenNumber(s, o, k + 1)))
  {
    BorrowsHold(actions, i);
    MarksHold(actions, i);
  }
}
