/** What every interleaving of observations guarantees (RFC 7641), and where it guarantees less
    than the comments of the source promise. */
module ObserveTheorems {
  import opened NotificationLoop
  import opened ObserveInvariant
  import opened ObserveSystem
  import opened Wrappers

  lemma {:induction false} ObservationHolds(actions: seq<Action>, i: nat)
    requires Legal(actions) && i < |Reach(actions).observations|
    ensures ObservationOk(Reach(actions), i)
  {
    ReachInv(actions);
  }

  lemma {:induction false} LifetimeHolds(actions: seq<Action>, l: nat)
    requires Legal(actions) && l < |Reach(actions).lifetimes|
    ensures LifetimeOk(Reach(actions), l)
  {
    ReachInv(actions);
  }

  lemma {:induction false} SenderHolds(actions: seq<Action>, i: nat)
    requires Legal(actions) && i < |Reach(actions).observations| && Reach(actions).registry.signals[i] == 0
    ensures SenderAlive(Reach(actions), Reach(actions).observations[i].lifetime)
  {
    ReachInv(actions);
    UnsignalledHasSender(Reach(actions), i);
  }

  // ---------------------------------------------------------------- registrations and lifecycles

  /** No orphaned observer: a loop that runs has its termination sender stored under its own path
      and key, or has been signalled; stored senders are exactly the unused ones, whether their
      loop still runs or not, but for a registration that has not come to store its own; and none
      is used twice. */
  lemma {:induction false} NoOrphan(actions: seq<Action>, i: nat)
    requires Legal(actions) && i < |Reach(actions).observations|
    ensures var s := Reach(actions);
            var o := s.observations[i];
            && s.registry.signals[i] <= 1
            && (s.registry.signals[i] == 0 <==> StoredUnder(s.registry, o, i) || o.registeredNum.None?)
            && (o.registeredNum.None? <==> s.held == Some(Subscribed(i)))
            && (Live(o) && o.registeredNum.Some? ==> s.registry.signals[i] == 1 || StoredUnder(s.registry, o, i))
  {
    ObservationHolds(actions, i);
  }

  /** Hence at most one unsignalled observation per path, peer and token, besides one whose
      registration has not come to store its sender, and so has not begun its loop. */
  lemma {:induction false} OneLoopPerKey(actions: seq<Action>, i: nat, j: nat)
    requires Legal(actions) && i < |Reach(actions).observations| && j < |Reach(actions).observations|
    requires var s := Reach(actions);
             && s.registry.signals[i] == 0 && s.registry.signals[j] == 0
             && s.observations[i].path == s.observations[j].path
             && s.observations[i].key == s.observations[j].key
    ensures var s := Reach(actions);
            i != j ==> (s.observations[i].registeredNum.None? <==> s.observations[j].registeredNum.Some?)
  {
    NoOrphan(actions, i);
    NoOrphan(actions, j);
  }

  /** Lifecycle exclusion: a path has a table entry exactly while one lifecycle task for it is
      between its spawn and the end of its clean-up, and never are there two. */
  lemma {:induction false} LifecycleExclusion(actions: seq<Action>, path: string)
    requires Legal(actions)
    ensures var s := Reach(actions);
            && (path in s.registry.byPath <==>
                  exists l :: 0 <= l < |s.lifetimes| && s.lifetimes[l].path == path && s.lifetimes[l].stage != Ended)
            && (forall l :: 0 <= l < |s.lifetimes| && s.lifetimes[l].path == path && s.lifetimes[l].stage != Ended ==>
                  Serves(s, path, l))
  {
    ReachInv(actions);
    var s := Reach(actions);
    forall l | 0 <= l < |s.lifetimes| && s.lifetimes[l].path == path && s.lifetimes[l].stage != Ended
      ensures Serves(s, path, l)
    {
      assert LifetimeOk(s, l);
    }
    if path in s.registry.byPath {
      assert PathOk(s, path);
      assert s.lifetimes[s.registry.byPath[path].lifetime].path == path;
    }
  }

  /** So two lifecycle tasks of one path never overlap, and the clean-up never finds its record
      gone. */
  lemma {:induction false} OneLifecyclePerPath(actions: seq<Action>, l: nat, m: nat)
    requires Legal(actions) && l < |Reach(actions).lifetimes| && m < |Reach(actions).lifetimes|
    requires var s := Reach(actions);
             && s.lifetimes[l].path == s.lifetimes[m].path
             && s.lifetimes[l].stage != Ended && s.lifetimes[m].stage != Ended
    ensures l == m
    ensures Serves(Reach(actions), Reach(actions).lifetimes[l].path, l)
  {
    LifecycleExclusion(actions, Reach(actions).lifetimes[l].path);
  }

  /** The clean-up signals exactly the observations of its own lifetime that were not signalled
      before, running or not, and forgets the path. */
  lemma {:induction false} FinishSignalsItsOwn(actions: seq<Action>, l: nat, i: nat)
    requires Legal(actions) && Enabled(Reach(actions), Finish(l)) && i < |Reach(actions).observations|
    ensures var s, s' := Reach(actions), Apply(Reach(actions), Finish(l));
            && s.lifetimes[l].path in s.registry.byPath
            && s.lifetimes[l].path !in s'.registry.byPath
            && (s.observations[i].lifetime == l ==> s'.registry.signals[i] == 1)
            && (s.observations[i].lifetime != l ==> s'.registry.signals[i] == s.registry.signals[i])
  {
    ReachInv(actions);
    var s := Reach(actions);
    FinishFindsItsEntry(s, l);
    assert ObservationOk(s, i) && PathOk(s, s.lifetimes[l].path);
    FinishSignals(s, l, i);
  }

  lemma FinishSignals(s: System, l: nat, i: nat)
    requires Coherent(s) && Enabled(s, Finish(l)) && i < |s.observations|
    requires ObservationOk(s, i) && Serves(s, s.lifetimes[l].path, l) && PathOk(s, s.lifetimes[l].path)
    ensures var s' := Apply(s, Finish(l));
            && (s.observations[i].lifetime == l ==> s'.registry.signals[i] == 1)
            && (s.observations[i].lifetime != l ==> s'.registry.signals[i] == s.registry.signals[i])
  {
    var path, o := s.lifetimes[l].path, s.observations[i];
    if s.registry.signals[i] == 0 && o.lifetime == l {
      assert s.registry.byPath[path].registrations[o.key] == i;
    }
    if i in s.registry.byPath[path].registrations.Values {
      var key :| key in s.registry.byPath[path].registrations && s.registry.byPath[path].registrations[key] == i;
      assert o.lifetime == l;
    }
  }

  // ---------------------------------------------------------------- stay_active

  /** `stay_active` completes only when no observation of the path holds a receiver, so whatever
      runs later has subscribed later. */
  lemma {:induction false} IdleMeansNoObserver(actions: seq<Action>, l: nat, i: nat)
    requires Legal(actions) && i < |Reach(actions).observations| && Reach(actions).observations[i].lifetime == l
    ensures var s := Reach(actions);
            && (Enabled(s, StayActiveResolves(l)) ==> !Live(s.observations[i]))
            && (Live(s.observations[i]) ==> s.lifetimes[l].idleAt < s.observations[i].subscribedAt)
  {
    ObservationHolds(actions, i);
    LifetimeHolds(actions, l);
    var s := Reach(actions);
    if Live(s.observations[i]) {
      assert i in LiveOn(s, l);
    }
  }

  /** The clean-up of lifetime `l` is what terminates this running observation. */
  predicate CutOff(s: System, l: nat, i: nat)
    requires Coherent(s) && Enabled(s, Finish(l)) && i < |s.observations|
  {
    && Live(s.observations[i])
    && s.registry.signals[i] == 0 && Apply(s, Finish(l)).registry.signals[i] == 1
  }

  /** One that runs unsignalled and subscribed after `stay_active` last resolved. */
  predicate CameLate(s: System, l: nat, i: nat)
    requires Coherent(s) && l < |s.lifetimes| && i < |s.observations|
  {
    var o := s.observations[i];
    && o.lifetime == l && Live(o) && s.registry.signals[i] == 0
    && o.subscribedAt > s.lifetimes[l].idleAt
  }

  /** What awaiting `stay_active` is worth: the clean-up cuts off an observation, any one of them in
      particular, exactly if it subscribed after `stay_active` last resolved and still runs
      unsignalled. */
  lemma {:induction false} CutOffExactly(actions: seq<Action>, l: nat)
    requires Legal(actions) && Enabled(Reach(actions), Finish(l))
    ensures var s := Reach(actions);
            && (forall i :: 0 <= i < |s.observations| ==> (CutOff(s, l, i) <==> CameLate(s, l, i)))
            && ((exists i :: 0 <= i < |s.observations| && CutOff(s, l, i)) <==>
                (exists i :: 0 <= i < |s.observations| && CameLate(s, l, i)))
  {
    var s := Reach(actions);
    forall i | 0 <= i < |s.observations|
      ensures CutOff(s, l, i) <==> CameLate(s, l, i)
    {
      FinishSignalsItsOwn(actions, l, i);
      IdleMeansNoObserver(actions, s.observations[i].lifetime, i);
    }
  }

  // ---------------------------------------------------------------- updates

  /** When the handler last began to produce a representation for this observation. */
  function LastRun(o: Observation): nat {
    if o.lastRerun > 0 then o.lastRerun else o.generatedAt
  }

  /** A loop that waits with nothing unseen. */
  predicate Settled(s: System, i: nat)
    requires Coherent(s) && i < |s.observations|
  {
    var o := s.observations[i];
    o.registeredNum.Some? && o.loop.pc == Selecting && o.seen == s.registry.watches[o.lifetime].version
  }

  /** Of two lifetimes of one path the earlier one has ended. */
  ghost predicate InSuccession(s: System) {
    forall l, m :: 0 <= l < m < |s.lifetimes| && s.lifetimes[l].path == s.lifetimes[m].path ==>
      s.lifetimes[l].stage == Ended
  }

  /** What earlier lifetimes of its path had to report, they reported before it subscribed. */
  ghost predicate PastReported(s: System, o: Observation)
    requires o.lifetime < |s.lifetimes|
  {
    forall l :: 0 <= l < o.lifetime && s.lifetimes[l].path == o.path ==>
      s.lifetimes[l].reportedAt < o.subscribedAt
  }

  /** A lifetime that has ended stays as it is, and none changes its path. */
  lemma LifetimeFrame(s: System, a: Action, l: nat)
    requires Coherent(s) && Enabled(s, a) && l < |s.lifetimes|
    ensures var s' := Apply(s, a);
            && l < |s'.lifetimes| && s'.lifetimes[l].path == s.lifetimes[l].path
            && (s.lifetimes[l].stage == Ended ==> s'.lifetimes[l].stage == Ended
                                                  && s'.lifetimes[l].reportedAt == s.lifetimes[l].reportedAt)
  {
  }

  lemma StepKeepsSuccession(s: System, a: Action)
    requires Coherent(s) && Inv(s) && Enabled(s, a) && InSuccession(s)
    ensures InSuccession(Apply(s, a))
  {
    var s' := Apply(s, a);
    forall l, m | 0 <= l < m < |s'.lifetimes| && s'.lifetimes[l].path == s'.lifetimes[m].path
      ensures s'.lifetimes[l].stage == Ended
    {
      LifetimeFrame(s, a, l);
      if m < |s.lifetimes| {
        LifetimeFrame(s, a, m);
      } else {
        assert LifetimeOk(s, l);
      }
    }
  }

  lemma {:induction false} SuccessionHolds(actions: seq<Action>)
    requires Legal(actions)
    ensures InSuccession(Reach(actions))
    decreases |actions|
  {
    if actions != [] {
      var before := actions[..|actions| - 1];
      SuccessionHolds(before);
      ReachInv(before);
      StepKeepsSuccession(Reach(before), actions[|actions| - 1]);
    }
  }

  lemma SubscribedAfterReports(s: System, a: Action)
    requires a.SubscribeTo? && Coherent(s) && Inv(s) && Enabled(s, a)
    ensures PastReported(Apply(s, a), Apply(s, a).observations[|s.observations|])
  {
    forall l | 0 <= l < |s.lifetimes|
      ensures s.lifetimes[l].reportedAt < s.clock
    {
      assert LifetimeOk(s, l);
    }
  }

  lemma StepKeepsPast(s: System, a: Action, i: nat)
    requires Coherent(s) && Inv(s) && Enabled(s, a) && InSuccession(s)
    requires i < |s.observations| && PastReported(s, s.observations[i])
    ensures PastReported(Apply(s, a), Apply(s, a).observations[i])
  {
    var s', o := Apply(s, a), s.observations[i];
    StepFrame(s, a, i);
    assert ObservationOk(s, i);
    forall l | 0 <= l < o.lifetime && s'.lifetimes[l].path == o.path
      ensures s'.lifetimes[l].reportedAt < o.subscribedAt
    {
      LifetimeFrame(s, a, l);
    }
  }

  lemma {:induction false} PastHolds(actions: seq<Action>, i: nat)
    requires Legal(actions) && i < |Reach(actions).observations|
    ensures PastReported(Reach(actions), Reach(actions).observations[i])
    decreases |actions|
  {
    if actions != [] {
      var before, a := actions[..|actions| - 1], actions[|actions| - 1];
      ReachInv(before);
      SuccessionHolds(before);
      if i < |Reach(before).observations| {
        PastHolds(before, i);
        StepKeepsPast(Reach(before), a, i);
      } else {
        SubscribedAfterReports(Reach(before), a);
      }
    }
  }

  /** The lifetimes whose reports concern an observation: those of its path, except for the ones that
      begin after it was told to terminate. */
  predicate Concerns(s: System, l: nat, i: nat)
    requires Coherent(s) && i < |s.observations|
  {
    && l < |s.lifetimes| && s.lifetimes[l].path == s.observations[i].path
    && (l <= s.observations[i].lifetime || s.registry.signals[i] == 0)
  }

  /** Such a lifetime is the observation's own, or one that had said all before it subscribed. */
  lemma {:induction false} OwnOrPast(actions: seq<Action>, l: nat, i: nat)
    requires Legal(actions) && i < |Reach(actions).observations| && Concerns(Reach(actions), l, i)
    ensures var s := Reach(actions);
            var o := s.observations[i];
            l == o.lifetime || s.lifetimes[l].reportedAt < o.subscribedAt
  {
    var s := Reach(actions);
    PastHolds(actions, i);
    SuccessionHolds(actions);
    ObservationHolds(actions, i);
    if l > s.observations[i].lifetime {
      SenderHolds(actions, i);
      LifecycleExclusion(actions, s.observations[i].path);
      assert false;
    }
  }

  /** No lost update after subscribing: if `notify_change` reported anything since the subscription,
      the last re-run began after its latest report. */
  lemma {:induction false} NoLostUpdate(actions: seq<Action>, l: nat, i: nat)
    requires Legal(actions) && i < |Reach(actions).observations| && Settled(Reach(actions), i)
    requires Concerns(Reach(actions), l, i)
    ensures var s := Reach(actions);
            var o, reported := s.observations[i], s.lifetimes[l].reportedAt;
            reported > o.subscribedAt ==> reported < o.lastRerun
  {
    ObservationHolds(actions, i);
    OwnOrPast(actions, l, i);
  }

  /** A settled loop holds a representation older than the latest report, heard or not, of its own
      lifetime or an earlier one of its path, in exactly one case: the report fell between the start
      of the first response and the subscription, and the handler was not run again since. */
  lemma {:induction false} StaleOnlyFromTheWindow(actions: seq<Action>, l: nat, i: nat)
    requires Legal(actions) && i < |Reach(actions).observations| && Settled(Reach(actions), i)
    requires Concerns(Reach(actions), l, i)
    ensures var s := Reach(actions);
            var o, reported := s.observations[i], s.lifetimes[l].reportedAt;
            reported > 0 && LastRun(o) <= reported <==>
              o.notified == [] && reported > 0 && o.generatedAt <= reported <= o.subscribedAt
  {
    ObservationHolds(actions, i);
    OwnOrPast(actions, l, i);
  }

  /** Until the termination signal, the channel has a sender, `changed()` resolves only on a new
      version, and the value borrowed is never the initial one. */
  lemma {:induction false} NeverWokenByClosure(actions: seq<Action>, i: nat)
    requires Legal(actions) && i < |Reach(actions).observations| && Reach(actions).registry.signals[i] == 0
    ensures var s := Reach(actions);
            var o := s.observations[i];
            && SenderAlive(s, o.lifetime)
            && (Enabled(s, Loop(i, Changed)) ==> s.registry.watches[o.lifetime].version > o.seen)
            && (forall state :: Enabled(s, Loop(i, Borrowed(state))) ==> state.ResourceChanged?)
  {
    ObservationHolds(actions, i);
    LifetimeHolds(actions, Reach(actions).observations[i].lifetime);
    SenderHolds(actions, i);
  }

  /** Until then, the versions notified never decrease and none is notified a third time. */
  lemma {:induction false} NotifiedAtMostTwice(actions: seq<Action>, i: nat)
    requires Legal(actions) && i < |Reach(actions).observations| && Reach(actions).registry.signals[i] == 0
    ensures var n := Reach(actions).observations[i].notified;
            && (forall a, b :: 0 <= a < b < |n| ==> n[a] <= n[b])
            && (forall a, b, c :: 0 <= a < b < c < |n| ==> n[a] < n[b] || n[b] < n[c])
  {
    ObservationHolds(actions, i);
    var n := Reach(actions).observations[i].notified;
    forall a, b, c | 0 <= a < b < c < |n|
      ensures n[a] < n[b] || n[b] < n[c]
    {
      assert n[a] < n[a + 2];
    }
  }

  /** A run in which nothing is published between the `changed()` and the `borrow()` of an
      observation of the same lifetime: as if the two were one atomic step. */
  ghost predicate AtomicBorrows(actions: seq<Action>)
    requires Legal(actions)
    decreases |actions|
  {
    actions != [] ==>
      var last := |actions| - 1;
      && AtomicBorrows(actions[..last])
      && (actions[last].PublishCall? ==> NobodyWoken(Reach(actions[..last]), actions[last].lifetime))
  }

  ghost predicate NobodyWoken(s: System, l: nat) {
    forall i :: 0 <= i < |s.observations| && s.observations[i].lifetime == l ==> s.observations[i].loop.pc != Woken
  }

  /** The last version notified is the one marked, or an older one once the loop is woken again. */
  ghost predicate NotifiedOnce(o: Observation, version: nat) {
    var n := |o.notified|;
    && (forall a, b :: 0 <= a < b < n ==> o.notified[a] < o.notified[b])
    && (o.loop.pc == Woken ==> o.seen == version && (n > 0 ==> o.notified[n - 1] < o.seen))
    && (o.loop.pc != Woken && n > 0 ==> o.seen == o.notified[n - 1])
  }

  ghost predicate AtomicInv(s: System)
    requires Coherent(s)
  {
    forall i :: 0 <= i < |s.observations| && s.registry.signals[i] == 0 ==>
      NotifiedOnce(s.observations[i], s.registry.watches[s.observations[i].lifetime].version)
  }

  /** What a step leaves of an observation, its channel and its signal. */
  lemma StepFrame(s: System, a: Action, i: nat)
    requires Coherent(s) && Enabled(s, a) && i < |s.observations|
    ensures var s', o := Apply(s, a), s.observations[i];
            var w, w' := s.registry.watches[o.lifetime], s'.registry.watches[o.lifetime];
            && i < |s'.observations|
            && s'.observations[i] == (if a.Loop? && a.observation == i then Advanced(s, i, a.event)
                                      else if a.BorrowNumber? && a.observation == i then Registering(s, i)
                                      else o)
            && (if a.PublishCall? && a.lifetime == o.lifetime && w.receivers > 0
                then w'.version == w.version + 1 && s'.lifetimes[o.lifetime].published == a.call
                else w'.version == w.version && s'.lifetimes[o.lifetime].published == s.lifetimes[o.lifetime].published)
            && s'.registry.signals[i] >= s.registry.signals[i]
  {
  }

  lemma LoopKeepsAtomic(s: System, i: nat, e: LoopEvent)
    requires Coherent(s) && Enabled(s, Loop(i, e))
    requires SenderAlive(s, s.observations[i].lifetime) && MarkOk(s, i)
    requires NotifiedOnce(s.observations[i], s.registry.watches[s.observations[i].lifetime].version)
    ensures NotifiedOnce(Advanced(s, i, e), s.registry.watches[s.observations[i].lifetime].version)
  {
  }

  lemma StepKeepsAtomic(s: System, a: Action, i: nat)
    requires Coherent(s) && Enabled(s, a) && i < |s.observations|
    requires a.PublishCall? ==> NobodyWoken(s, a.lifetime)
    requires SenderAlive(s, s.observations[i].lifetime)
    requires MarkOk(s, i)
    requires NotifiedOnce(s.observations[i], s.registry.watches[s.observations[i].lifetime].version)
    ensures var s' := Apply(s, a);
            && s'.observations[i].lifetime == s.observations[i].lifetime
            && s'.registry.signals[i] >= s.registry.signals[i]
            && NotifiedOnce(s'.observations[i], s'.registry.watches[s.observations[i].lifetime].version)
  {
    StepFrame(s, a, i);
    if a.Loop? && a.observation == i {
      LoopKeepsAtomic(s, i, a.event);
    }
  }

  /** A loop has not seen the future, and is not woken by the initial value. */
  predicate MarkOk(s: System, i: nat)
    requires Coherent(s) && i < |s.observations|
  {
    var o := s.observations[i];
    var w := s.registry.watches[o.lifetime];
    o.seen <= w.version && (o.loop.pc == Woken ==> w.value.ResourceChanged?)
  }

  lemma {:induction false} MarkHolds(actions: seq<Action>, i: nat)
    requires Legal(actions) && i < |Reach(actions).observations| && Reach(actions).registry.signals[i] == 0
    ensures MarkOk(Reach(actions), i)
  {
    ObservationHolds(actions, i);
    LifetimeHolds(actions, Reach(actions).observations[i].lifetime);
  }

  lemma {:induction false} AtomicReach(actions: seq<Action>)
    requires Legal(actions) && AtomicBorrows(actions)
    ensures AtomicInv(Reach(actions))
    decreases |actions|
  {
    if actions != [] {
      var before, a := actions[..|actions| - 1], actions[|actions| - 1];
      var s := Reach(before);
      AtomicReach(before);
      forall i | 0 <= i < |Apply(s, a).observations| && Apply(s, a).registry.signals[i] == 0
        ensures NotifiedOnce(Apply(s, a).observations[i],
                             Apply(s, a).registry.watches[Apply(s, a).observations[i].lifetime].version)
      {
        if i < |s.observations| {
          StepFrame(s, a, i);
          SenderHolds(before, i);
          MarkHolds(before, i);
          StepKeepsAtomic(s, a, i);
        }
      }
    }
  }

  /** In such runs no version is notified twice before the termination signal. */
  lemma {:induction false} AtomicNotifiesOnce(actions: seq<Action>, i: nat)
    requires Legal(actions) && AtomicBorrows(actions)
    requires i < |Reach(actions).observations| && Reach(actions).registry.signals[i] == 0
    ensures var n := Reach(actions).observations[i].notified;
            forall a, b :: 0 <= a < b < |n| ==> n[a] < n[b]
  {
    AtomicReach(actions);
  }
}
