/** Every step of ObserveSystem keeps its invariant. */
module ObserveInvariant {
  import opened NotificationLoop
  import opened ObserveSystem

  // ---------------------------------------------------------------- the first registration of a path

  lemma SpawnKeepsInv(s: System, a: Action)
    requires a.SpawnFor? && Coherent(s) && Inv(s) && Enabled(s, a)
    ensures Inv(Apply(s, a))
  {
    var s' := Apply(s, a);
    forall path | path in s'.registry.byPath
      ensures PathOk(s', path)
    {
      assert path != a.path ==> PathOk(s, path);
    }
    forall l | 0 <= l < |s'.lifetimes|
      ensures LifetimeOk(s', l)
    {
      assert LiveOn(s', l) == LiveOn(s, l);
      if l < |s.lifetimes| {
        assert LifetimeOk(s, l);
      } else {
        assert LiveOn(s', l) == {};
      }
    }
    forall i | 0 <= i < |s'.observations|
      ensures ObservationOk(s', i)
    {
      assert ObservationOk(s, i);
    }
  }

  // ---------------------------------------------------------------- a registration

  lemma SubscribeKeepsPath(s: System, a: Action, path: string)
    requires a.SubscribeTo? && Coherent(s) && Inv(s) && Enabled(s, a)
    requires path in Apply(s, a).registry.byPath
    ensures PathOk(Apply(s, a), path)
  {
    assert PathOk(s, path);
  }

  lemma SubscribeKeepsLifetime(s: System, a: Action, l: nat)
    requires a.SubscribeTo? && Coherent(s) && Enabled(s, a) && l < |s.lifetimes| && LifetimeOk(s, l)
    ensures LifetimeOk(Apply(s, a), l)
  {
    var s' := Apply(s, a);
    var n := |s.observations|;
    if l == s.registry.byPath[a.path].lifetime {
      assert LiveOn(s', l) == LiveOn(s, l) + {n};
    } else {
      assert LiveOn(s', l) == LiveOn(s, l);
    }
  }

  lemma SubscribeKeepsObservation(s: System, a: Action, i: nat)
    requires a.SubscribeTo? && Coherent(s) && Inv(s) && Enabled(s, a) && i < |s.observations|
    ensures ObservationOk(Apply(s, a), i)
  {
    assert ObservationOk(s, i);
    assert PathOk(s, a.path);
  }

  lemma SubscribeAddsObservation(s: System, a: Action)
    requires a.SubscribeTo? && Coherent(s) && Inv(s) && Enabled(s, a)
    ensures ObservationOk(Apply(s, a), |s.observations|)
  {
    assert PathOk(s, a.path);
    assert LifetimeOk(s, s.registry.byPath[a.path].lifetime);
  }

  lemma SubscribeKeepsInv(s: System, a: Action)
    requires a.SubscribeTo? && Coherent(s) && Inv(s) && Enabled(s, a)
    ensures Inv(Apply(s, a))
  {
    var s' := Apply(s, a);
    forall path | path in s'.registry.byPath
      ensures PathOk(s', path)
    {
      SubscribeKeepsPath(s, a, path);
    }
    forall l | 0 <= l < |s'.lifetimes|
      ensures LifetimeOk(s', l)
    {
      assert LifetimeOk(s, l);
      SubscribeKeepsLifetime(s, a, l);
    }
    forall i | 0 <= i < |s'.observations|
      ensures ObservationOk(s', i)
    {
      if i < |s.observations| {
        SubscribeKeepsObservation(s, a, i);
      } else {
        SubscribeAddsObservation(s, a);
      }
    }
  }

  lemma BorrowKeepsInv(s: System, a: Action)
    requires a.BorrowNumber? && Coherent(s) && Inv(s) && Enabled(s, a)
    ensures Inv(Apply(s, a))
  {
    var s' := Apply(s, a);
    forall path | path in s'.registry.byPath
      ensures PathOk(s', path)
    {
      BorrowKeepsPath(s, a, path);
    }
    forall l | 0 <= l < |s'.lifetimes|
      ensures LifetimeOk(s', l)
    {
      assert LifetimeOk(s, l);
      assert LiveOn(s', l) == LiveOn(s, l);
    }
    forall i | 0 <= i < |s'.observations|
      ensures ObservationOk(s', i)
    {
      assert ObservationOk(s, i) && ObservationOk(s, a.observation);
      if i == a.observation {
        assert LifetimeOk(s, s.observations[i].lifetime);
        BorrowNumbersObservation(s, i);
      } else {
        assert PathOk(s, s.observations[a.observation].path);
        BorrowKeepsObservation(s, a, i);
      }
    }
  }

  lemma BorrowKeepsPath(s: System, a: Action, path: string)
    requires a.BorrowNumber? && Coherent(s) && Inv(s) && Enabled(s, a)
    requires path in Apply(s, a).registry.byPath
    ensures PathOk(Apply(s, a), path)
  {
    assert PathOk(s, path) && ObservationOk(s, a.observation);
  }

  lemma BorrowNumbersObservation(s: System, i: nat)
    requires Coherent(s) && Enabled(s, BorrowNumber(i))
    requires ObservationOk(s, i) && LifetimeOk(s, s.observations[i].lifetime)
    ensures ObservationOk(Apply(s, BorrowNumber(i)), i)
  {
  }

  /** Another observation may be the one whose sender is replaced. */
  lemma BorrowKeepsObservation(s: System, a: Action, i: nat)
    requires a.BorrowNumber? && Coherent(s) && Enabled(s, a) && i < |s.observations| && i != a.observation
    requires ObservationOk(s, i) && ObservationOk(s, a.observation)
    requires PathOk(s, s.observations[a.observation].path)
    ensures ObservationOk(Apply(s, a), i)
  {
  }

  // ---------------------------------------------------------------- a deregistration

  lemma DeregisterKeepsObservation(s: System, a: Action, i: nat)
    requires a.DeregisterFrom? && Coherent(s) && Inv(s) && Enabled(s, a) && i < |s.observations|
    ensures ObservationOk(Apply(s, a), i)
  {
    assert ObservationOk(s, i);
    assert a.path in s.registry.byPath ==> PathOk(s, a.path);
  }

  lemma DeregisterKeepsInv(s: System, a: Action)
    requires a.DeregisterFrom? && Coherent(s) && Inv(s) && Enabled(s, a)
    ensures Inv(Apply(s, a))
  {
    var s' := Apply(s, a);
    forall path | path in s'.registry.byPath
      ensures PathOk(s', path)
    {
      assert PathOk(s, path);
    }
    forall l | 0 <= l < |s'.lifetimes|
      ensures LifetimeOk(s', l)
    {
      assert LifetimeOk(s, l);
      assert LiveOn(s', l) == LiveOn(s, l);
    }
    forall i | 0 <= i < |s'.observations|
      ensures ObservationOk(s', i)
    {
      DeregisterKeepsObservation(s, a, i);
    }
  }

  // ---------------------------------------------------------------- the end of a lifecycle

  /** The clean-up always finds the entry of its own lifetime. */
  lemma FinishFindsItsEntry(s: System, l: nat)
    requires Coherent(s) && Inv(s) && Enabled(s, Finish(l))
    ensures Serves(s, s.lifetimes[l].path, l)
  {
    assert LifetimeOk(s, l);
  }

  lemma FinishKeepsObservation(s: System, a: Action, i: nat)
    requires a.Finish? && Coherent(s) && Enabled(s, a) && i < |s.observations| && ObservationOk(s, i)
    requires var path := s.lifetimes[a.lifetime].path;
             path in s.registry.byPath && PathOk(s, path)
    ensures ObservationOk(Apply(s, a), i)
  {
    var path, o := s.lifetimes[a.lifetime].path, s.observations[i];
    var registrations := s.registry.byPath[path].registrations;
    assert i in registrations.Values <==> o.path == path && StoredUnder(s.registry, o, i) by {
      if i in registrations.Values {
        var key :| key in registrations && registrations[key] == i;
        assert o.key == key;
      }
    }
  }

  lemma FinishKeepsInv(s: System, a: Action)
    requires a.Finish? && Coherent(s) && Inv(s) && Enabled(s, a)
    ensures Inv(Apply(s, a))
  {
    var s' := Apply(s, a);
    FinishFindsItsEntry(s, a.lifetime);
    forall path | path in s'.registry.byPath
      ensures PathOk(s', path)
    {
      assert PathOk(s, path);
    }
    forall l | 0 <= l < |s'.lifetimes|
      ensures LifetimeOk(s', l)
    {
      assert LifetimeOk(s, l);
      assert LiveOn(s', l) == LiveOn(s, l);
    }
    forall i | 0 <= i < |s'.observations|
      ensures ObservationOk(s', i)
    {
      assert ObservationOk(s, i) && PathOk(s, s.lifetimes[a.lifetime].path);
      FinishKeepsObservation(s, a, i);
    }
  }

  // ---------------------------------------------------------------- what happens inside a lifetime

  predicate OnLifetime(a: Action) {
    a.OnActiveReturns? || a.Increment? || a.PublishCall? || a.CancelCall? || a.StayActiveResolves?
  }

  lemma LifetimeActionKeepsLifetime(s: System, a: Action, l: nat)
    requires OnLifetime(a) && Coherent(s) && Enabled(s, a) && l < |s.lifetimes| && LifetimeOk(s, l)
    ensures LifetimeOk(Apply(s, a), l)
  {
    var s' := Apply(s, a);
    assert LiveOn(s', l) == LiveOn(s, l);
    if a.Increment? && a.lifetime == l {
      IncrementKeepsNumbers(s, l);
    }
  }

  lemma IncrementKeepsNumbers(s: System, l: nat)
    requires Coherent(s) && Enabled(s, Increment(l)) && LifetimeOk(s, l)
    ensures NumbersOk(Apply(s, Increment(l)).lifetimes[l])
  {
  }

  lemma PublishKeepsObservation(s: System, a: Action, i: nat)
    requires a.PublishCall? && Coherent(s) && Enabled(s, a) && i < |s.observations|
    requires ObservationOk(s, i) && LifetimeOk(s, s.observations[i].lifetime)
    ensures ObservationOk(Apply(s, a), i)
  {
    assert Live(s.observations[i]) <==> i in LiveOn(s, s.observations[i].lifetime);
  }

  lemma IncrementKeepsObservation(s: System, a: Action, i: nat)
    requires a.Increment? && Coherent(s) && Enabled(s, a) && i < |s.observations| && ObservationOk(s, i)
    ensures ObservationOk(Apply(s, a), i)
  {
  }

  lemma IdleKeepsObservation(s: System, a: Action, i: nat)
    requires a.StayActiveResolves? && Coherent(s) && Enabled(s, a) && i < |s.observations|
    requires ObservationOk(s, i) && LifetimeOk(s, s.observations[i].lifetime)
    ensures ObservationOk(Apply(s, a), i)
  {
    if a.lifetime == s.observations[i].lifetime {
      assert LiveOn(s, a.lifetime) == {};
      assert i !in LiveOn(s, a.lifetime);
    }
  }

  lemma LifetimeActionKeepsObservation(s: System, a: Action, i: nat)
    requires OnLifetime(a) && Coherent(s) && Enabled(s, a) && i < |s.observations|
    requires ObservationOk(s, i) && LifetimeOk(s, s.observations[i].lifetime)
    ensures ObservationOk(Apply(s, a), i)
  {
    match a {
      case PublishCall(_, _) => PublishKeepsObservation(s, a, i);
      case Increment(_) => IncrementKeepsObservation(s, a, i);
      case StayActiveResolves(_) => IdleKeepsObservation(s, a, i);
      case _ =>
    }
  }

  lemma LifetimeActionKeepsInv(s: System, a: Action)
    requires OnLifetime(a) && Coherent(s) && Inv(s) && Enabled(s, a)
    ensures Inv(Apply(s, a))
  {
    var s' := Apply(s, a);
    forall path | path in s'.registry.byPath
      ensures PathOk(s', path)
    {
      assert PathOk(s, path);
    }
    forall l | 0 <= l < |s'.lifetimes|
      ensures LifetimeOk(s', l)
    {
      assert LifetimeOk(s, l);
      LifetimeActionKeepsLifetime(s, a, l);
    }
    forall i | 0 <= i < |s'.observations|
      ensures ObservationOk(s', i)
    {
      assert ObservationOk(s, i) && LifetimeOk(s, s.observations[i].lifetime);
      LifetimeActionKeepsObservation(s, a, i);
    }
  }

  // ---------------------------------------------------------------- a step of a loop

  lemma LoopKeepsLifetime(s: System, a: Action, l: nat)
    requires a.Loop? && Coherent(s) && Enabled(s, a) && l < |s.lifetimes| && LifetimeOk(s, l)
    ensures LifetimeOk(Apply(s, a), l)
  {
    var s', i := Apply(s, a), a.observation;
    if s.observations[i].lifetime == l && !Live(s'.observations[i]) {
      assert i in LiveOn(s, l);
      assert LiveOn(s', l) == LiveOn(s, l) - {i};
    } else {
      assert LiveOn(s', l) == LiveOn(s, l);
    }
  }

  /** An observation that was not signalled still has its entry, so its channel has a sender. */
  lemma UnsignalledHasSender(s: System, i: nat)
    requires Coherent(s) && Inv(s) && i < |s.observations| && s.registry.signals[i] == 0
    ensures SenderAlive(s, s.observations[i].lifetime)
  {
    assert ObservationOk(s, i);
    assert StoredUnder(s.registry, s.observations[i], i) ==> PathOk(s, s.observations[i].path);
    assert LifetimeOk(s, s.observations[i].lifetime);
  }

  lemma ChangedKeepsNotified(o: Observation, o': Observation, version: nat)
    requires NotifiedOk(o, version) && o.seen < version && o.loop.pc.Selecting?
    requires o'.notified == o.notified && o'.seen == version && o'.loop.pc == Woken
    ensures NotifiedOk(o', version)
  {
  }

  lemma BorrowedKeepsNotified(o: Observation, o': Observation, version: nat)
    requires NotifiedOk(o, version) && o.loop.pc == Woken
    requires o'.notified == o.notified + [version] && o'.seen == o.seen && o'.loop.pc != Woken
    ensures NotifiedOk(o', version)
  {
  }

  lemma OthersKeepNotified(o: Observation, o': Observation, version: nat)
    requires NotifiedOk(o, version) && o.loop.pc != Woken
    requires o'.notified == o.notified && o'.seen == o.seen && o'.loop.pc != Woken
    ensures NotifiedOk(o', version)
  {
  }

  /** Provided that the channel has a sender. */
  lemma LoopKeepsNotified(s: System, i: nat, e: LoopEvent)
    requires Coherent(s) && Enabled(s, Loop(i, e)) && SenderAlive(s, s.observations[i].lifetime)
    requires var l := s.observations[i].lifetime;
             NotifiedOk(s.observations[i], s.registry.watches[l].version)
             && ChannelOk(s.lifetimes[l], s.registry.watches[l])
    ensures NotifiedOk(Advanced(s, i, e), s.registry.watches[s.observations[i].lifetime].version)
  {
    var o, o', version := s.observations[i], Advanced(s, i, e), s.registry.watches[s.observations[i].lifetime].version;
    if e.Changed? {
      ChangedKeepsNotified(o, o', version);
    } else if e.Borrowed? {
      BorrowedKeepsNotified(o, o', version);
    } else {
      OthersKeepNotified(o, o', version);
    }
  }

  lemma LoopKeepsShown(s: System, i: nat, e: LoopEvent)
    requires Coherent(s) && Enabled(s, Loop(i, e))
    requires var l := s.observations[i].lifetime;
             ShownOk(s.observations[i], s.lifetimes[l]) && ChannelOk(s.lifetimes[l], s.registry.watches[l])
    ensures ShownOk(Advanced(s, i, e), s.lifetimes[s.observations[i].lifetime])
  {
  }

  lemma LoopKeepsFresh(s: System, i: nat, e: LoopEvent)
    requires Coherent(s) && Enabled(s, Loop(i, e))
    requires ObservationOk(s, i) && LifetimeOk(s, s.observations[i].lifetime)
    ensures var l := s.observations[i].lifetime;
            FreshOk(Advanced(s, i, e), s.lifetimes[l], s.registry.watches[l].version)
  {
  }

  lemma LoopKeepsTimes(s: System, i: nat, e: LoopEvent)
    requires Coherent(s) && Enabled(s, Loop(i, e)) && TimesOk(s.observations[i], s.clock)
    ensures TimesOk(Advanced(s, i, e), s.clock + 1)
  {
  }

  /** All that a step of the loop changes about its own observation is what it does to it. */
  lemma LoopKeepsRest(s: System, i: nat, e: LoopEvent)
    requires Coherent(s) && Enabled(s, Loop(i, e)) && ObservationOk(s, i)
    requires var o', l := Advanced(s, i, e), s.observations[i].lifetime;
             && (s.registry.signals[i] == 0 ==> NotifiedOk(o', s.registry.watches[l].version))
             && TimesOk(o', s.clock + 1) && ShownOk(o', s.lifetimes[l])
             && FreshOk(o', s.lifetimes[l], s.registry.watches[l].version)
    ensures ObservationOk(Apply(s, Loop(i, e)), i)
  {
  }

  lemma LoopKeepsOwnObservation(s: System, i: nat, e: LoopEvent)
    requires Coherent(s) && Inv(s) && Enabled(s, Loop(i, e))
    ensures ObservationOk(Apply(s, Loop(i, e)), i)
  {
    assert ObservationOk(s, i) && LifetimeOk(s, s.observations[i].lifetime);
    if s.registry.signals[i] == 0 {
      UnsignalledHasSender(s, i);
      LoopKeepsNotified(s, i, e);
    }
    LoopKeepsTimes(s, i, e);
    LoopKeepsShown(s, i, e);
    LoopKeepsFresh(s, i, e);
    LoopKeepsRest(s, i, e);
  }

  lemma LoopKeepsInv(s: System, a: Action)
    requires a.Loop? && Coherent(s) && Inv(s) && Enabled(s, a)
    ensures Inv(Apply(s, a))
  {
    var s' := Apply(s, a);
    forall path | path in s'.registry.byPath
      ensures PathOk(s', path)
    {
      assert PathOk(s, path);
    }
    forall l | 0 <= l < |s'.lifetimes|
      ensures LifetimeOk(s', l)
    {
      assert LifetimeOk(s, l);
      LoopKeepsLifetime(s, a, l);
    }
    forall i | 0 <= i < |s'.observations|
      ensures ObservationOk(s', i)
    {
      if i == a.observation {
        LoopKeepsOwnObservation(s, i, a.event);
      } else {
        assert ObservationOk(s, i);
      }
    }
  }

  // ---------------------------------------------------------------- every step, every run

  lemma StepKeepsInv(s: System, a: Action)
    requires Coherent(s) && Inv(s) && Enabled(s, a)
    ensures Inv(Apply(s, a))
  {
    match a {
      case SpawnFor(_, _, _) => SpawnKeepsInv(s, a);
      case SubscribeTo(_, _, _) => SubscribeKeepsInv(s, a);
      case BorrowNumber(_) => BorrowKeepsInv(s, a);
      case DeregisterFrom(_, _) => DeregisterKeepsInv(s, a);
      case Finish(_) => FinishKeepsInv(s, a);
      case Loop(_, _) => LoopKeepsInv(s, a);
      case _ => LifetimeActionKeepsInv(s, a);
    }
  }

  /** The invariant holds in every state that any interleaving reaches. */
  lemma {:induction false} ReachInv(actions: seq<Action>)
    requires Legal(actions)
    ensures Inv(Reach(actions))
    decreases |actions|
  {
    if actions != [] {
      var last := |actions| - 1;
      ReachInv(actions[..last]);
      StepKeepsInv(Reach(actions[..last]), actions[last]);
    }
  }
}
