/** What registrations and deregistrations do in a run: the operations on the table that the handler's
    methods are proved against are what the actions of ObserveSystem lead to. */
module RegistryTheorems {
  import NotificationLoop
  import ObserveInvariant
  import opened ObserveOrder
  import opened ObserveSystem
  import opened ObserveTheorems
  import opened Registry
  import opened Sequences
  import U24
  import opened Wrappers

  /** The actions of one registration, by a request that finds the table in state `s`. */
  function RegistrationSteps(s: System, path: string, key: RegistrationKey, first: U24.u24, generatedAt: nat)
    : seq<Action>
  {
    (if path in s.registry.byPath then [] else [SpawnFor(path, key, first)])
    + [SubscribeTo(path, key, generatedAt)] + [BorrowNumber(|s.observations|)]
  }

  /** Spawned for, if need be. */
  function Prepared(s: System, path: string, key: RegistrationKey, first: U24.u24): (r: System)
    requires Coherent(s) && s.held.None?
    ensures Coherent(r)
  {
    if path in s.registry.byPath then s else Apply(s, SpawnFor(path, key, first))
  }

  lemma RegistrationInState(s: System, path: string, key: RegistrationKey, first: U24.u24, generatedAt: nat)
    requires Coherent(s) && s.held.None? && generatedAt < s.clock
    ensures var t := Prepared(s, path, key, first);
            && Enabled(t, SubscribeTo(path, key, generatedAt))
            && var u := Apply(t, SubscribeTo(path, key, generatedAt));
               && Enabled(u, BorrowNumber(|s.observations|))
               && var v := Apply(u, BorrowNumber(|s.observations|));
                  v.registry == Register(s.registry, path, key, first) && v.held.None?
  {
    SubscribeInSteps(Prepared(s, path, key, first).registry, path, key);
  }

  lemma {:induction false} PreparedInRun(actions: seq<Action>, path: string, key: RegistrationKey, first: U24.u24)
    returns (longer: seq<Action>)
    requires Legal(actions) && Reach(actions).held.None?
    ensures longer == actions + if path in Reach(actions).registry.byPath then [] else [SpawnFor(path, key, first)]
    ensures Legal(longer) && Reach(longer) == Prepared(Reach(actions), path, key, first)
  {
    if path in Reach(actions).registry.byPath {
      longer := actions;
      SumWithEmpty(actions);
    } else {
      longer := actions + [SpawnFor(path, key, first)];
      OneMore(actions, SpawnFor(path, key, first));
    }
  }

  /** Whenever the lock is free, these actions can be taken, and lead to what `Register` says. */
  lemma {:induction false} RegistrationByActions(actions: seq<Action>, path: string, key: RegistrationKey,
                                                 first: U24.u24, generatedAt: nat)
    requires Legal(actions) && Reach(actions).held.None? && generatedAt < Reach(actions).clock
    ensures var s := Reach(actions);
            var longer := actions + RegistrationSteps(s, path, key, first, generatedAt);
            && Legal(longer) && Reach(longer).held.None?
            && Reach(longer).registry == Register(s.registry, path, key, first)
            && Registers(s.registry, Reach(longer).registry, path, key, first)
  {
    var s := Reach(actions);
    RegistrationInState(s, path, key, first, generatedAt);
    RegisterEffect(s.registry, path, key, first);
    var one := PreparedInRun(actions, path, key, first);
    OneMore(one, SubscribeTo(path, key, generatedAt));
    var two := one + [SubscribeTo(path, key, generatedAt)];
    OneMore(two, BorrowNumber(|s.observations|));
    Regroup(actions, if path in s.registry.byPath then [] else [SpawnFor(path, key, first)],
            [SubscribeTo(path, key, generatedAt)], [BorrowNumber(|s.observations|)]);
  }

  lemma Regroup<T>(a: seq<T>, b: seq<T>, c: seq<T>, d: seq<T>)
    ensures a + (b + c + d) == a + b + c + d
  {
  }

  /** A registration that comes to store its sender: it is then the one under its path and key; whoever
      was there before is signalled, and nobody else. */
  lemma {:induction false} RegistrationReplaces(actions: seq<Action>, i: nat, j: nat)
    requires Legal(actions) && Enabled(Reach(actions), BorrowNumber(i)) && j < |Reach(actions).observations|
    ensures var s, s' := Reach(actions), Apply(Reach(actions), BorrowNumber(i));
            var o := s.observations[i];
            && StoredUnder(s'.registry, s'.observations[i], i) && s'.registry.signals[i] == 0
            && s'.registry.signals[j] ==
               if j != i && s.registry.signals[j] == 0
                  && s.observations[j].path == o.path && s.observations[j].key == o.key
               then 1 else s.registry.signals[j]
  {
    ObserveInvariant.ReachInv(actions);
    var s := Reach(actions);
    assert ObservationOk(s, i) && ObservationOk(s, j);
    assert PathOk(s, s.observations[i].path);
  }

  /** A deregistration, whenever the lock is free: afterwards nothing is stored under the key; the
      observation that was stored there has its one signal; every other entry, every other signal and
      every channel stays, and so do lifetimes and observations. */
  lemma {:induction false} DeregistrationExactly(actions: seq<Action>, path: string, key: RegistrationKey, j: nat)
    requires Legal(actions) && Reach(actions).held.None? && j < |Reach(actions).observations|
    ensures Enabled(Reach(actions), DeregisterFrom(path, key))
    ensures var s, s' := Reach(actions), Apply(Reach(actions), DeregisterFrom(path, key));
            && Deregisters(s.registry, s'.registry, path, key)
            && s'.registry.signals[j] ==
               (if s.registry.signals[j] == 0 && s.observations[j].path == path && s.observations[j].key == key
                then 1 else s.registry.signals[j])
            && s'.lifetimes == s.lifetimes && s'.observations == s.observations
  {
    ObserveInvariant.ReachInv(actions);
    var s := Reach(actions);
    DeregisterEffect(s.registry, path, key);
    assert ObservationOk(s, j);
    if path in s.registry.byPath {
      assert PathOk(s, path);
    }
  }

  /** So a peer that deregisters has a loop that can stop, and none that cannot: of all observations
      under this path and key, every running one can take its termination branch as soon as it waits. */
  lemma {:induction false} DeregisteredCanStop(actions: seq<Action>, path: string, key: RegistrationKey, j: nat)
    requires Legal(actions) && Reach(actions).held.None? && j < |Reach(actions).observations|
    requires Reach(actions).observations[j].path == path && Reach(actions).observations[j].key == key
    requires Reach(actions).observations[j].loop.pc.Selecting?
    ensures Enabled(Apply(Reach(actions), DeregisterFrom(path, key)), Loop(j, NotificationLoop.Terminated))
  {
    ObserveInvariant.ReachInv(actions);
    assert ObservationOk(Reach(actions), j);
    DeregistrationExactly(actions, path, key, j);
  }
}
