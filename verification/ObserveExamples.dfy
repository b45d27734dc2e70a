/** Runs in which the server does less than its comments promise. */
module ObserveExamples {
  import opened NotificationLoop
  import opened ObserveSystem
  import opened ObserveTheorems
  import Packets
  import opened Registry
  import opened U24
  import Watch
  import opened Wrappers

  ghost predicate Reachable(s: System) {
    exists actions :: Legal(actions) && Reach(actions) == s
  }

  lemma InitialReachable()
    ensures Reachable(Initial())
  {
    assert Legal([]);
    assert Reach([]) == Initial();
  }

  lemma StepReachable(s: System, a: Action)
    requires Coherent(s) && Reachable(s) && Enabled(s, a)
    ensures Reachable(Apply(s, a))
  {
    var actions :| Legal(actions) && Reach(actions) == s;
    var longer := actions + [a];
    assert longer[..|longer| - 1] == actions;
    assert Legal(longer) && Reach(longer) == Apply(s, a);
  }

  /** One path, one lifetime, one observer that waits with nothing unseen, and calls of
      `notify_change` in flight. */
  ghost predicate Waiting(s: System) {
    && Coherent(s) && Reachable(s)
    && |s.lifetimes| == |s.observations| == 1
    && s.held.None? && s.lifetimes[0].stage == Active
    && s.observations[0].lifetime == 0 && Settled(s, 0)
    && s.registry.watches[0].receivers > 0
  }

  /** One path with one registered observer. */
  lemma OneObserver(path: string, key: RegistrationKey, first: u24) returns (s: System)
    ensures Coherent(s) && Reachable(s) && s.held.None? && Waiting(s)
    ensures |s.lifetimes| == 1 && s.lifetimes[0] == Lifetime(path, first, [], {}, 0, 0, 0, Active)
    ensures |s.observations| == 1 && s.clock == 4
    ensures s.observations[0] ==
            Observation(path, key, 0, 0, 2, Some(first), 0, LoopState(Selecting, []), [], [0], 0)
    ensures s.registry.watches == [Watch.WatchState(InitialSequence(first), 0, 1)]
    ensures s.registry.byPath == map[path := Entry(0, map[key := 0])]
  {
    InitialReachable();
    var s0, a0 := Initial(), SpawnFor(path, key, first);
    StepReachable(s0, a0);
    var s1 := Apply(s0, a0);
    s := Registration(s1, path, key, 0);
  }

  /** A registration that comes through without a publish in between. */
  lemma Registration(s: System, path: string, key: RegistrationKey, generatedAt: nat) returns (r: System)
    requires Coherent(s) && Reachable(s) && Enabled(s, SubscribeTo(path, key, generatedAt))
    ensures Coherent(r) && Reachable(r) && r.held.None? && r.lifetimes == s.lifetimes && r.clock == s.clock + 2
    ensures r.registry == Subscribe(s.registry, path, key)
    ensures var l := s.registry.byPath[path].lifetime;
            var w := s.registry.watches[l];
            r.observations == s.observations +
              [Observation(path, key, l, generatedAt, s.clock, Some(w.value.num), w.version,
                           LoopState(Selecting, []), [], [s.lifetimes[l].published], 0)]
  {
    var a, b := SubscribeTo(path, key, generatedAt), BorrowNumber(|s.observations|);
    StepReachable(s, a);
    StepReachable(Apply(s, a), b);
    SubscribeInSteps(s.registry, path, key);
    r := Apply(Apply(s, a), b);
  }

  lemma IdleBeforeSubscription(path: string, key: RegistrationKey, first: u24) returns (s: System)
    ensures Coherent(s) && Reachable(s) && s.held == Some(Spawned(path, key))
    ensures |s.lifetimes| == 1 && s.lifetimes[0] == Lifetime(path, first, [], {}, 0, 0, 2, Returned) && s.clock == 4
    ensures s.observations == [] && s.registry.signals == []
    ensures s.registry.byPath == map[path := Entry(0, map[])]
  {
    InitialReachable();
    var s0, a0 := Initial(), SpawnFor(path, key, first);
    StepReachable(s0, a0);
    var s1 := Apply(s0, a0);
    StepReachable(s1, StayActiveResolves(0));
    var s2 := Apply(s1, StayActiveResolves(0));
    StepReachable(s2, OnActiveReturns(0));
    s := Apply(s2, OnActiveReturns(0));
  }

  /** `on_active` may await `stay_active` and still end while an observer is active: the channel
      has no receiver yet when the lifecycle task is spawned, so `stay_active` can complete before
      the very registration that spawned it subscribes; its loop is then terminated. */
  lemma StayActiveRace(path: string, key: RegistrationKey, first: u24) returns (s: System)
    ensures Coherent(s) && Reachable(s)
    ensures |s.observations| == 1 && Live(s.observations[0]) && s.registry.signals[0] == 1
    ensures |s.lifetimes| == 1 && s.observations[0].lifetime == 0
    ensures 0 < s.lifetimes[0].idleAt < s.observations[0].subscribedAt && s.lifetimes[0].stage == Ended
  {
    var s3 := IdleBeforeSubscription(path, key, first);
    var s4 := Registration(s3, path, key, 0);
    assert s4.registry.byPath[path].registrations[key] == 0;
    StepReachable(s4, Finish(0));
    s := Apply(s4, Finish(0));
  }

  lemma StartCall(s: System) returns (r: System)
    requires Waiting(s)
    ensures Waiting(r) && r.observations == s.observations && r.lifetimes[0].path == s.lifetimes[0].path
    ensures r.registry == s.registry && r.clock == s.clock + 1
    ensures var lt, lt' := s.lifetimes[0], r.lifetimes[0];
            && lt'.numbers == lt.numbers + [WrappingAdd(CurrentNum(lt), 1)]
            && lt'.pending == lt.pending + {|lt.numbers| + 1}
  {
    StepReachable(s, Increment(0));
    r := Apply(s, Increment(0));
  }

  lemma FinishCall(s: System, call: nat) returns (r: System)
    requires Coherent(s) && Reachable(s) && s.held.None?
    requires |s.lifetimes| == 1 && s.lifetimes[0].stage == Active && s.registry.watches[0].receivers > 0
    requires call in s.lifetimes[0].pending && 1 <= call <= |s.lifetimes[0].numbers|
    ensures Coherent(r) && Reachable(r) && r.held.None? && r.observations == s.observations
    ensures r.registry.byPath == s.registry.byPath
    ensures r.registry.watches ==
            [Watch.Publish(s.registry.watches[0], ResourceChanged(s.lifetimes[0].numbers[call - 1]))]
    ensures r.lifetimes == [s.lifetimes[0].(pending := s.lifetimes[0].pending - {call}, published := call,
                                            reportedAt := s.clock)]
    ensures r.clock == s.clock + 1
  {
    StepReachable(s, PublishCall(0, call));
    PublishOnly(s, call);
    r := Apply(s, PublishCall(0, call));
  }

  lemma PublishOnly(s: System, call: nat)
    requires Coherent(s) && Enabled(s, PublishCall(0, call)) && |s.lifetimes| == 1
    requires s.registry.watches[0].receivers > 0
    ensures var r := Apply(s, PublishCall(0, call));
            && r.held == s.held && r.observations == s.observations && r.registry.byPath == s.registry.byPath
            && r.registry.watches ==
               [Watch.Publish(s.registry.watches[0], ResourceChanged(s.lifetimes[0].numbers[call - 1]))]
            && r.lifetimes == [s.lifetimes[0].(pending := s.lifetimes[0].pending - {call}, published := call,
                                               reportedAt := s.clock)]
            && r.clock == s.clock + 1
  {
  }

  /** A change reported after the first response was generated but before the subscription never
      reaches the observer: it settles on the older representation.  Here another observer made the
      channel take it. */
  lemma LostInTheWindow(path: string, key: RegistrationKey, other: RegistrationKey, first: u24) returns (s: System)
    requires key != other
    ensures Coherent(s) && Reachable(s)
    ensures |s.observations| == 2 && |s.lifetimes| == 1 && s.observations[1].lifetime == 0 && Settled(s, 1)
    ensures LastRun(s.observations[1]) < s.lifetimes[0].reportedAt && s.lifetimes[0].published == 1
  {
    var s0 := OneObserver(path, other, first);
    var s1 := StartCall(s0);
    var s2 := FinishCall(s1, 1);
    s := Registration(s2, path, key, s0.clock);
  }

  /** Here nobody listens yet: `on_active` reports a change before the registration that spawned it
      has subscribed, and the channel drops it. */
  lemma LostUnheard(path: string, key: RegistrationKey, first: u24) returns (s: System)
    ensures Coherent(s) && Reachable(s)
    ensures |s.observations| == |s.lifetimes| == 1 && s.observations[0].lifetime == 0 && Settled(s, 0)
    ensures s.registry.signals[0] == 0
    ensures LastRun(s.observations[0]) < s.lifetimes[0].reportedAt && s.lifetimes[0].published == 0
  {
    InitialReachable();
    var s0, a0 := Initial(), SpawnFor(path, key, first);
    StepReachable(s0, a0);
    var s1 := Apply(s0, a0);
    StepReachable(s1, Increment(0));
    var s2 := Apply(s1, Increment(0));
    StepReachable(s2, PublishCall(0, 1));
    var s3 := Apply(s2, PublishCall(0, 1));
    s := Registration(s3, path, key, 0);
  }

  /** A change that a lifetime reports last, after a request's first response was begun, and its
      clean-up before that request registers: the request spawns the next lifetime, and its observer
      settles on the older representation all the same. */
  lemma LostAcrossLifetimes(path: string, key: RegistrationKey, other: RegistrationKey, first: u24, next: u24)
    returns (s: System)
    ensures Coherent(s) && Reachable(s)
    ensures |s.observations| == |s.lifetimes| == 2 && s.observations[1].lifetime == 1 && Settled(s, 1)
    ensures s.registry.signals[1] == 0 && s.lifetimes[0].path == s.observations[1].path
    ensures LastRun(s.observations[1]) < s.lifetimes[0].reportedAt && s.lifetimes[1].reportedAt == 0
  {
    var s0 := OneObserver(path, other, first);
    var s1 := StartCall(s0);
    var s2 := FinishCall(s1, 1);
    var s3 := CleanedUp(s2);
    s := NextLifetime(s3, path, key, next, s0.clock);
  }

  lemma NextLifetime(s: System, path: string, key: RegistrationKey, next: u24, generatedAt: nat) returns (r: System)
    requires Coherent(s) && Reachable(s) && s.held.None? && |s.lifetimes| == |s.observations| == 1
    requires path !in s.registry.byPath && generatedAt < s.clock
    ensures Coherent(r) && Reachable(r)
    ensures r.lifetimes == s.lifetimes + [Lifetime(path, next, [], {}, 0, 0, 0, Active)]
    ensures |r.observations| == 2 && r.observations[1].path == path && r.observations[1].lifetime == 1
    ensures Settled(r, 1) && r.registry.signals[1] == 0 && LastRun(r.observations[1]) == generatedAt
  {
    StepReachable(s, SpawnFor(path, key, next));
    var spawned := Apply(s, SpawnFor(path, key, next));
    r := Registration(spawned, path, key, generatedAt);
  }

  /** `on_active` of the only lifetime returns, and is cleaned up after. */
  lemma CleanedUp(s: System) returns (r: System)
    requires Coherent(s) && Reachable(s) && s.held.None?
    requires |s.lifetimes| == |s.observations| == 1 && s.lifetimes[0].stage == Active
    requires s.lifetimes[0].path in s.registry.byPath && |s.registry.byPath| == 1
    ensures Coherent(r) && Reachable(r) && r.held.None?
    ensures r.lifetimes == [s.lifetimes[0].(stage := Ended)] && r.observations == s.observations
    ensures s.lifetimes[0].path !in r.registry.byPath && r.clock == s.clock + 2
  {
    StepReachable(s, OnActiveReturns(0));
    var returned := Apply(s, OnActiveReturns(0));
    StepReachable(returned, Finish(0));
    r := Apply(returned, Finish(0));
  }

  /** One whole notification of the observer: woken, re-run, sent, acknowledged. */
  lemma Notified(s: System, response: Packets.Packet) returns (r: System)
    requires Coherent(s) && Reachable(s) && s.held.None? && |s.lifetimes| == |s.observations| == 1
    requires s.lifetimes[0].stage == Active && s.registry.watches[0].receivers > 0
    requires s.observations[0].lifetime == 0 && s.observations[0].loop.pc == Selecting
    requires s.observations[0].registeredNum.Some?
    requires s.observations[0].seen != s.registry.watches[0].version && s.registry.watches[0].value.ResourceChanged?
    ensures Waiting(r) && r.lifetimes == s.lifetimes
    ensures var num := s.registry.watches[0].value.num;
            r.observations[0].loop.sent ==
            s.observations[0].loop.sent + [Notification(num, response.observe, Numbered(response, num))]
    ensures r.registry == s.registry && r.observations[0].generatedAt == s.observations[0].generatedAt
    ensures r.observations[0].registeredNum == s.observations[0].registeredNum
    ensures r.observations[0].lastRerun == s.clock + 1
  {
    var woken, state := Apply(s, Loop(0, Changed)), s.registry.watches[0].value;
    StepReachable(s, Loop(0, Changed));
    var borrowed := Apply(woken, Loop(0, Borrowed(state)));
    StepReachable(woken, Loop(0, Borrowed(state)));
    r := Answered(borrowed, response);
  }

  lemma Answered(s: System, response: Packets.Packet) returns (r: System)
    requires Coherent(s) && Reachable(s) && |s.observations| == 1
    requires s.observations[0].registeredNum.Some? && s.observations[0].loop.pc.Generating?
    ensures Coherent(r) && Reachable(r) && r.lifetimes == s.lifetimes && r.registry == s.registry && r.held == s.held
    ensures var o, num := s.observations[0], s.observations[0].loop.pc.num;
            r.observations == [o.(loop := LoopState(Selecting,
              o.loop.sent + [Notification(num, response.observe, Numbered(response, num))]))]
  {
    var sending := Apply(s, Loop(0, HandlerReturned(Ok(response))));
    StepReachable(s, Loop(0, HandlerReturned(Ok(response))));
    StepReachable(sending, Loop(0, SendReturned(true)));
    r := Apply(sending, Loop(0, SendReturned(true)));
  }

  lemma OneAheadIsNewer(num: u24)
    ensures Newer(num, WrappingAdd(num, 1)) && !Newer(WrappingAdd(num, 1), num)
  {
  }

  /** The observer waits, and a first call has started. */
  lemma OneCallStarted(path: string, key: RegistrationKey, first: u24) returns (s: System)
    ensures Waiting(s) && s.observations[0].loop.sent == []
    ensures s.lifetimes[0].numbers == [WrappingAdd(first, 1)] && s.lifetimes[0].pending == {1}
    ensures s.registry.watches == [Watch.WatchState(InitialSequence(first), 0, 1)]
  {
    var s0 := NoCallYet(path, key, first);
    s := StartCall(s0);
  }

  lemma NoCallYet(path: string, key: RegistrationKey, first: u24) returns (s: System)
    ensures Waiting(s) && s.observations[0].loop.sent == []
    ensures s.lifetimes[0].numbers == [] && s.lifetimes[0].pending == {} && CurrentNum(s.lifetimes[0]) == first
    ensures s.registry.watches == [Watch.WatchState(InitialSequence(first), 0, 1)]
  {
    s := OneObserver(path, key, first);
  }

  /** Two calls have started, and neither has published. */
  lemma TwoCallsStarted(path: string, key: RegistrationKey, first: u24) returns (s: System)
    ensures Waiting(s) && s.observations[0].loop.sent == []
    ensures s.lifetimes[0].numbers == [WrappingAdd(first, 1), WrappingAdd(WrappingAdd(first, 1), 1)]
    ensures s.lifetimes[0].pending == {1, 2}
    ensures s.registry.watches == [Watch.WatchState(InitialSequence(first), 0, 1)]
  {
    var s1 := OneCallStarted(path, key, first);
    s := StartCall(s1);
  }

  /** Two calls have started, and only the second one has published and been notified. */
  lemma SecondCallFirst(path: string, key: RegistrationKey, first: u24, response: Packets.Packet)
    returns (s: System, older: u24)
    requires response.observe.None?
    ensures Waiting(s) && 1 in s.lifetimes[0].pending && |s.lifetimes[0].numbers| == 2
    ensures s.lifetimes[0].numbers[0] == older
    ensures s.observations[0].loop.sent ==
            [Notification(WrappingAdd(older, 1), None, Numbered(response, WrappingAdd(older, 1)))]
  {
    older := WrappingAdd(first, 1);
    var s2 := TwoCallsStarted(path, key, first);
    var s3 := FinishCall(s2, 2);
    s := Notified(s3, response);
  }

  /** Two overlapping calls of `notify_change` can publish in the wrong order, and then an observer
      receives an older number after a newer one. */
  lemma OverlapRunsBackwards(path: string, key: RegistrationKey, first: u24, response: Packets.Packet)
    returns (s: System)
    requires response.observe.None?
    ensures Coherent(s) && Reachable(s)
    ensures |s.observations| == 1 && |s.observations[0].loop.sent| == 2
    ensures var sent := s.observations[0].loop.sent;
            && sent[0].own.None? && sent[1].own.None?
            && Newer(sent[1].num, sent[0].num) && !Newer(sent[0].num, sent[1].num)
  {
    var s4, older := SecondCallFirst(path, key, first, response);
    OneAheadIsNewer(older);
    var s5 := FinishCall(s4, 1);
    s := Notified(s5, response);
  }

  /** The registration is given its number. */
  lemma BorrowAlone(s: System) returns (r: System)
    requires Coherent(s) && Reachable(s) && s.held == Some(Subscribed(0)) && Enabled(s, BorrowNumber(0))
    requires |s.observations| == |s.lifetimes| == 1 && s.observations[0].lifetime == 0
    requires s.registry.byPath[s.observations[0].path].registrations == map[]
    ensures Coherent(r) && Reachable(r) && r.held.None? && r.lifetimes == s.lifetimes && r.clock == s.clock + 1
    ensures r.observations == [Registering(s, 0)]
    ensures r.registry.watches == s.registry.watches && r.registry.signals == s.registry.signals
  {
    StepReachable(s, BorrowNumber(0));
    r := Apply(s, BorrowNumber(0));
  }

  /** A publish between the subscription and the borrow: the registration is given the number of a
      change that its response does not show, and the notification that makes up for it has that
      number again, so that it does not count as newer. */
  lemma RepairedUnderOneNumber(path: string, key: RegistrationKey, first: u24, response: Packets.Packet)
    returns (s: System)
    requires response.observe.None?
    ensures Coherent(s) && Reachable(s)
    ensures |s.observations| == |s.lifetimes| == 1 && s.observations[0].lifetime == 0 && s.registry.signals[0] == 0
    ensures s.observations[0].generatedAt < s.lifetimes[0].reportedAt < s.observations[0].lastRerun
    ensures s.observations[0].registeredNum.Some? && |s.observations[0].loop.sent| == 1
    ensures var again := s.observations[0].loop.sent[0];
            && again.packet.observe == s.observations[0].registeredNum
            && !Newer(s.observations[0].registeredNum.value, again.num)
  {
    var s1 := PublishedWhileRegistering(path, key, first);
    var s2 := BorrowAlone(s1);
    s := Notified(s2, response);
  }

  lemma SubscribedOnly(path: string, key: RegistrationKey, first: u24) returns (s: System)
    ensures Coherent(s) && Reachable(s) && s.held == Some(Subscribed(0)) && s.clock == 3
    ensures s.lifetimes == [Lifetime(path, first, [], {}, 0, 0, 0, Active)]
    ensures s.registry == Registry(map[path := Entry(0, map[])], [Watch.WatchState(InitialSequence(first), 0, 1)], [0])
    ensures s.observations == [Observation(path, key, 0, 0, 2, None, 0, LoopState(Selecting, []), [], [], 0)]
  {
    InitialReachable();
    var s0, a0 := Initial(), SpawnFor(path, key, first);
    StepReachable(s0, a0);
    var s1 := Apply(s0, a0);
    StepReachable(s1, SubscribeTo(path, key, 0));
    s := Apply(s1, SubscribeTo(path, key, 0));
  }

  lemma PublishedWhileRegistering(path: string, key: RegistrationKey, first: u24) returns (s: System)
    ensures Coherent(s) && Reachable(s) && s.held == Some(Subscribed(0))
    ensures |s.observations| == |s.lifetimes| == 1 && s.registry.byPath == map[path := Entry(0, map[])]
    ensures s.lifetimes[0].stage == Active && s.lifetimes[0].reportedAt > 0
    ensures s.registry.watches == [Watch.WatchState(ResourceChanged(WrappingAdd(first, 1)), 1, 1)]
    ensures s.registry.signals == [0]
    ensures s.observations[0] ==
            Observation(path, key, 0, 0, s.observations[0].subscribedAt, None, 0, LoopState(Selecting, []), [], [], 0)
    ensures s.lifetimes[0].reportedAt < s.clock
  {
    var s2 := SubscribedOnly(path, key, first);
    StepReachable(s2, Increment(0));
    var s3 := Apply(s2, Increment(0));
    StepReachable(s3, PublishCall(0, 1));
    s := Apply(s3, PublishCall(0, 1));
  }
}
