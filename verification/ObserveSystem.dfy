/** All observations of one observable resource, interleaved freely: registrations and
    deregistrations, lifecycle tasks, change notifications and notification loops, over the
    operations of Registry and the steps of NotificationLoop. */
module ObserveSystem {
  import opened NotificationLoop
  import Packets
  import opened Registry
  import opened U24
  import Watch
  import opened Wrappers

  /** Where a lifecycle task is: `on_active` has not returned, it has, or the clean-up is over. */
  datatype Stage = Active | Returned | Ended

  /** One run of `on_active`.  `numbers` lists the change number of every `notify_change` call, in
      order; calls are counted from one, and `pending` holds those between their increment and
      their publish.  `published` is the call whose number the channel holds, zero for none.
      Times are positive; zero means never.  `reportedAt` is when a call last came to its publish,
      whether the channel had a receiver to publish for or not; `idleAt` is when `stay_active` last
      resolved. */
  datatype Lifetime = Lifetime(
    path: string,
    first: u24,
    numbers: seq<u24>,
    pending: set<nat>,
    published: nat,
    reportedAt: nat,
    idleAt: nat,
    stage: Stage
  )

  /** One registration and its loop.  `generatedAt` is when the handler began to produce the first
      response, which happens before the subscription; `registeredNum` is the number borrowed for
      that response, once it is; `seen` is the version its receiver has marked, `notified` the
      version borrowed for every re-run of the handler, `shown` the call behind every number it
      went through, its registration's first, and `lastRerun` when the last re-run began. */
  datatype Observation = Observation(
    path: string,
    key: RegistrationKey,
    lifetime: nat,
    generatedAt: nat,
    subscribedAt: nat,
    registeredNum: Option<u24>,
    seen: nat,
    loop: LoopState,
    notified: seq<nat>,
    shown: seq<nat>,
    lastRerun: nat
  )

  /** A registration that holds the table's lock: it has spawned a lifecycle, or it has subscribed
      and not yet borrowed its number.  It stores its termination sender and uses the one that it
      replaces together with the borrow. */
  datatype Holder = Spawned(path: string, key: RegistrationKey) | Subscribed(observation: nat)

  datatype System = System(
    registry: Registry,
    lifetimes: seq<Lifetime>,
    observations: seq<Observation>,
    held: Option<Holder>,
    clock: nat
  )

  datatype Action =
    | SpawnFor(path: string, key: RegistrationKey, first: u24)
    | SubscribeTo(path: string, key: RegistrationKey, generatedAt: nat)
    | BorrowNumber(observation: nat)
    | DeregisterFrom(path: string, key: RegistrationKey)
    | OnActiveReturns(lifetime: nat)
    | Finish(lifetime: nat)
    | Increment(lifetime: nat)
    | PublishCall(lifetime: nat, call: nat)
    | CancelCall(lifetime: nat, call: nat)
    | StayActiveResolves(lifetime: nat)
    | Loop(observation: nat, event: LoopEvent)

  function Initial(): System {
    System(EmptyRegistry(), [], [], None, 1)
  }

  predicate Coherent(s: System) {
    && WellFormed(s.registry)
    && |s.lifetimes| == |s.registry.watches|
    && |s.observations| == |s.registry.signals|
    && (forall i :: 0 <= i < |s.observations| ==> s.observations[i].lifetime < |s.lifetimes|)
  }

  predicate Live(o: Observation) {
    !o.loop.pc.Stopped?
  }

  /** The table entry of `path` belongs to this lifetime. */
  predicate Serves(s: System, path: string, lifetime: nat) {
    path in s.registry.byPath && s.registry.byPath[path].lifetime == lifetime
  }

  /** The watch sender is held by the `Observers` inside `on_active` and by the table. */
  predicate SenderAlive(s: System, lifetime: nat)
    requires lifetime < |s.lifetimes|
  {
    s.lifetimes[lifetime].stage == Active || Serves(s, s.lifetimes[lifetime].path, lifetime)
  }

  function CurrentNum(lt: Lifetime): u24 {
    if lt.numbers == [] then lt.first else lt.numbers[|lt.numbers| - 1]
  }

  predicate LoopEnabled(s: System, i: nat, e: LoopEvent)
    requires Coherent(s) && i < |s.observations|
  {
    var o := s.observations[i];
    var w := s.registry.watches[o.lifetime];
    && o.registeredNum.Some?
    && LoopFits(o.loop.pc, e)
    && match e
       case Terminated => s.registry.signals[i] > 0
       case Changed => w.version != o.seen || !SenderAlive(s, o.lifetime)
       case Borrowed(state) => state == w.value
       case _ => true
  }

  predicate Enabled(s: System, a: Action)
    requires Coherent(s)
  {
    match a
    case SpawnFor(path, _, _) => s.held.None? && path !in s.registry.byPath
    case SubscribeTo(path, key, generatedAt) =>
      && (s.held.None? || s.held.value == Spawned(path, key))
      && path in s.registry.byPath && generatedAt < s.clock
    case BorrowNumber(i) =>
      i < |s.observations| && s.held == Some(Subscribed(i)) && s.observations[i].path in s.registry.byPath
    case DeregisterFrom(_, _) => s.held.None?
    case OnActiveReturns(l) => l < |s.lifetimes| && s.lifetimes[l].stage == Active
    case Finish(l) => l < |s.lifetimes| && s.lifetimes[l].stage == Returned && s.held.None?
    case Increment(l) => l < |s.lifetimes| && s.lifetimes[l].stage == Active
    case PublishCall(l, call) =>
      l < |s.lifetimes| && s.lifetimes[l].stage == Active && call in s.lifetimes[l].pending
      && 1 <= call <= |s.lifetimes[l].numbers|
    case CancelCall(l, call) => l < |s.lifetimes| && call in s.lifetimes[l].pending
    case StayActiveResolves(l) =>
      l < |s.lifetimes| && s.lifetimes[l].stage == Active && s.registry.watches[l].receivers == 0
    case Loop(i, e) => i < |s.observations| && LoopEnabled(s, i, e)
  }

  /** What a step of the loop does to its own observation. */
  function Advanced(s: System, i: nat, e: LoopEvent): Observation
    requires Coherent(s) && i < |s.observations| && LoopEnabled(s, i, e)
  {
    var o := s.observations[i];
    var w := s.registry.watches[o.lifetime];
    var next := o.(loop := LoopStep(o.loop, e));
    if e.Changed? then next.(seen := w.version)
    else if e.Borrowed? && e.state.ResourceChanged? then
      next.(notified := o.notified + [w.version],
            shown := o.shown + [s.lifetimes[o.lifetime].published],
            lastRerun := s.clock)
    else next
  }

  function NewObservation(s: System, path: string, key: RegistrationKey, generatedAt: nat): Observation
    requires Coherent(s) && path in s.registry.byPath
  {
    var l := s.registry.byPath[path].lifetime;
    var w := s.registry.watches[l];
    Observation(path, key, l, generatedAt, s.clock, None, w.version, LoopState(Selecting, []), [], [], 0)
  }

  /** The number of a registration is that of the channel, whatever version it has by then. */
  function Registering(s: System, i: nat): Observation
    requires Coherent(s) && i < |s.observations|
  {
    var o := s.observations[i];
    o.(registeredNum := Some(s.registry.watches[o.lifetime].value.num),
       shown := [s.lifetimes[o.lifetime].published])
  }

  function SetLifetime(s: System, l: nat, lt: Lifetime): System
    requires l < |s.lifetimes|
  {
    s.(lifetimes := s.lifetimes[l := lt], clock := s.clock + 1)
  }

  function Apply(s: System, a: Action): (r: System)
    requires Coherent(s) && Enabled(s, a)
    ensures Coherent(r)
  {
    match a
    case SpawnFor(path, key, first) =>
      System(Spawn(s.registry, path, first),
             s.lifetimes + [Lifetime(path, first, [], {}, 0, 0, 0, Active)],
             s.observations, Some(Spawned(path, key)), s.clock + 1)
    case SubscribeTo(path, key, generatedAt) =>
      System(Listen(s.registry, path), s.lifetimes,
             s.observations + [NewObservation(s, path, key, generatedAt)],
             Some(Subscribed(|s.observations|)), s.clock + 1)
    case BorrowNumber(i) =>
      var o := s.observations[i];
      System(StoreSender(s.registry, o.path, o.key, i), s.lifetimes,
             s.observations[i := Registering(s, i)], None, s.clock + 1)
    case DeregisterFrom(path, key) =>
      s.(registry := Deregister(s.registry, path, key), clock := s.clock + 1)
    case OnActiveReturns(l) => SetLifetime(s, l, s.lifetimes[l].(stage := Returned))
    case Finish(l) =>
      SetLifetime(s, l, s.lifetimes[l].(stage := Ended)).(registry := CleanUp(s.registry, s.lifetimes[l].path))
    case Increment(l) =>
      var lt := s.lifetimes[l];
      SetLifetime(s, l, lt.(numbers := lt.numbers + [WrappingAdd(CurrentNum(lt), 1)],
                            pending := lt.pending + {|lt.numbers| + 1}))
    case PublishCall(l, call) =>
      var lt, w := s.lifetimes[l], s.registry.watches[l];
      var done := lt.(pending := lt.pending - {call}, reportedAt := s.clock);
      var w' := Watch.Publish(w, ResourceChanged(lt.numbers[call - 1]));
      SetLifetime(s, l, if w.receivers > 0 then done.(published := call) else done)
        .(registry := s.registry.(watches := s.registry.watches[l := w']))
    case CancelCall(l, call) =>
      SetLifetime(s, l, s.lifetimes[l].(pending := s.lifetimes[l].pending - {call}))
    case StayActiveResolves(l) => SetLifetime(s, l, s.lifetimes[l].(idleAt := s.clock))
    case Loop(i, e) =>
      var o := Advanced(s, i, e);
      var w := s.registry.watches[o.lifetime];
      var watches := if Live(o) then s.registry.watches else s.registry.watches[o.lifetime := Watch.DropReceiver(w)];
      s.(observations := s.observations[i := o], registry := s.registry.(watches := watches), clock := s.clock + 1)
  }

  /** A run: every action is enabled when it happens. */
  predicate Legal(actions: seq<Action>)
    decreases |actions|, 0
  {
    actions != [] ==>
      var last := |actions| - 1;
      Legal(actions[..last]) && Enabled(Reach(actions[..last]), actions[last])
  }

  function Reach(actions: seq<Action>): (s: System)
    requires Legal(actions)
    ensures Coherent(s)
    decreases |actions|, 1
  {
    if actions == [] then Initial()
    else
      var last := |actions| - 1;
      Apply(Reach(actions[..last]), actions[last])
  }

  // ---------------------------------------------------------------- invariant

  ghost function LiveOn(s: System, lifetime: nat): set<nat> {
    set i | 0 <= i < |s.observations| && s.observations[i].lifetime == lifetime && Live(s.observations[i])
  }

  predicate StoredUnder(r: Registry, o: Observation, i: nat) {
    Registered(r, o.path, o.key) && r.byPath[o.path].registrations[o.key] == i
  }

  /** The entry of a path belongs to a lifetime of that path that has not ended, and each of its
      registrations to an observation of that lifetime that was never signalled. */
  ghost predicate PathOk(s: System, path: string)
    requires Coherent(s) && path in s.registry.byPath
  {
    var entry := s.registry.byPath[path];
    && s.lifetimes[entry.lifetime].path == path
    && s.lifetimes[entry.lifetime].stage != Ended
    && (forall key :: key in entry.registrations ==>
          var o := s.observations[entry.registrations[key]];
          o.path == path && o.key == key && o.lifetime == entry.lifetime)
  }

  /** The channel holds the number of the call it says it holds. */
  ghost predicate ChannelOk(lt: Lifetime, w: NotificationChannel) {
    && lt.published <= |lt.numbers|
    && (w.version == 0 ==> w.value == InitialSequence(lt.first) && lt.published == 0)
    && (w.version > 0 ==> w.value == ResourceChanged(Advance(lt.first, lt.published)) && lt.published > 0)
  }

  ghost predicate NumbersOk(lt: Lifetime) {
    && (forall j :: 0 <= j < |lt.numbers| ==> lt.numbers[j] == Advance(lt.first, j + 1))
    && (forall call :: call in lt.pending ==> 1 <= call <= |lt.numbers| && call != lt.published)
  }

  ghost predicate LifetimeOk(s: System, l: nat)
    requires Coherent(s) && l < |s.lifetimes|
  {
    var lt, w := s.lifetimes[l], s.registry.watches[l];
    && NumbersOk(lt)
    && ChannelOk(lt, w)
    && lt.reportedAt < s.clock && lt.idleAt < s.clock
    && w.receivers == |LiveOn(s, l)|
    && (lt.stage != Ended ==> Serves(s, lt.path, l))
  }

  /** Notified versions never decrease, none occurs more than twice, and one that occurred twice
      is already marked as seen. */
  ghost predicate NotifiedOk(o: Observation, version: nat) {
    var n := |o.notified|;
    && o.seen <= version
    && (o.loop.pc == Woken ==> version > 0)
    && (forall a :: 0 <= a < n ==> 1 <= o.notified[a] <= version)
    && (forall a, b :: 0 <= a < b < n ==> o.notified[a] <= o.notified[b])
    && (forall a :: 0 <= a < n - 2 ==> o.notified[a] < o.notified[a + 2])
    && (n > 0 ==> if o.loop.pc == Woken then o.notified[n - 1] <= o.seen else o.seen <= o.notified[n - 1])
    && (n > 1 && o.notified[n - 2] == o.notified[n - 1] ==>
          if o.loop.pc == Woken then o.notified[n - 1] < o.seen else o.notified[n - 1] == o.seen)
  }

  /** Whatever was reported since the subscription of a running loop and is no longer unseen has
      been answered by a re-run that began later, unless one is just about to begin; and a loop
      woken by the end of its channel is not about to begin one. */
  ghost predicate FreshOk(o: Observation, lt: Lifetime, version: nat) {
    Live(o) && (o.loop.pc != Woken || version == 0) ==>
      lt.reportedAt <= o.subscribedAt || lt.reportedAt < o.lastRerun || o.seen < version
  }

  /** The numbers the observation went through are those of the calls in `shown`. */
  ghost predicate ShownOk(o: Observation, lt: Lifetime) {
    && (o.registeredNum.None? ==> o.shown == [] && o.loop == LoopState(Selecting, []) && o.notified == [])
    && (o.registeredNum.Some? ==>
          |o.shown| == |o.notified| + 1 && o.registeredNum.value == Advance(lt.first, o.shown[0]))
    && (forall k :: 0 <= k < |o.shown| ==> o.shown[k] <= |lt.numbers|)
    && (o.loop.pc.Generating? ==> o.loop.pc.num == Advance(lt.first, o.shown[|o.shown| - 1]))
    && |o.loop.sent| == |o.notified| - (if AnswerMissing(o.loop.pc) then 1 else 0)
    && (forall k :: 0 <= k < |o.loop.sent| ==>
          o.loop.sent[k].num == Advance(lt.first, o.shown[k + 1]) && NotificationOk(o.loop.sent[k]))
  }

  /** A notification is Confirmable and carries the handler's own number or the change number. */
  predicate NotificationOk(n: Notification) {
    n.packet.kind == Packets.Confirmable && n.packet.observe == if n.own.Some? then n.own else Some(n.num)
  }

  /** The last re-run has not produced, or never will produce, a notification. */
  predicate AnswerMissing(pc: Pc) {
    pc.Generating? || (pc.Stopped? && pc.reason.HandlerFailed?)
  }

  /** The first response came before the subscription, and every re-run after it. */
  predicate TimesOk(o: Observation, clock: nat) {
    && o.generatedAt < o.subscribedAt < clock && o.lastRerun < clock
    && (o.lastRerun > 0 ==> o.subscribedAt < o.lastRerun)
    && (o.lastRerun > 0 <==> o.notified != [])
  }

  ghost predicate ObservationOk(s: System, i: nat)
    requires Coherent(s) && i < |s.observations|
  {
    var o := s.observations[i];
    var lt, w := s.lifetimes[o.lifetime], s.registry.watches[o.lifetime];
    && lt.path == o.path
    && s.registry.signals[i] <= 1
    && (s.registry.signals[i] == 0 <==> StoredUnder(s.registry, o, i) || o.registeredNum.None?)
    && (o.registeredNum.None? <==> s.held == Some(Subscribed(i)))
    && (o.registeredNum.None? ==> !StoredUnder(s.registry, o, i) && Serves(s, o.path, o.lifetime))
    && o.seen <= w.version
    && TimesOk(o, s.clock)
    && (Live(o) ==> lt.idleAt < o.subscribedAt)
    && (s.registry.signals[i] == 0 ==> NotifiedOk(o, w.version))
    && FreshOk(o, lt, w.version)
    && ShownOk(o, lt)
  }

  ghost predicate Inv(s: System)
    requires Coherent(s)
  {
    && s.clock > 0
    && (s.held.Some? ==>
          if s.held.value.Spawned? then s.held.value.path in s.registry.byPath
          else s.held.value.observation < |s.observations|)
    && (forall path :: path in s.registry.byPath ==> PathOk(s, path))
    && (forall l :: 0 <= l < |s.lifetimes| ==> LifetimeOk(s, l))
    && (forall i :: 0 <= i < |s.observations| ==> ObservationOk(s, i))
  }
}
