/** The registration table of one observable resource as a value, with the operations on it:
    what a critical section of observe_handler.rs does. */
module Registry {
  import Packets
  import U24
  import Watch

  datatype RegistrationKey = RegistrationKey(peer: Packets.Endpoint, token: Packets.Token)

  datatype NotificationState = InitialSequence(num: U24.u24) | ResourceChanged(num: U24.u24)

  type NotificationChannel = Watch.WatchState<NotificationState>

  /** `lifetime` numbers the run of `on_active` that serves the path; the registrations lead to
      the number of the observation whose termination sender is stored. */
  datatype Entry = Entry(lifetime: nat, registrations: map<RegistrationKey, nat>)

  /** `watches` holds the notification channel of every lifetime ever spawned, `signals` how often
      the termination sender of every observation ever registered was used. */
  datatype Registry = Registry(
    byPath: map<string, Entry>,
    watches: seq<NotificationChannel>,
    signals: seq<nat>
  )

  predicate WellFormed(r: Registry) {
    && (forall path :: path in r.byPath ==> r.byPath[path].lifetime < |r.watches|)
    && (forall path, key :: path in r.byPath && key in r.byPath[path].registrations ==>
          r.byPath[path].registrations[key] < |r.signals|)
  }

  function EmptyRegistry(): Registry {
    Registry(map[], [], [])
  }

  /** The first registration of a path creates its channel and starts its lifecycle. */
  function Spawn(r: Registry, path: string, first: U24.u24): (s: Registry)
    requires WellFormed(r)
    ensures WellFormed(s)
  {
    Registry(r.byPath[path := Entry(|r.watches|, map[])],
             r.watches + [Watch.WatchState(InitialSequence(first), 0, 0)],
             r.signals)
  }

  function Fire(signals: seq<nat>, observation: nat): seq<nat>
    requires observation < |signals|
  {
    signals[observation := signals[observation] + 1]
  }

  function FireAll(signals: seq<nat>, observations: set<nat>): seq<nat> {
    seq(|signals|, i requires 0 <= i < |signals| => signals[i] + if i in observations then 1 else 0)
  }

  /** Subscribes, stores a new termination sender, and uses the one it replaces. */
  function Subscribe(r: Registry, path: string, key: RegistrationKey): (s: Registry)
    requires WellFormed(r) && path in r.byPath
    ensures WellFormed(s)
  {
    var Entry(lifetime, registrations) := r.byPath[path];
    var fired := if key in registrations then Fire(r.signals, registrations[key]) else r.signals;
    Registry(r.byPath[path := Entry(lifetime, registrations[key := |r.signals|])],
             r.watches[lifetime := Watch.AddReceiver(r.watches[lifetime])],
             fired + [0])
  }

  /** The two halves of it: what happens to the channel, and what happens to the table. */
  function Listen(r: Registry, path: string): (s: Registry)
    requires WellFormed(r) && path in r.byPath
    ensures WellFormed(s)
  {
    var lifetime := r.byPath[path].lifetime;
    r.(watches := r.watches[lifetime := Watch.AddReceiver(r.watches[lifetime])], signals := r.signals + [0])
  }

  function StoreSender(r: Registry, path: string, key: RegistrationKey, observation: nat): (s: Registry)
    requires WellFormed(r) && path in r.byPath && observation < |r.signals|
    ensures WellFormed(s)
  {
    var Entry(lifetime, registrations) := r.byPath[path];
    r.(byPath := r.byPath[path := Entry(lifetime, registrations[key := observation])],
       signals := if key in registrations then Fire(r.signals, registrations[key]) else r.signals)
  }

  lemma SubscribeInSteps(r: Registry, path: string, key: RegistrationKey)
    requires WellFormed(r) && path in r.byPath
    ensures Subscribe(r, path, key) == StoreSender(Listen(r, path), path, key, |r.signals|)
  {
  }

  function Register(r: Registry, path: string, key: RegistrationKey, first: U24.u24): (s: Registry)
    requires WellFormed(r)
    ensures WellFormed(s)
  {
    Subscribe(if path in r.byPath then r else Spawn(r, path, first), path, key)
  }

  predicate Registered(r: Registry, path: string, key: RegistrationKey) {
    path in r.byPath && key in r.byPath[path].registrations
  }

  function Deregister(r: Registry, path: string, key: RegistrationKey): (s: Registry)
    requires WellFormed(r)
    ensures WellFormed(s)
  {
    if Registered(r, path, key) then
      var Entry(lifetime, registrations) := r.byPath[path];
      r.(byPath := r.byPath[path := Entry(lifetime, registrations - {key})],
         signals := Fire(r.signals, registrations[key]))
    else r
  }

  /** The end of a lifecycle: the path is forgotten and all its observations are signalled. */
  function CleanUp(r: Registry, path: string): (s: Registry)
    requires WellFormed(r)
    ensures WellFormed(s)
  {
    if path in r.byPath then
      r.(byPath := r.byPath - {path},
         signals := FireAll(r.signals, r.byPath[path].registrations.Values))
    else r
  }

  // ---------------------------------------------------------------- what the operations amount to

  /** The same registrations under this key, in both entries. */
  predicate SameUnder(before: Entry, after: Entry, key: RegistrationKey) {
    && (key in after.registrations <==> key in before.registrations)
    && (key in before.registrations ==> after.registrations[key] == before.registrations[key])
  }

  /** No path but this one has changed. */
  ghost predicate OtherPathsStay(before: Registry, after: Registry, path: string) {
    forall other :: other != path ==>
      && (other in after.byPath <==> other in before.byPath)
      && (other in before.byPath ==> after.byPath[other] == before.byPath[other])
  }

  /** The sender stored under this path and key, if there is one, was used once more, and no other. */
  ghost predicate OnlySignals(before: Registry, after: Registry, path: string, key: RegistrationKey) {
    && |before.signals| <= |after.signals|
    && (forall i :: 0 <= i < |before.signals| ==>
          after.signals[i] ==
          before.signals[i] + if path in before.byPath && key in before.byPath[path].registrations
                                 && before.byPath[path].registrations[key] == i then 1 else 0)
  }

  /** A registration: the key leads to a new observation with an unused sender, on the channel of the
      path, which has one more receiver.  On a known path the lifetime, the channels and everybody
      else's registrations stay; an unknown one gets a new lifetime and channel. */
  ghost predicate Registers(before: Registry, after: Registry, path: string, key: RegistrationKey, first: U24.u24) {
    && path in after.byPath && key in after.byPath[path].registrations
    && after.byPath[path].registrations[key] == |before.signals|
    && |after.signals| == |before.signals| + 1 && after.signals[|before.signals|] == 0
    && OnlySignals(before, after, path, key)
    && OtherPathsStay(before, after, path)
    && |before.watches| <= |after.watches|
    && (path in before.byPath ==>
          && after.byPath[path].lifetime == before.byPath[path].lifetime
          && |after.watches| == |before.watches|
          && (forall other :: other != key ==> SameUnder(before.byPath[path], after.byPath[path], other)))
    && (path !in before.byPath ==>
          && after.byPath[path] == Entry(|before.watches|, map[key := |before.signals|])
          && after.watches == before.watches + [Watch.WatchState(InitialSequence(first), 0, 1)])
    && (forall l :: 0 <= l < |before.watches| ==>
          && after.watches[l].value == before.watches[l].value
          && after.watches[l].version == before.watches[l].version
          && after.watches[l].receivers ==
             before.watches[l].receivers + if path in before.byPath && before.byPath[path].lifetime == l then 1 else 0)
  }

  lemma RegisterEffect(r: Registry, path: string, key: RegistrationKey, first: U24.u24)
    requires WellFormed(r)
    ensures Registers(r, Register(r, path, key, first), path, key, first)
  {
    assert path !in r.byPath ==> map[][key := |r.signals|] == map[key := |r.signals|];
  }

  /** A deregistration: the key leads nowhere, and the sender that was stored under it is used. */
  ghost predicate Deregisters(before: Registry, after: Registry, path: string, key: RegistrationKey) {
    && !(path in after.byPath && key in after.byPath[path].registrations)
    && after.watches == before.watches
    && after.byPath.Keys == before.byPath.Keys
    && OtherPathsStay(before, after, path)
    && (path in before.byPath ==>
          && after.byPath[path].lifetime == before.byPath[path].lifetime
          && (forall other :: other != key ==> SameUnder(before.byPath[path], after.byPath[path], other)))
    && |after.signals| == |before.signals| && OnlySignals(before, after, path, key)
  }

  lemma DeregisterEffect(r: Registry, path: string, key: RegistrationKey)
    requires WellFormed(r)
    ensures Deregisters(r, Deregister(r, path, key), path, key)
  {
  }

  /** The end of a lifecycle: the path is forgotten, and every sender stored under it is used once. */
  ghost predicate CleansUp(before: Registry, after: Registry, path: string) {
    && path !in after.byPath
    && OtherPathsStay(before, after, path)
    && after.watches == before.watches
    && |after.signals| == |before.signals|
    && (forall i :: 0 <= i < |before.signals| ==>
          after.signals[i] ==
          before.signals[i] + if path in before.byPath && i in before.byPath[path].registrations.Values then 1 else 0)
  }

  lemma CleanUpEffect(r: Registry, path: string)
    requires WellFormed(r)
    ensures CleansUp(r, CleanUp(r, path), path)
  {
  }
}
