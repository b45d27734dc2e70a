/** The registration table as the object that updates itself in place (observe_handler.rs,
    `ObserveHandler`). */
module ObserveHandler {
  import opened Observers
  import Packets
  import Paths
  import opened Registry
  import opened U24
  import opened Watch
  import opened Wrappers

  datatype ObserveOption = RegisterFlag | DeregisterFlag

  datatype CoapError = BadRequest | InternalError | NotFound | MethodNotAllowed | Other(code: nat)

  /** What a request and the response prepared for it tell the handler.  Options that do not parse
      are `Err`. */
  datatype CoapRequest = CoapRequest(
    observeFlag: Option<Result<ObserveOption, ()>>,
    path: string,
    token: Packets.Token,
    source: Option<Packets.Endpoint>,
    response: Option<Option<Result<u32, ()>>>
  )

  datatype RegistrationHandle = RegistrationHandle(
    termination: OneShotSender,
    notifications: WatchSender<NotificationState>,
    seen: nat
  )

  datatype RegistrationEvent = NoChange | Unregistered | RegisteredWith(handle: RegistrationHandle)

  datatype RegistrationsForPath = RegistrationsForPath(
    notifyChangeTx: WatchSender<NotificationState>,
    registrations: map<RegistrationKey, OneShotSender>
  )

  /** `str::replace(pattern, "")`. */
  function RemoveAll(s: string, pattern: string): string {
    if s == [] || pattern == [] then s
    else if pattern <= s then RemoveAll(s[|pattern|..], pattern)
    else [s[0]] + RemoveAll(s[1..], pattern)
  }

  lemma {:induction false} NothingToReplace(s: string, pattern: string)
    requires forall n :: 0 <= n < |s| ==> !(pattern <= s[n..])
    ensures RemoveAll(s, pattern) == s
  {
    if s != [] && pattern != [] {
      assert s[0..] == s;
      forall n | 0 <= n < |s[1..]|
        ensures !(pattern <= s[1..][n..])
      {
        assert s[1..][n..] == s[n + 1..];
      }
      NothingToReplace(s[1..], pattern);
    }
  }

  /** From left to right: what comes before the leftmost occurrence stays, that occurrence goes, and
      the search goes on behind it. */
  lemma {:induction false} LeftmostGoes(s: string, pattern: string, n: nat)
    requires pattern != [] && n <= |s| && pattern <= s[n..]
    requires forall m :: 0 <= m < n ==> !(pattern <= s[m..])
    ensures RemoveAll(s, pattern) == s[..n] + RemoveAll(s[n + |pattern|..], pattern)
  {
    assert s[0..] == s;
    if n > 0 {
      forall m | 0 <= m <= n - 1
        ensures s[1..][m..] == s[m + 1..]
      {
      }
      LeftmostGoes(s[1..], pattern, n - 1);
      OneFurther(s, n, |pattern|);
      OneFirst(s[0], s[1..][..n - 1], RemoveAll(s[n + |pattern|..], pattern));
    }
  }

  lemma OneFurther(s: string, n: nat, length: nat)
    requires 0 < n && n + length <= |s|
    ensures s[1..][n - 1 + length..] == s[n + length..] && s[..n] == [s[0]] + s[1..][..n - 1]
  {
  }

  lemma OneFirst(c: char, a: string, b: string)
    ensures [c] + (a + b) == [c] + a + b
  {
  }

  /** The key under which the changes of an observed path are reported. */
  function RelativeKey(path: string, prefix: string): Paths.Key {
    Paths.KeyFromPath(RemoveAll(path, prefix))
  }

  /** The stored senders of one path, in terms of the positions of all senders ever created. */
  ghost predicate EntryMatches(entry: Entry, stored: RegistrationsForPath,
                               watches: seq<WatchSender<NotificationState>>, signals: seq<OneShotSender>,
                               owners: seq<RegistrationKey>)
  {
    && entry.lifetime < |watches| && watches[entry.lifetime] == stored.notifyChangeTx
    && entry.registrations.Keys == stored.registrations.Keys
    && (forall key :: key in entry.registrations ==>
          && entry.registrations[key] < |signals| == |owners|
          && signals[entry.registrations[key]] == stored.registrations[key]
          && owners[entry.registrations[key]] == key)
  }

  predicate Distinct<T(==)>(s: seq<T>) {
    forall i, j :: 0 <= i < j < |s| ==> s[i] != s[j]
  }

  ghost function States(watches: seq<WatchSender<NotificationState>>): (r: seq<NotificationChannel>)
    reads watches
    ensures |r| == |watches|
    ensures forall i :: 0 <= i < |r| ==> r[i] == watches[i].State()
  {
    seq(|watches|, i requires 0 <= i < |watches| reads watches => watches[i].State())
  }

  ghost function Fires(signals: seq<OneShotSender>): (r: seq<nat>)
    reads signals
    ensures |r| == |signals|
    ensures forall i :: 0 <= i < |r| ==> r[i] == signals[i].fires
  {
    seq(|signals|, i requires 0 <= i < |signals| reads signals => signals[i].fires)
  }

  lemma EntryGrows(entry: Entry, stored: RegistrationsForPath,
                   watches: seq<WatchSender<NotificationState>>, signals: seq<OneShotSender>,
                   owners: seq<RegistrationKey>, termination: OneShotSender, key: RegistrationKey)
    requires EntryMatches(entry, stored, watches, signals, owners) && |signals| == |owners|
    ensures EntryMatches(entry, stored, watches, signals + [termination], owners + [key])
  {
  }

  lemma EntryStored(entry: Entry, stored: RegistrationsForPath,
                    watches: seq<WatchSender<NotificationState>>, signals: seq<OneShotSender>,
                    owners: seq<RegistrationKey>, termination: OneShotSender, key: RegistrationKey)
    requires EntryMatches(entry, stored, watches, signals, owners) && |signals| == |owners|
    ensures EntryMatches(Entry(entry.lifetime, entry.registrations[key := |signals|]),
                         stored.(registrations := stored.registrations[key := termination]),
                         watches, signals + [termination], owners + [key])
  {
  }

  lemma OfAnotherType(o: object, watches: seq<WatchSender<NotificationState>>, signals: seq<OneShotSender>)
    requires o is Observers
    ensures forall i :: 0 <= i < |watches| ==> watches[i] as object != o
    ensures forall i :: 0 <= i < |signals| ==> signals[i] as object != o
  {
  }

  lemma FireThenGrow(fires: seq<nat>, position: nat)
    requires position < |fires|
    ensures Fire(fires + [0], position) == Fire(fires, position) + [0]
  {
  }

  class ObserveHandler {
    const pathPrefix: string
    var registrationsByPath: map<string, RegistrationsForPath>

    /** Every channel and termination sender ever created, and the table in terms of their
        positions. */
    ghost var watches: seq<WatchSender<NotificationState>>
    ghost var signals: seq<OneShotSender>
    ghost var byPath: map<string, Entry>

    /** The key each termination sender was created for. */
    ghost var owners: seq<RegistrationKey>

    ghost predicate Valid()
      reads this
    {
      && byPath.Keys == registrationsByPath.Keys
      && (forall path :: path in byPath ==>
            EntryMatches(byPath[path], registrationsByPath[path], watches, signals, owners))
      && Distinct(watches)
      && Distinct(signals)
      && |owners| == |signals|
    }

    ghost function View(): (r: Registry)
      reads this, watches, signals
      requires Valid()
      ensures WellFormed(r)
    {
      assert forall path :: path in byPath ==>
               EntryMatches(byPath[path], registrationsByPath[path], watches, signals, owners);
      Registry(byPath, States(watches), Fires(signals))
    }

    ghost function Footprint(): (r: set<object>)
      reads this
      ensures this in r
      ensures forall i :: 0 <= i < |watches| ==> watches[i] in r
      ensures forall i :: 0 <= i < |signals| ==> signals[i] in r
    {
      {this} + (set i | 0 <= i < |watches| :: watches[i] as object)
      + (set i | 0 <= i < |signals| :: signals[i] as object)
    }

    constructor (pathPrefix: string)
      ensures Valid() && View() == EmptyRegistry() && watches == [] && signals == []
      ensures this.pathPrefix == pathPrefix
    {
      this.pathPrefix := pathPrefix;
      registrationsByPath, byPath := map[], map[];
      watches, signals, owners := [], [], [];
    }

    static method MaybeShutdownSingleObserver(existing: Option<OneShotSender>) returns (found: bool)
      modifies if existing.Some? then {existing.value} else {}
      ensures found <==> existing.Some?
      ensures existing.Some? ==> existing.value.fires == old(existing.value.fires) + 1
    {
      if existing.Some? {
        existing.value.Fire();
      }
      found := existing.Some?;
    }

    method StoreEntry(path: string, notifyChangeTx: WatchSender<NotificationState>)
      requires Valid() && notifyChangeTx !in watches
      modifies this
      ensures Valid() && watches == old(watches) + [notifyChangeTx] && signals == old(signals)
      ensures byPath == old(byPath)[path := Entry(|old(watches)|, map[])]
    {
      registrationsByPath := registrationsByPath[path := RegistrationsForPath(notifyChangeTx, map[])];
      byPath := byPath[path := Entry(|watches|, map[])];
      watches := watches + [notifyChangeTx];
    }

    /** The vacant branch of `entry(path).or_insert_with_key(..)`.  The result is what the spawned
        lifecycle task starts from. */
    method SpawnLifecycle(path: string, first: u24) returns (observers: Observers)
      requires Valid() && path !in registrationsByPath
      modifies this
      ensures Valid() && View() == old(Spawn(View(), path, first))
      ensures fresh(observers) && fresh(observers.notifyChangeTx)
      ensures observers.relativePathKey == RelativeKey(path, pathPrefix) && observers.changeNum == first
      ensures watches == old(watches) + [observers.notifyChangeTx] && signals == old(signals)
    {
      ghost var states := States(watches);
      observers := new Observers(RelativeKey(path, pathPrefix), first);
      StoreEntry(path, observers.notifyChangeTx);
      assert States(watches) == states + [observers.notifyChangeTx.State()];
    }

    /** The occupied branch and what follows it.  The replaced observer, if any, is returned. */
    method StoreRegistration(path: string, key: RegistrationKey, termination: OneShotSender)
      returns (existing: Option<OneShotSender>)
      requires Valid() && path in registrationsByPath && termination !in signals
      modifies this
      ensures Valid() && watches == old(watches) && signals == old(signals) + [termination]
      ensures byPath == old(byPath)[path := Entry(old(byPath)[path].lifetime,
                                                  old(byPath)[path].registrations[key := |old(signals)|])]
      ensures existing == if key in old(byPath)[path].registrations
                          then Some(old(signals)[old(byPath)[path].registrations[key]]) else None
    {
      var forPath := registrationsByPath[path];
      assert EntryMatches(byPath[path], forPath, watches, signals, owners);
      forall other | other in byPath
        ensures EntryMatches(byPath[other], registrationsByPath[other], watches,
                             signals + [termination], owners + [key])
      {
        EntryGrows(byPath[other], registrationsByPath[other], watches, signals, owners, termination, key);
      }
      EntryStored(byPath[path], forPath, watches, signals, owners, termination, key);
      existing := if key in forPath.registrations then Some(forPath.registrations[key]) else None;
      registrationsByPath :=
        registrationsByPath[path := forPath.(registrations := forPath.registrations[key := termination])];
      byPath := byPath[path := Entry(byPath[path].lifetime, byPath[path].registrations[key := |signals|])];
      signals, owners := signals + [termination], owners + [key];
    }

    method SubscribeTo(path: string) returns (tx: WatchSender<NotificationState>, seen: nat, num: u24)
      requires Valid() && path in registrationsByPath
      modifies watches
      ensures Valid() && tx == watches[byPath[path].lifetime]
      ensures seen == old(tx.version) && num == old(tx.value.num)
      ensures States(watches) == var before := old(States(watches));
                                 before[byPath[path].lifetime := AddReceiver(before[byPath[path].lifetime])]
      ensures Fires(signals) == old(Fires(signals))
    {
      assert EntryMatches(byPath[path], registrationsByPath[path], watches, signals, owners);
      tx := registrationsByPath[path].notifyChangeTx;
      num := tx.value.num;
      seen := tx.Subscribe();
    }

    method ShutdownAt(existing: Option<OneShotSender>, ghost position: nat) returns (found: bool)
      requires Valid()
      requires existing.Some? ==> position < |signals| && signals[position] == existing.value
      modifies signals
      ensures Valid() && found == existing.Some?
      ensures existing.Some? ==> existing.value.fires == old(existing.value.fires) + 1
      ensures Fires(signals) == if existing.Some? then Fire(old(Fires(signals)), position) else old(Fires(signals))
      ensures States(watches) == old(States(watches))
    {
      found := MaybeShutdownSingleObserver(existing);
    }

    /** Stores a new termination sender and uses the one it replaces. */
    method ReplaceRegistration(path: string, key: RegistrationKey) returns (termination: OneShotSender)
      requires Valid() && path in registrationsByPath
      modifies this, signals
      ensures Valid() && watches == old(watches) && signals == old(signals) + [termination] && fresh(termination)
      ensures States(watches) == old(States(watches))
      ensures byPath == old(byPath)[path := Entry(old(byPath)[path].lifetime,
                                                  old(byPath)[path].registrations[key := |old(signals)|])]
      ensures Fires(signals) == (if key in old(byPath)[path].registrations
                                 then Fire(old(Fires(signals)), old(byPath)[path].registrations[key])
                                 else old(Fires(signals))) + [0]
    {
      ghost var fires, entry := Fires(signals), byPath[path];
      assert EntryMatches(entry, registrationsByPath[path], watches, signals, owners);
      termination := new OneShotSender();
      var existing := StoreRegistration(path, key, termination);
      assert Fires(signals) == fires + [0];
      ghost var position := if existing.Some? then entry.registrations[key] else 0;
      var _ := ShutdownAt(existing, position);
      if existing.Some? {
        FireThenGrow(fires, position);
      }
    }

    method SubscribeObserver(path: string, key: RegistrationKey) returns (handle: RegistrationHandle, num: u24)
      requires Valid() && path in registrationsByPath
      modifies this, watches, signals
      ensures Valid() && View() == old(Subscribe(View(), path, key))
      ensures watches == old(watches) && signals == old(signals) + [handle.termination] && fresh(handle.termination)
      ensures path in byPath && handle.notifications == watches[byPath[path].lifetime]
      ensures handle.seen == handle.notifications.version && num == handle.notifications.value.num
    {
      var tx, seen;
      tx, seen, num := SubscribeTo(path);
      var termination := ReplaceRegistration(path, key);
      handle := RegistrationHandle(termination, tx, seen);
    }

    /** `registrations.remove(..)` under an existing path. */
    method RemoveRegistration(path: string, key: RegistrationKey) returns (existing: Option<OneShotSender>)
      requires Valid() && path in registrationsByPath
      modifies this
      ensures Valid() && watches == old(watches) && signals == old(signals)
      ensures path in registrationsByPath && key !in registrationsByPath[path].registrations
      ensures existing == if key in old(registrationsByPath)[path].registrations
                          then Some(old(registrationsByPath)[path].registrations[key]) else None
      ensures byPath == if key in old(byPath)[path].registrations
                        then old(byPath)[path := Entry(old(byPath)[path].lifetime,
                                                       old(byPath)[path].registrations - {key})]
                        else old(byPath)
      ensures existing == if key in old(byPath)[path].registrations
                          then Some(signals[old(byPath)[path].registrations[key]]) else None
    {
      var forPath := registrationsByPath[path];
      assert EntryMatches(byPath[path], forPath, watches, signals, owners);
      existing := None;
      if key in forPath.registrations {
        existing := Some(forPath.registrations[key]);
        registrationsByPath := registrationsByPath[path := forPath.(registrations := forPath.registrations - {key})];
        byPath := byPath[path := Entry(byPath[path].lifetime, byPath[path].registrations - {key})];
      }
    }

    method DeregisterObserver(path: string, key: RegistrationKey) returns (found: bool)
      requires Valid()
      modifies this, signals
      ensures Valid() && View() == old(Deregister(View(), path, key))
      ensures Deregisters(old(View()), View(), path, key)
      ensures watches == old(watches) && signals == old(signals)
      ensures found == (path in old(registrationsByPath) && key in old(registrationsByPath)[path].registrations)
      ensures path in registrationsByPath ==> key !in registrationsByPath[path].registrations
    {
      ghost var before := View();
      DeregisterEffect(before, path, key);
      if path !in registrationsByPath {
        return false;
      }
      assert key in registrationsByPath[path].registrations <==> key in byPath[path].registrations;
      assert EntryMatches(byPath[path], registrationsByPath[path], watches, signals, owners);
      ghost var position := if key in byPath[path].registrations then byPath[path].registrations[key] else 0;
      var existing := RemoveRegistration(path, key);
      assert key !in registrationsByPath[path].registrations;
      assert States(watches) == before.watches && Fires(signals) == before.signals;
      found := ShutdownAt(existing, position);
    }

    method RegisterObserver(path: string, key: RegistrationKey, first: u24)
      returns (handle: RegistrationHandle, num: u24, spawned: Option<Observers>)
      requires Valid()
      modifies this, watches, signals
      ensures Valid() && View() == old(Register(View(), path, key, first))
      ensures Registers(old(View()), View(), path, key, first)
      ensures signals == old(signals) + [handle.termination] && path in byPath
      ensures path in registrationsByPath && key in registrationsByPath[path].registrations
      ensures registrationsByPath[path].registrations[key] == handle.termination
      ensures handle.notifications == watches[byPath[path].lifetime]
      ensures handle.seen == handle.notifications.version && num == handle.notifications.value.num
      ensures spawned.Some? <==> path !in old(byPath)
      ensures spawned.Some? ==>
                && fresh(spawned.value)
                && spawned.value.relativePathKey == RelativeKey(path, pathPrefix)
                && spawned.value.changeNum == first
                && spawned.value.notifyChangeTx == watches[byPath[path].lifetime]
    {
      RegisterEffect(View(), path, key, first);
      ghost var base := if path in byPath then View() else Spawn(View(), path, first);
      spawned := None;
      if path !in registrationsByPath {
        var observers := SpawnLifecycle(path, first);
        spawned := Some(observers);
      }
      assert View() == base;
      if spawned.Some? {
        OfAnotherType(spawned.value, watches, signals);
      }
      handle, num := SubscribeObserver(path, key);
      assert EntryMatches(byPath[path], registrationsByPath[path], watches, signals, owners);
    }

    /** One GET or FETCH request with, possibly, an Observe option.  `first` stands for the random
        bytes of a new path's counter.  A path seen for the first time comes back as `spawned`. */
    method MaybeProcessRegistration(request: CoapRequest, first: u24)
      returns (result: Result<RegistrationEvent, CoapError>, sequence: Option<u32>, spawned: Option<Observers>)
      requires Valid()
      modifies this, watches, signals
      ensures Valid()
      ensures request.observeFlag.None? ==> result == Ok(NoChange) && View() == old(View())
      ensures request.observeFlag.Some? && request.observeFlag.value.Err? ==>
                result == Err(BadRequest) && View() == old(View())
      ensures request.observeFlag.Some? && request.observeFlag.value.Ok?
              && (request.source.None? || request.response.None?
                  || (request.response.value.Some? && request.response.value.value.Err?)) ==>
                result == Err(InternalError) && View() == old(View())
      ensures request.observeFlag == Some(Ok(RegisterFlag)) && request.source.Some?
              && request.response.Some? && (request.response.value.Some? ==> request.response.value.value.Ok?) ==>
                var key := RegistrationKey(request.source.value, request.token);
                && View() == old(Register(View(), request.path, key, first))
                && Registers(old(View()), View(), request.path, key, first)
                && result.Ok? && result.value.RegisteredWith?
                && signals == old(signals) + [result.value.handle.termination]
                && request.path in byPath
                && result.value.handle.notifications == watches[byPath[request.path].lifetime]
                && result.value.handle.seen == result.value.handle.notifications.version
                && sequence == Some(if request.response.value.Some? then request.response.value.value.value
                                    else result.value.handle.notifications.value.num)
                && (spawned.Some? <==> request.path !in old(byPath))
      ensures spawned.Some? ==>
                && result.Ok? && result.value.RegisteredWith?
                && fresh(spawned.value)
                && spawned.value.relativePathKey == RelativeKey(request.path, pathPrefix)
                && spawned.value.changeNum == first
                && request.path in byPath && spawned.value.notifyChangeTx == watches[byPath[request.path].lifetime]
      ensures request.observeFlag == Some(Ok(DeregisterFlag)) && request.source.Some?
              && request.response.Some? && (request.response.value.Some? ==> request.response.value.value.Ok?) ==>
                var key := RegistrationKey(request.source.value, request.token);
                && View() == old(Deregister(View(), request.path, key))
                && Deregisters(old(View()), View(), request.path, key)
                && result == Ok(if old(request.path in registrationsByPath
                                       && key in registrationsByPath[request.path].registrations)
                                then Unregistered else NoChange)
    {
      sequence, spawned := None, None;
      if request.observeFlag.None? {
        return Ok(NoChange), None, None;
      }
      if request.observeFlag.value.Err? {
        return Err(BadRequest), None, None;
      }
      if request.response.None? {
        return Err(InternalError), None, None;
      }
      if request.response.value.Some? {
        if request.response.value.value.Err? {
          return Err(InternalError), None, None;
        }
        sequence := Some(request.response.value.value.value);
      }
      if request.source.None? {
        return Err(InternalError), None, None;
      }
      var key := RegistrationKey(request.source.value, request.token);
      match request.observeFlag.value.value {
        case RegisterFlag =>
          var handle, num;
          handle, num, spawned := RegisterObserver(request.path, key, first);
          if sequence.None? {
            sequence := Some(num);
          }
          result := Ok(RegisteredWith(handle));
        case DeregisterFlag =>
          var found := DeregisterObserver(request.path, key);
          result := Ok(if found then Unregistered else NoChange);
      }
    }

    method RemoveEntry(path: string) returns (forPath: RegistrationsForPath)
      requires Valid() && path in registrationsByPath
      modifies this
      ensures Valid() && watches == old(watches) && signals == old(signals)
      ensures byPath == old(byPath) - {path}
      ensures EntryMatches(old(byPath)[path], forPath, watches, signals, owners)
    {
      assert EntryMatches(byPath[path], registrationsByPath[path], watches, signals, owners);
      forPath := registrationsByPath[path];
      registrationsByPath := registrationsByPath - {path};
      byPath := byPath - {path};
    }

    /** The drain of `handle_on_active_lifecycle`, which runs once `on_active` has returned: forgets
        the path and signals every observer, in whatever order the table yields them. */
    method FinishLifecycle(path: string) returns (found: bool)
      requires Valid()
      modifies this, signals
      ensures Valid() && View() == old(CleanUp(View(), path))
      ensures CleansUp(old(View()), View(), path)
      ensures watches == old(watches) && signals == old(signals)
      ensures found == (path in old(byPath))
    {
      CleanUpEffect(View(), path);
      if path !in registrationsByPath {
        return false;
      }
      ghost var states, fires, entry := States(watches), Fires(signals), byPath[path];
      var forPath := RemoveEntry(path);
      assert States(watches) == states && Fires(signals) == fires;
      Drain(forPath, entry);
      found := true;
    }

    method Drain(forPath: RegistrationsForPath, ghost entry: Entry)
      requires Valid() && EntryMatches(entry, forPath, watches, signals, owners)
      modifies signals
      ensures Valid()
      ensures States(watches) == old(States(watches))
      ensures Fires(signals) == FireAll(old(Fires(signals)), entry.registrations.Values)
    {
      ghost var fires := Fires(signals);
      ghost var drained: set<nat> := {};
      var remaining := forPath.registrations.Keys;
      while remaining != {}
        invariant remaining <= forPath.registrations.Keys
        invariant drained == set key | key in entry.registrations && key !in remaining :: entry.registrations[key]
        invariant States(watches) == old(States(watches))
        invariant Fires(signals) == FireAll(fires, drained)
        decreases |remaining|
      {
        var key :| key in remaining;
        remaining := remaining - {key};
        ghost var position := entry.registrations[key];
        assert position !in drained;
        var _ := ShutdownAt(Some(forPath.registrations[key]), position);
        FireOneMore(fires, drained, position);
        drained := drained + {position};
      }
      assert drained == entry.registrations.Values;
    }
  }

  lemma FireOneMore(fires: seq<nat>, drained: set<nat>, position: nat)
    requires position < |fires| && position !in drained
    ensures Fire(FireAll(fires, drained), position) == FireAll(fires, drained + {position})
  {
  }
}
