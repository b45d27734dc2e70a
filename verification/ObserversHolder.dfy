/** The index of attached observers as the object that updates itself in place (observers.rs,
    `ObserversHolder`). */
module ObserversHolder {
  import opened Attachments
  import ObserveHandler
  import opened Observers
  import opened PathMatcher
  import opened Paths
  import U24
  import opened Wrappers
  import Registry

  /** A reference-counted `Observers`. */
  class SharedObservers {
    const value: Observers
    var strong: nat

    constructor (value: Observers, strong: nat)
      ensures this.value == value && this.strong == strong
    {
      this.value, this.strong := value, strong;
    }

    method Drop()
      modifies this
      ensures strong == if old(strong) > 0 then old(strong) - 1 else 0
    {
      if strong > 0 {
        strong := strong - 1;
      }
    }
  }

  datatype Attached = Attached(key: Key, value: SharedObservers)

  class ObserversHolder {
    const inner: PathMatcher<SharedObservers>

    /** Everything ever attached, in order, and whether its handle is still out. */
    ghost var shared: seq<SharedObservers>
    ghost var open: seq<bool>
    ghost var index: map<Key, nat>

    ghost predicate Valid()
      reads this, inner
    {
      && |open| == |shared|
      && index.Keys == inner.contents.Keys
      && (forall key :: key in index ==>
            && index[key] < |shared| && shared[index[key]] == inner.contents[key]
            && inner.contents[key].value.relativePathKey == key)
      && (forall i, j :: 0 <= i < j < |shared| ==> shared[i] != shared[j])
    }

    ghost function Keys(): (r: seq<Key>)
      reads this
      ensures |r| == |shared|
      ensures forall i :: 0 <= i < |r| ==> r[i] == shared[i].value.relativePathKey
    {
      seq(|shared|, i requires 0 <= i < |shared| reads this => shared[i].value.relativePathKey)
    }

    ghost function Strong(): (r: seq<nat>)
      reads this, shared
      ensures |r| == |shared|
      ensures forall i :: 0 <= i < |r| ==> r[i] == shared[i].strong
    {
      seq(|shared|, i requires 0 <= i < |shared| reads this, shared => shared[i].strong)
    }

    ghost function View(): (h: Holder)
      reads this, inner, shared
      requires Valid()
      ensures WellFormed(h)
    {
      Holder(index, Keys(), Strong(), open)
    }

    constructor ()
      ensures Valid() && View() == EmptyHolder() && fresh(inner)
    {
      var matcher := new PathMatcher<SharedObservers>.NewEmpty();
      inner := matcher;
      shared, open, index := [], [], map[];
    }

    /** A reference from the index goes away. */
    method Release(arc: SharedObservers, ghost position: nat)
      requires Valid() && position < |shared| && shared[position] == arc
      modifies arc
      ensures Valid() && Strong() == Dropped(old(Strong()), position)
    {
      arc.Drop();
    }

    method Store(key: Key, arc: SharedObservers) returns (replaced: Option<SharedObservers>, ghost position: nat)
      requires Valid() && arc !in shared && arc.value.relativePathKey == key
      modifies this, inner
      ensures Valid() && shared == old(shared) + [arc] && open == old(open) + [true]
      ensures index == old(index)[key := |old(shared)|] && inner.contents == old(inner.contents)[key := arc]
      ensures replaced.Some? <==> key in old(index)
      ensures replaced.Some? ==> position == old(index)[key] < |old(shared)| && replaced.value == shared[position]
    {
      position := if key in index then index[key] else 0;
      replaced := inner.Insert(key, arc);
      index := index[key := |shared|];
      shared, open := shared + [arc], open + [true];
    }

    method Attach(observers: Observers) returns (attached: Attached)
      requires Valid()
      modifies this, inner, shared
      ensures Valid() && View() == old(AttachOne(View(), observers.relativePathKey))
      ensures inner.contents == old(inner.contents)[observers.relativePathKey := attached.value]
      ensures fresh(attached.value) && shared == old(shared) + [attached.value]
      ensures attached.key == observers.relativePathKey && attached.value.value == observers
    {
      ghost var keys, strong := Keys(), Strong();
      var key := observers.relativePathKey;
      var arc := new SharedObservers(observers, 2);
      attached := Attached(key, arc);
      var replaced;
      ghost var position;
      replaced, position := Store(key, arc);
      assert Strong() == strong + [2];
      if replaced.Some? {
        Release(replaced.value, position);
        DropThenGrow(strong, position);
      }
      assert Keys() == keys + [key];
    }

    /** Takes the entry of a key, if there is one, out of the index and drops it. */
    method RemoveEntry(key: Key) returns (found: bool)
      requires Valid()
      modifies this`index, inner, shared
      ensures inner.contents == old(inner.contents) - {key}
      ensures Valid() && found == (key in old(index))
      ensures index == old(index) - {key} && Keys() == old(Keys())
      ensures Strong() == if found then Dropped(old(Strong()), old(index)[key]) else old(Strong())
    {
      ghost var strong, keys := Strong(), Keys();
      var removed := inner.Remove(key);
      found := removed.Some?;
      ghost var position := if found then index[key] else 0;
      index := index - {key};
      assert Strong() == strong && Keys() == keys;
      if found {
        Release(removed.value, position);
      }
    }

    /** `Arc::try_unwrap`: succeeds for the sole owner. */
    method DropHandle(arc: SharedObservers, ghost position: nat) returns (sole: bool)
      requires Valid() && position < |shared| && shared[position] == arc
      modifies this`open, arc
      ensures Valid() && sole == (old(Strong())[position] == 1)
      ensures open == old(open)[position := false] && Keys() == old(Keys())
      ensures Strong() == Dropped(old(Strong()), position)
    {
      ghost var strong, keys := Strong(), Keys();
      sole := arc.strong == 1;
      open := open[position := false];
      assert Strong() == strong && Keys() == keys;
      Release(arc, position);
    }

    /** Consumes a handle.  `position` says which attachment it is. */
    method Detach(attached: Attached, ghost position: nat)
      returns (outcome: DetachOutcome, observers: Option<Observers>)
      requires Valid() && position < |shared| && open[position]
      requires shared[position] == attached.value && attached.value.value.relativePathKey == attached.key
      modifies this, inner, shared
      ensures Valid() && View() == old(DetachOne(View(), position))
      ensures inner.contents == old(inner.contents) - {attached.key} && shared == old(shared)
      ensures open == old(open)[position := false] && Keys() == old(Keys())
      ensures outcome.NothingToRemove? <==> attached.key !in old(inner.contents)
      ensures outcome == old(DetachOutcomeOf(View(), position))
      ensures observers == if outcome.Detached? then Some(attached.value.value) else None
    {
      var found := RemoveEntry(attached.key);
      var sole := DropHandle(attached.value, position);
      outcome := if !found then NothingToRemove else if sole then Detached else StillShared;
      observers := if found && sole then Some(attached.value.value) else None;
    }

    /** Every attached `Observers` has its own channel. */
    ghost predicate OwnChannels()
      reads this, inner
    {
      forall k, l :: k in inner.contents && l in inner.contents && k != l ==>
        inner.contents[k].value.notifyChangeTx != inner.contents[l].value.notifyChangeTx
    }

    ghost function Reached(): (r: set<object>)
      reads this, inner
      ensures forall key :: key in inner.contents ==>
                inner.contents[key].value in r && inner.contents[key].value.notifyChangeTx in r
    {
      (set key | key in inner.contents :: inner.contents[key].value as object)
      + (set key | key in inner.contents :: inner.contents[key].value.notifyChangeTx as object)
    }

    /** What the attached `Observers` of this key has reported so far. */
    ghost function ReportOf(key: Key): Report
      requires key in inner.contents
      reads this, inner, inner.contents[key].value, inner.contents[key].value.notifyChangeTx
    {
      Report(inner.contents[key].value.changeNum, inner.contents[key].value.notifyChangeTx.State())
    }

    method NotifyOne(observers: Observers, ghost key: Key)
      requires Valid() && OwnChannels() && key in inner.contents && inner.contents[key].value == observers
      modifies observers, observers.notifyChangeTx
      ensures unchanged(this) && unchanged(inner) && unchanged(shared)
      ensures forall k :: k in inner.contents ==>
                if k == key then Notified(old(ReportOf(k)), ReportOf(k)) else ReportOf(k) == old(ReportOf(k))
    {
      observers.NotifyChange();
    }

    method NotifyEach(targets: seq<SharedObservers>, ghost keys: seq<Key>)
      requires Valid() && OwnChannels() && |keys| == |targets|
      requires forall j :: 0 <= j < |keys| ==> keys[j] in inner.contents && inner.contents[keys[j]] == targets[j]
      requires forall i, j :: 0 <= i < j < |keys| ==> keys[i] != keys[j]
      modifies Reached()
      ensures Valid() && View() == old(View()) && inner.contents == old(inner.contents)
      ensures forall k :: k in inner.contents ==>
                if k in keys then Notified(old(ReportOf(k)), ReportOf(k)) else ReportOf(k) == old(ReportOf(k))
    {
      for j := 0 to |targets|
        invariant unchanged(this) && unchanged(inner) && unchanged(shared)
        invariant forall k :: k in inner.contents ==>
                    if k in keys[..j] then Notified(old(ReportOf(k)), ReportOf(k))
                    else ReportOf(k) == old(ReportOf(k))
      {
        OneMoreKey(keys, j);
        NotifyOne(targets[j].value, keys[j]);
      }
      assert keys[..|keys|] == keys;
    }

    /** Reaches exactly the attached observers whose key is a prefix of the path's. */
    method NotifyChangeForPath(relativePath: string)
      requires Valid() && OwnChannels()
      modifies Reached()
      ensures Valid() && View() == old(View()) && inner.contents == old(inner.contents)
      ensures forall k :: k in inner.contents ==>
                if k <= KeyFromPath(relativePath) then Notified(old(ReportOf(k)), ReportOf(k))
                else ReportOf(k) == old(ReportOf(k))
    {
      var query := KeyFromPath(relativePath);
      var results := inner.MatchAll(query);
      MatchAllExact(inner.contents, query);
      var targets := seq(|results|, j requires 0 <= j < |results| => results[j].value);
      NotifyEach(targets, MatchedKeys(inner.contents, query));
    }

    /** Reaches every attached observer, in whatever order the index yields them. */
    method NotifyChange()
      requires Valid() && OwnChannels()
      modifies Reached()
      ensures Valid() && View() == old(View()) && inner.contents == old(inner.contents)
      ensures forall k :: k in inner.contents ==> Notified(old(ReportOf(k)), ReportOf(k))
    {
      var contents := inner.contents;
      var keys := InSomeOrder(contents.Keys);
      var targets := seq(|keys|, j requires 0 <= j < |keys| && keys[j] in contents => contents[keys[j]]);
      NotifyEach(targets, keys);
    }
  }

  lemma OneMoreKey(keys: seq<Key>, j: nat)
    requires j < |keys| && forall i, k :: 0 <= i < k < |keys| ==> keys[i] != keys[k]
    ensures keys[j] !in keys[..j]
    ensures forall key :: key in keys[..j + 1] <==> key in keys[..j] || key == keys[j]
  {
    assert keys[..j + 1] == keys[..j] + [keys[j]];
  }

  /** A hash map yields its keys in an order of its own. */
  method InSomeOrder(keys: set<Key>) returns (order: seq<Key>)
    ensures forall key :: key in order <==> key in keys
    ensures forall i, j :: 0 <= i < j < |order| ==> order[i] != order[j]
  {
    order := [];
    var remaining := keys;
    while remaining != {}
      invariant forall key :: key in keys <==> key in order || key in remaining
      invariant forall key :: key in order ==> key !in remaining
      invariant forall i, j :: 0 <= i < j < |order| ==> order[i] != order[j]
      decreases |remaining|
    {
      var key :| key in remaining;
      remaining := remaining - {key};
      order := order + [key];
    }
  }

  datatype Report = Report(changeNum: U24.u24, channel: Registry.NotificationChannel)

  /** One `notify_change`: the number advances, and is published if the channel has a receiver. */
  predicate Notified(before: Report, after: Report) {
    && after.changeNum == U24.WrappingAdd(before.changeNum, 1)
    && after.channel.receivers == before.channel.receivers
    && (before.channel.receivers > 0 ==>
          && after.channel.value == Registry.ResourceChanged(after.changeNum)
          && after.channel.version == before.channel.version + 1)
    && (before.channel.receivers == 0 ==> after.channel == before.channel)
  }

  /** `notify_change_for_path`, called with the relative path of an `Observers` as a lifecycle gets
      it, asks for that very key, and so reaches the attached observers whose key is a prefix of it,
      itself included. */
  lemma OwnPathReachesPrefixes(observers: Observers, path: string, prefix: string, index: map<Key, nat>)
    requires observers.relativePathKey == ObserveHandler.RelativeKey(path, prefix)
    ensures KeyFromPath(observers.RelativePath()) == observers.relativePathKey
    ensures forall k :: k in MatchedKeys(index, KeyFromPath(observers.RelativePath())) <==>
              k in index && k <= observers.relativePathKey
  {
    KeysAreNormal(ObserveHandler.RemoveAll(path, prefix));
    KeyRoundTrip(observers.relativePathKey);
    MatchAllExact(index, observers.relativePathKey);
  }

  /** Its comment promises that observers further down the path are reached as well.  They are not.
      What its example is about: of a path, the one above, one below and one beside it, all of them
      attached, exactly the path itself and the one above are reached. */
  lemma OnlyAboveIsReached(index: map<Key, nat>, above: string, segment: string, below: string, beside: string)
    requires IsSegment(above) && IsSegment(segment) && IsSegment(below) && IsSegment(beside) && segment != beside
    requires var path := above + "/" + segment;
             && KeyFromPath(above) in index && KeyFromPath(path) in index
             && KeyFromPath(path + "/" + below) in index && KeyFromPath(above + "/" + beside) in index
    ensures var path := above + "/" + segment;
            var reached := MatchedKeys(index, KeyFromPath(path));
            && KeyFromPath(above) in reached
            && KeyFromPath(path) in reached
            && KeyFromPath(path + "/" + below) !in reached
            && KeyFromPath(above + "/" + beside) !in reached
  {
    var path := above + "/" + segment;
    KeyOfSegment(above);
    KeyBelow(above, segment);
    KeyBelow(path, below);
    KeyBelow(above, beside);
    MatchAllExact(index, KeyFromPath(path));
  }

  const ABC: string := "resources" + "/" + "abc"
  const XYZ: string := "/" + ("resources" + "/" + "xyz")

  /** The example itself. */
  lemma DocumentedExampleFails(index: map<Key, nat>)
    requires KeyFromPath("resources") in index && KeyFromPath(ABC) in index
    requires KeyFromPath(ABC + "/" + "some_property") in index && KeyFromPath(XYZ) in index
    ensures var reached := MatchedKeys(index, KeyFromPath(ABC));
            && KeyFromPath("resources") in reached
            && KeyFromPath(ABC) in reached
            && KeyFromPath(ABC + "/" + "some_property") !in reached
            && KeyFromPath(XYZ) !in reached
  {
    LeadingSlash("resources" + "/" + "xyz");
    OnlyAboveIsReached(index, "resources", "abc", "some_property", "xyz");
  }

  lemma DropThenGrow(strong: seq<nat>, i: nat)
    requires i < |strong|
    ensures Dropped(strong + [2], i) == Dropped(strong, i) + [2]
  {
  }
}
