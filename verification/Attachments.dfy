/** The index of attached observers (observers.rs, `ObserversHolder` and `Attached`) as a value:
    the index, the reference counts, and all runs of attaching and detaching. */
module Attachments {
  import opened Paths

  /** Attachments are counted in order.  `index` leads from a key to the attachment stored under it,
      `keys` and `strong` give the key and the reference count of each, and `open` tells which
      still have their `Attached` handle. */
  datatype Holder = Holder(index: map<Key, nat>, keys: seq<Key>, strong: seq<nat>, open: seq<bool>)

  /** Returned, or one of the two panics of the `unwrap`s. */
  datatype DetachOutcome = Detached | NothingToRemove | StillShared

  predicate WellFormed(h: Holder) {
    && |h.keys| == |h.strong| == |h.open|
    && (forall key :: key in h.index ==> h.index[key] < |h.keys|)
  }

  function EmptyHolder(): Holder {
    Holder(map[], [], [], [])
  }

  function Dropped(strong: seq<nat>, i: nat): seq<nat>
    requires i < |strong|
  {
    if strong[i] > 0 then strong[i := strong[i] - 1] else strong
  }

  /** One reference goes to the index, one to the handle; a displaced entry loses its own. */
  function AttachOne(h: Holder, key: Key): (r: Holder)
    requires WellFormed(h)
    ensures WellFormed(r)
  {
    var strong := if key in h.index then Dropped(h.strong, h.index[key]) else h.strong;
    Holder(h.index[key := |h.keys|], h.keys + [key], strong + [2], h.open + [true])
  }

  function DetachOutcomeOf(h: Holder, i: nat): DetachOutcome
    requires WellFormed(h) && i < |h.keys|
  {
    if h.keys[i] !in h.index then NothingToRemove
    else if Dropped(h.strong, h.index[h.keys[i]])[i] != 1 then StillShared
    else Detached
  }

  /** The handle is consumed in any case, and its reference with it. */
  function DetachOne(h: Holder, i: nat): (r: Holder)
    requires WellFormed(h) && i < |h.keys|
    ensures WellFormed(r)
  {
    var key := h.keys[i];
    var strong := if key in h.index then Dropped(h.strong, h.index[key]) else h.strong;
    Holder(h.index - {key}, h.keys, Dropped(strong, i), h.open[i := false])
  }

  datatype Action = AttachKey(key: Key) | DetachHandle(attachment: nat) | NotifyAttached

  predicate Enabled(h: Holder, a: Action)
    requires WellFormed(h)
  {
    a.DetachHandle? ==> a.attachment < |h.keys| && h.open[a.attachment]
  }

  /** Notifications hold the lock for reading and keep no reference: they change nothing here. */
  function Apply(h: Holder, a: Action): (r: Holder)
    requires WellFormed(h) && Enabled(h, a)
    ensures WellFormed(r)
  {
    match a
    case AttachKey(key) => AttachOne(h, key)
    case DetachHandle(i) => DetachOne(h, i)
    case NotifyAttached => h
  }

  predicate Legal(actions: seq<Action>)
    decreases |actions|, 0
  {
    actions != [] ==>
      var last := |actions| - 1;
      Legal(actions[..last]) && Enabled(Reach(actions[..last]), actions[last])
  }

  function Reach(actions: seq<Action>): (h: Holder)
    requires Legal(actions)
    ensures WellFormed(h)
    decreases |actions|, 1
  {
    if actions == [] then EmptyHolder()
    else
      var last := |actions| - 1;
      Apply(Reach(actions[..last]), actions[last])
  }

  predicate Stored(h: Holder, i: nat)
    requires WellFormed(h) && i < |h.keys|
  {
    h.keys[i] in h.index && h.index[h.keys[i]] == i
  }

  ghost predicate Inv(h: Holder)
    requires WellFormed(h)
  {
    && (forall key :: key in h.index ==> h.keys[h.index[key]] == key)
    && (forall i :: 0 <= i < |h.keys| ==>
          h.strong[i] == (if h.open[i] then 1 else 0) + (if Stored(h, i) then 1 else 0))
  }

  lemma AttachKeepsInv(h: Holder, key: Key)
    requires WellFormed(h) && Inv(h)
    ensures Inv(AttachOne(h, key))
  {
    var h' := AttachOne(h, key);
    forall i | 0 <= i < |h'.keys|
      ensures h'.strong[i] == (if h'.open[i] then 1 else 0) + (if Stored(h', i) then 1 else 0)
    {
      if i < |h.keys| {
        assert h.strong[i] == (if h.open[i] then 1 else 0) + (if Stored(h, i) then 1 else 0);
      }
    }
  }

  lemma DetachKeepsInv(h: Holder, i: nat)
    requires WellFormed(h) && Inv(h) && Enabled(h, DetachHandle(i))
    ensures Inv(DetachOne(h, i))
  {
    var h' := DetachOne(h, i);
    forall j | 0 <= j < |h'.keys|
      ensures h'.strong[j] == (if h'.open[j] then 1 else 0) + (if Stored(h', j) then 1 else 0)
    {
      assert h.strong[j] == (if h.open[j] then 1 else 0) + (if Stored(h, j) then 1 else 0);
    }
  }

  lemma {:induction false} ReachInv(actions: seq<Action>)
    requires Legal(actions)
    ensures Inv(Reach(actions))
    decreases |actions|
  {
    if actions != [] {
      var last := |actions| - 1;
      ReachInv(actions[..last]);
      match actions[last] {
        case AttachKey(key) => AttachKeepsInv(Reach(actions[..last]), key);
        case DetachHandle(i) => DetachKeepsInv(Reach(actions[..last]), i);
        case NotifyAttached =>
      }
    }
  }

  /** In every run, attaching puts the new attachment under its key, with one reference for the index
      and one for the handle, and takes the index's away from the one it displaces. */
  lemma {:induction false} AttachExactly(actions: seq<Action>, key: Key)
    requires Legal(actions)
    ensures var h, h' := Reach(actions), Apply(Reach(actions), AttachKey(key));
            && h'.keys == h.keys + [key] && h'.open == h.open + [true] && |h'.strong| == |h.keys| + 1
            && h'.strong[|h.keys|] == 2
            && key in h'.index && h'.index[key] == |h.keys|
            && (forall other :: other != key ==> (other in h'.index <==> other in h.index))
            && (forall other :: other != key && other in h.index ==> h'.index[other] == h.index[other])
            && (forall j :: 0 <= j < |h.keys| ==>
                  h.strong[j] == h'.strong[j] + if key in h.index && h.index[key] == j then 1 else 0)
  {
    ReachInv(actions);
  }

  /** Detaching takes away the reference of the handle, and that of the index to whatever is stored
      under the key, which need not be the same attachment. */
  lemma {:induction false} DetachExactly(actions: seq<Action>, i: nat)
    requires Legal(actions) && Enabled(Reach(actions), DetachHandle(i))
    ensures var h, h' := Reach(actions), Apply(Reach(actions), DetachHandle(i));
            && h'.keys == h.keys && |h'.strong| == |h'.open| == |h.keys|
            && (forall key :: key in h'.index <==> key in h.index && key != h.keys[i])
            && (forall key :: key in h'.index ==> h'.index[key] == h.index[key])
            && (forall j :: 0 <= j < |h.keys| ==>
                  && (h'.open[j] <==> h.open[j] && j != i)
                  && h.strong[j] == h'.strong[j] + (if j == i then 1 else 0)
                                    + if h.keys[i] in h.index && h.index[h.keys[i]] == j then 1 else 0)
  {
    ReachInv(actions);
    var h := Reach(actions);
    if h.keys[i] in h.index {
      assert Stored(h, h.index[h.keys[i]]);
    }
  }

  /** In every run, a handle that finds anything to remove becomes the sole owner of its observers;
      detaching panics exactly when nothing is stored under the key. */
  lemma DetachCondition(actions: seq<Action>, i: nat)
    requires Legal(actions) && Enabled(Reach(actions), DetachHandle(i))
    ensures var h := Reach(actions);
            DetachOutcomeOf(h, i) == if h.keys[i] in h.index then Detached else NothingToRemove
  {
    ReachInv(actions);
  }

  /** A run that attaches no key twice without a detach in between. */
  ghost predicate Disciplined(actions: seq<Action>)
    requires Legal(actions)
    decreases |actions|
  {
    actions != [] ==>
      var last := |actions| - 1;
      var h := Reach(actions[..last]);
      && Disciplined(actions[..last])
      && (actions[last].AttachKey? ==>
            forall i :: 0 <= i < |h.keys| && h.keys[i] == actions[last].key ==> !h.open[i])
  }

  /** Then the index is exactly the set of attachments not yet detached, under their own keys. */
  ghost predicate Mirrors(h: Holder)
    requires WellFormed(h)
  {
    forall i :: 0 <= i < |h.keys| ==> (h.open[i] <==> Stored(h, i))
  }

  lemma {:induction false} DisciplinedMirrors(actions: seq<Action>)
    requires Legal(actions) && Disciplined(actions)
    ensures Mirrors(Reach(actions))
    decreases |actions|
  {
    if actions != [] {
      var last := |actions| - 1;
      var h, h' := Reach(actions[..last]), Reach(actions);
      DisciplinedMirrors(actions[..last]);
      ReachInv(actions[..last]);
      forall i | 0 <= i < |h'.keys|
        ensures h'.open[i] <==> Stored(h', i)
      {
        if i < |h.keys| {
          assert h.open[i] <==> Stored(h, i);
        }
      }
    }
  }

  /** So every detach finds its own entry, removes nothing else, and succeeds. */
  lemma DisciplinedDetach(actions: seq<Action>, i: nat)
    requires Legal(actions) && Disciplined(actions) && Enabled(Reach(actions), DetachHandle(i))
    ensures var h, h' := Reach(actions), Apply(Reach(actions), DetachHandle(i));
            && DetachOutcomeOf(h, i) == Detached
            && h.index[h.keys[i]] == i
            && h'.strong[i] == 0
            && (forall j :: 0 <= j < |h.keys| && j != i ==> (Stored(h', j) <==> Stored(h, j)))
  {
    DisciplinedMirrors(actions);
    DetachCondition(actions, i);
    ReachInv(actions);
    var h := Reach(actions);
    assert Stored(h, i);
  }

  /** Without that discipline, the second of two handles for one key panics. */
  lemma DoubleAttachPanics(key: Key)
    ensures var actions := [AttachKey(key), AttachKey(key), DetachHandle(0)];
            && Legal(actions)
            && Enabled(Reach(actions), DetachHandle(1))
            && DetachOutcomeOf(Reach(actions), 1) == NothingToRemove
  {
    var one, two, three := [AttachKey(key)], [AttachKey(key), AttachKey(key)],
                           [AttachKey(key), AttachKey(key), DetachHandle(0)];
    assert one[..0] == [] && two[..1] == one && three[..2] == two;
    assert Legal([]) && Reach([]) == EmptyHolder();
    assert Legal(one) && Reach(one) == AttachOne(EmptyHolder(), key);
    assert Legal(two) && Reach(two) == AttachOne(Reach(one), key);
    assert Legal(three) && Reach(three) == DetachOne(Reach(two), 0);
  }
}
