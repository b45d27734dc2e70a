/** Longest-prefix and all-prefixes lookup over path keys (path_matcher.rs). */
module PathMatcher {
  import opened Paths
  import opened Wrappers

  datatype MatchedResult<V> = MatchedResult(value: V, matchedIndex: nat)

  /** The matches among the prefixes of `path` no longer than `depth`, deepest first. */
  function Matches<V>(m: map<Key, V>, path: Key, depth: nat): seq<MatchedResult<V>>
    requires depth <= |path|
  {
    var here := if path[..depth] in m then [MatchedResult(m[path[..depth]], depth)] else [];
    if depth == 0 then here else here + Matches(m, path, depth - 1)
  }

  function MatchAllOf<V>(m: map<Key, V>, path: Key): seq<MatchedResult<V>> {
    Matches(m, path, |path|)
  }

  function LookupOf<V>(m: map<Key, V>, path: Key): Option<MatchedResult<V>> {
    var all := MatchAllOf(m, path);
    if all == [] then None else Some(all[0])
  }

  /** Every match is a stored prefix of `path` with its value, and the matches get shallower. */
  ghost predicate Sound<V>(m: map<Key, V>, path: Key, depth: nat, r: seq<MatchedResult<V>>)
    requires depth <= |path|
  {
    && (forall i :: 0 <= i < |r| ==> r[i].matchedIndex <= depth)
    && (forall i :: 0 <= i < |r| ==> path[..r[i].matchedIndex] in m)
    && (forall i :: 0 <= i < |r| ==> r[i].value == m[path[..r[i].matchedIndex]])
    && (forall i, j :: 0 <= i < j < |r| ==> r[i].matchedIndex > r[j].matchedIndex)
  }

  lemma {:induction false} MatchesSound<V>(m: map<Key, V>, path: Key, depth: nat)
    requires depth <= |path|
    ensures Sound(m, path, depth, Matches(m, path, depth))
  {
    if depth > 0 {
      MatchesSound(m, path, depth - 1);
    }
  }

  /** No stored prefix is missed. */
  lemma {:induction false} MatchesComplete<V>(m: map<Key, V>, path: Key, depth: nat, d: nat)
    requires d <= depth <= |path| && path[..d] in m
    ensures exists i :: 0 <= i < |Matches(m, path, depth)| && Matches(m, path, depth)[i].matchedIndex == d
  {
    var r := Matches(m, path, depth);
    if d == depth {
      assert r[0].matchedIndex == d;
    } else {
      MatchesComplete(m, path, depth - 1, d);
      var rest := Matches(m, path, depth - 1);
      var i :| 0 <= i < |rest| && rest[i].matchedIndex == d;
      assert r[i + |r| - |rest|] == rest[i];
    }
  }

  /** The matched keys, in the order of the results. */
  ghost function MatchedKeys<V>(m: map<Key, V>, path: Key): (keys: seq<Key>)
    ensures |keys| == |MatchAllOf(m, path)|
    ensures forall i :: 0 <= i < |keys| ==> keys[i] <= path && |keys[i]| == MatchAllOf(m, path)[i].matchedIndex
  {
    MatchesSound(m, path, |path|);
    var all := MatchAllOf(m, path);
    seq(|all|, i requires 0 <= i < |all| => path[..all[i].matchedIndex])
  }

  /** All-prefixes match is exact: its keys are the stored keys that are prefixes of the path,
      each once, from the deepest to the shallowest, with the values stored under them. */
  lemma MatchAllExact<V>(m: map<Key, V>, path: Key)
    ensures forall k :: k in MatchedKeys(m, path) <==> k in m && k <= path
    ensures var keys := MatchedKeys(m, path);
            forall i, j :: 0 <= i < j < |keys| ==> |keys[i]| > |keys[j]|
    ensures var keys := MatchedKeys(m, path);
            forall i :: 0 <= i < |keys| ==> keys[i] in m && MatchAllOf(m, path)[i].value == m[keys[i]]
  {
    var all, keys := MatchAllOf(m, path), MatchedKeys(m, path);
    MatchesSound(m, path, |path|);
    forall i | 0 <= i < |keys|
      ensures keys[i] in m && all[i].value == m[keys[i]]
    {
      assert keys[i] == path[..all[i].matchedIndex];
    }
    forall k | k in m && k <= path
      ensures k in keys
    {
      assert path[..|k|] == k;
      MatchesComplete(m, path, |path|, |k|);
      var i :| 0 <= i < |all| && all[i].matchedIndex == |k|;
      assert keys[i] == k;
    }
  }

  /** Lookup is the deepest of those matches, and finds nothing only when there is none. */
  lemma LookupLongestPrefix<V>(m: map<Key, V>, path: Key)
    ensures LookupOf(m, path).None? <==> forall k :: k in m ==> !(k <= path)
    ensures LookupOf(m, path).Some? ==>
              var found := LookupOf(m, path).value;
              && found.matchedIndex <= |path|
              && path[..found.matchedIndex] in m
              && found.value == m[path[..found.matchedIndex]]
              && (forall k :: k in m && k <= path ==> k <= path[..found.matchedIndex])
  {
    MatchesSound(m, path, |path|);
    MatchAllExact(m, path);
    var all, keys := MatchAllOf(m, path), MatchedKeys(m, path);
    if all == [] {
      assert forall k :: k in m ==> k !in keys;
    } else {
      assert keys[0] == path[..all[0].matchedIndex];
      assert keys[0] in keys;
      forall k | k in m && k <= path
        ensures k <= keys[0]
      {
        var i :| 0 <= i < |keys| && keys[i] == k;
        assert i == 0 || |keys[0]| > |keys[i]|;
      }
    }
  }

  class PathMatcher<V> {
    var contents: map<Key, V>

    constructor NewEmpty()
      ensures contents == map[]
    {
      contents := map[];
    }

    /** Normalises every path of a table.  The table is unordered: when two of its paths share a
        key, either value may survive. */
    constructor FromPathStrings(src: map<string, V>)
      ensures contents.Keys == set path | path in src :: KeyFromPath(path)
      ensures forall key :: key in contents ==>
                exists path :: path in src && KeyFromPath(path) == key && contents[key] == src[path]
    {
      var built: map<Key, V> := map[];
      var remaining := src.Keys;
      while remaining != {}
        invariant remaining <= src.Keys
        invariant built.Keys == set path | path in src && path !in remaining :: KeyFromPath(path)
        invariant forall key :: key in built ==>
                    exists path :: path in src && KeyFromPath(path) == key && built[key] == src[path]
        decreases |remaining|
      {
        var path :| path in remaining;
        remaining := remaining - {path};
        built := built[KeyFromPath(path) := src[path]];
      }
      contents := built;
    }

    method Lookup(path: Key) returns (r: Option<MatchedResult<V>>)
      ensures r == LookupOf(contents, path)
    {
      var depth := |path| + 1;
      while depth > 0
        invariant 0 <= depth <= |path| + 1
        invariant MatchAllOf(contents, path) == if depth == 0 then [] else Matches(contents, path, depth - 1)
      {
        depth := depth - 1;
        if path[..depth] in contents {
          return Some(MatchedResult(contents[path[..depth]], depth));
        }
      }
      r := None;
    }

    method MatchAll(path: Key) returns (result: seq<MatchedResult<V>>)
      ensures result == MatchAllOf(contents, path)
    {
      result := [];
      var depth := |path| + 1;
      while depth > 0
        invariant 0 <= depth <= |path| + 1
        invariant MatchAllOf(contents, path) ==
                  result + if depth == 0 then [] else Matches(contents, path, depth - 1)
      {
        depth := depth - 1;
        if path[..depth] in contents {
          result := result + [MatchedResult(contents[path[..depth]], depth)];
        }
      }
    }

    method Insert(key: Key, value: V) returns (replaced: Option<V>)
      modifies this
      ensures contents == old(contents)[key := value]
      ensures replaced == if key in old(contents) then Some(old(contents)[key]) else None
    {
      replaced := if key in contents then Some(contents[key]) else None;
      contents := contents[key := value];
    }

    method Remove(key: Key) returns (removed: Option<V>)
      modifies this
      ensures contents == old(contents) - {key}
      ensures removed == if key in old(contents) then Some(old(contents)[key]) else None
    {
      removed := if key in contents then Some(contents[key]) else None;
      contents := contents - {key};
    }
  }
}
