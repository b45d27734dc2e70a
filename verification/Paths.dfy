/** Path strings and the keys they normalise to (path_matcher.rs, `key_from_path`). */
module Paths {

  type Key = seq<string>

  /** `str::split('/')`: always at least one segment, possibly empty ones. */
  function Split(s: string): (r: seq<string>)
    ensures |r| >= 1
  {
    if s == [] then [[]]
    else
      var rest := Split(s[1..]);
      if s[0] == '/' then [[]] + rest else [[s[0]] + rest[0]] + rest[1..]
  }

  function DropEmpty(segments: seq<string>): seq<string> {
    if segments == [] then []
    else (if segments[0] == [] then [] else [segments[0]]) + DropEmpty(segments[1..])
  }

  function KeyFromPath(path: string): Key {
    DropEmpty(Split(path))
  }

  /** `key.join("/")`, the relative path of an observed resource. */
  function Join(segments: seq<string>): string {
    if segments == [] then []
    else if |segments| == 1 then segments[0]
    else segments[0] + "/" + Join(segments[1..])
  }

  predicate SlashFree(segments: seq<string>) {
    forall i :: 0 <= i < |segments| ==> '/' !in segments[i]
  }

  /** The keys that normalisation produces: no segment is empty or holds a slash. */
  predicate Normal(key: Key) {
    SlashFree(key) && forall i :: 0 <= i < |key| ==> key[i] != []
  }

  /** Splitting is the inverse of joining: it finds slash-free segments that join to the string. */
  lemma {:induction false} SplitThenJoin(s: string)
    ensures Join(Split(s)) == s
    ensures SlashFree(Split(s))
  {
    if s != [] {
      var rest := Split(s[1..]);
      SplitThenJoin(s[1..]);
      if s[0] == '/' {
        assert Split(s)[1..] == rest;
      } else if |rest| > 1 {
        assert Split(s)[1..] == rest[1..];
      }
    }
  }

  lemma {:induction false} SplitOneSegment(segment: string)
    requires '/' !in segment
    ensures Split(segment) == [segment]
  {
    if segment != [] {
      SplitOneSegment(segment[1..]);
      assert segment == [segment[0]] + segment[1..];
    }
  }

  lemma {:induction false} SplitConcat(a: string, b: string)
    ensures Split(a + "/" + b) == Split(a) + Split(b)
  {
    var whole := a + "/" + b;
    if a == [] {
      assert whole[1..] == b;
    } else {
      assert whole[1..] == a[1..] + "/" + b;
      SplitConcat(a[1..], b);
    }
  }

  /** And it is the only such inverse: any slash-free segments come back from their join. */
  lemma {:induction false} JoinThenSplit(segments: seq<string>)
    requires segments != [] && SlashFree(segments)
    ensures Split(Join(segments)) == segments
  {
    SplitOneSegment(segments[0]);
    if |segments| > 1 {
      JoinThenSplit(segments[1..]);
      SplitConcat(segments[0], Join(segments[1..]));
      assert segments == [segments[0]] + segments[1..];
    }
  }

  lemma {:induction false} DropEmptyConcat(a: seq<string>, b: seq<string>)
    ensures DropEmpty(a + b) == DropEmpty(a) + DropEmpty(b)
  {
    if a == [] {
      assert a + b == b;
    } else {
      assert (a + b)[1..] == a[1..] + b;
      DropEmptyConcat(a[1..], b);
    }
  }

  lemma {:induction false} DropEmptyNormal(segments: seq<string>)
    requires SlashFree(segments)
    ensures Normal(DropEmpty(segments))
    ensures Normal(segments) ==> DropEmpty(segments) == segments
  {
    if segments != [] {
      DropEmptyNormal(segments[1..]);
    }
  }

  lemma KeysAreNormal(path: string)
    ensures Normal(KeyFromPath(path))
  {
    SplitThenJoin(path);
    DropEmptyNormal(Split(path));
  }

  /** Joining two paths with a slash concatenates their keys. */
  lemma KeyOfJoinedPaths(a: string, b: string)
    ensures KeyFromPath(a + "/" + b) == KeyFromPath(a) + KeyFromPath(b)
  {
    SplitConcat(a, b);
    DropEmptyConcat(Split(a), Split(b));
  }

  /** A key is recovered from its own joined path. */
  lemma KeyRoundTrip(key: Key)
    requires Normal(key)
    ensures KeyFromPath(Join(key)) == key
  {
    if key != [] {
      JoinThenSplit(key);
      DropEmptyNormal(key);
    }
  }

  lemma LeadingSlash(path: string)
    ensures KeyFromPath("/" + path) == KeyFromPath(path)
  {
    KeyOfJoinedPaths("", path);
    assert "" + "/" + path == "/" + path;
  }

  predicate IsSegment(s: string) {
    s != "" && '/' !in s
  }

  lemma KeyOfSegment(segment: string)
    requires IsSegment(segment)
    ensures KeyFromPath(segment) == [segment]
  {
    KeyRoundTrip([segment]);
  }

  lemma KeyBelow(path: string, segment: string)
    requires IsSegment(segment)
    ensures KeyFromPath(path + "/" + segment) == KeyFromPath(path) + [segment]
  {
    KeyOfSegment(segment);
    KeyOfJoinedPaths(path, segment);
  }
}
