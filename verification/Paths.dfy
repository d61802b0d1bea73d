/** Relative paths in policies are kept in one canonical form. */
module Paths {

  /** The segments of a path: what lies between its slashes. */
  function Segments(path: string, current: string): seq<string>
    decreases |path|
  {
    if path == "" then [current]
    else if path[0] == '/' then [current] + Segments(path[1..], "")
    else Segments(path[1..], current + [path[0]])
  }

  predicate Skipped(segment: string) { segment == "" || segment == "." }

  function Kept(segments: seq<string>): seq<string> {
    if segments == [] then []
    else
      var last := segments[|segments| - 1];
      Kept(segments[..|segments| - 1]) + if Skipped(last) then [] else [last]
  }

  function Join(parts: seq<string>): string {
    if parts == [] then ""
    else if |parts| == 1 then parts[0]
    else Join(parts[..|parts| - 1]) + "/" + parts[|parts| - 1]
  }

  predicate Absolute(path: string) { path != "" && path[0] == '/' }

  /** Absolute paths, and paths that climb, are refused: their normal form is empty. */
  function Normalized(path: string): string {
    if path == "" || Absolute(path) || ".." in Segments(path, "") then "" else Join(Kept(Segments(path, "")))
  }

  // ---------------------------------------------------------------------------------------------
  // The loop
  // ---------------------------------------------------------------------------------------------

  /** The position of the next slash, or the length of the path if there is none. */
  method FindSlash(path: string, start: nat) returns (end: nat)
    requires start <= |path|
    ensures start <= end <= |path| && '/' !in path[start..end] && (end < |path| ==> path[end] == '/')
  {
    end := start;
    while end < |path| && path[end] != '/'
      invariant start <= end <= |path| && '/' !in path[start..end]
    {
      assert path[start..end + 1] == path[start..end] + [path[end]];
      end := end + 1;
    }
  }

  lemma {:induction false} SegmentsOfPlain(s: string, current: string)
    requires '/' !in s
    ensures Segments(s, current) == [current + s]
    decreases |s|
  {
    if s != "" {
      SegmentsOfPlain(s[1..], current + [s[0]]);
      assert current + [s[0]] + s[1..] == current + s;
    } else {
      assert current + s == current;
    }
  }

  lemma {:induction false} SegmentsAfterSlash(s: string, rest: string, current: string)
    requires '/' !in s
    ensures Segments(s + "/" + rest, current) == [current + s] + Segments(rest, "")
    decreases |s|
  {
    if s != "" {
      assert (s + "/" + rest)[1..] == s[1..] + "/" + rest;
      SegmentsAfterSlash(s[1..], rest, current + [s[0]]);
      assert current + [s[0]] + s[1..] == current + s;
    } else {
      assert (s + "/" + rest)[0] == '/' && (s + "/" + rest)[1..] == rest && current + s == current;
    }
  }

  /** The first segment from `start` on, and what follows it. */
  lemma NextSegment(path: string, start: nat, end: nat)
    requires start <= end <= |path| && '/' !in path[start..end] && (end < |path| ==> path[end] == '/')
    ensures end == |path| ==> Segments(path[start..], "") == [path[start..end]]
    ensures end < |path| ==> Segments(path[start..], "") == [path[start..end]] + Segments(path[end + 1..], "")
  {
    assert "" + path[start..end] == path[start..end];
    if end == |path| {
      assert path[start..] == path[start..end];
      SegmentsOfPlain(path[start..end], "");
    } else {
      assert path[start..] == path[start..end] + "/" + path[end + 1..];
      SegmentsAfterSlash(path[start..end], path[end + 1..], "");
    }
  }

  /** The segments before `start` were `seen`, none of them climbing, and `parts` are the kept ones. */
  ghost predicate SoFar(path: string, start: nat, seen: seq<string>, parts: seq<string>) {
    && start <= |path| && Segments(path, "") == seen + Segments(path[start..], "")
    && ".." !in seen && parts == Kept(seen)
  }

  lemma {:induction false} KeptNext(seen: seq<string>, part: string)
    ensures Kept(seen + [part]) == Kept(seen) + if Skipped(part) then [] else [part]
  {
    assert (seen + [part])[..|seen|] == seen;
  }

  /** Cuts the path at its slashes; stops as soon as a segment climbs. */
  method SplitAndKeep(path: string) returns (parts: seq<string>, climbs: bool)
    ensures climbs <==> ".." in Segments(path, "")
    ensures !climbs ==> parts == Kept(Segments(path, ""))
  {
    parts, climbs := [], false;
    var start := 0;
    ghost var seen: seq<string> := [];
    assert path[0..] == path;
    while true
      invariant SoFar(path, start, seen, parts)
      decreases |path| - start
    {
      var end := FindSlash(path, start);
      NextSegment(path, start, end);
      var part := path[start..end];
      if part == ".." {
        climbs := true;
        return;
      }
      if !Skipped(part) {
        parts := parts + [part];
      }
      KeptNext(seen, part);
      if end == |path| {
        assert Segments(path, "") == seen + [part];
        return;
      }
      assert seen + ([part] + Segments(path[end + 1..], "")) == seen + [part] + Segments(path[end + 1..], "");
      seen := seen + [part];
      start := end + 1;
    }
  }

  method JoinParts(parts: seq<string>) returns (result: string)
    requires "" !in parts
    ensures result == Join(parts)
  {
    result := "";
    for i := 0 to |parts|
      invariant result == Join(parts[..i]) && (result == "" <==> i == 0)
    {
      assert parts[..i + 1][..i] == parts[..i] && parts[i] in parts;
      if result != "" {
        result := result + "/";
      }
      result := result + parts[i];
    }
    assert parts[..|parts|] == parts;
  }

  method NormalizedRelativePath(path: string) returns (result: string)
    ensures result == Normalized(path)
  {
    if path == "" || path[0] == '/' {
      return "";
    }
    var parts, climbs := SplitAndKeep(path);
    if climbs {
      return "";
    }
    KeptAreProper(Segments(path, ""));
    result := JoinParts(parts);
  }

  // ---------------------------------------------------------------------------------------------
  // The canonical form
  // ---------------------------------------------------------------------------------------------

  predicate Proper(segment: string) {
    segment != "" && segment != "." && segment != ".." && '/' !in segment
  }

  predicate AllProper(parts: seq<string>) { forall p :: p in parts ==> Proper(p) }

  /** Slash-joined proper segments, or nothing. */
  ghost predicate Canonical(path: string) {
    exists parts :: AllProper(parts) && path == Join(parts)
  }

  lemma {:induction false} SegmentsHaveNoSlash(path: string, current: string)
    requires '/' !in current
    ensures forall s :: s in Segments(path, current) ==> '/' !in s
    decreases |path|
  {
    if path != "" {
      if path[0] == '/' {
        SegmentsHaveNoSlash(path[1..], "");
      } else {
        SegmentsHaveNoSlash(path[1..], current + [path[0]]);
      }
    }
  }

  lemma {:induction false} KeptAreProper(segments: seq<string>)
    ensures forall s :: s in Kept(segments) ==> s in segments && !Skipped(s)
  {
    if segments != [] { KeptAreProper(segments[..|segments| - 1]); }
  }

  lemma {:induction false} KeptOfProper(parts: seq<string>)
    requires AllProper(parts)
    ensures Kept(parts) == parts
  {
    if parts != [] {
      var m := |parts| - 1;
      assert parts == parts[..m] + [parts[m]] && parts[m] in parts;
      KeptOfProper(parts[..m]);
    }
  }

  lemma {:induction false} SegmentsOfAppended(a: string, b: string, current: string)
    requires '/' !in b
    ensures Segments(a + "/" + b, current) == Segments(a, current) + [b]
    decreases |a|
  {
    if a == "" {
      assert (a + "/" + b)[0] == '/' && (a + "/" + b)[1..] == b;
      SegmentsOfPlain(b, "");
      assert "" + b == b;
    } else {
      assert (a + "/" + b)[1..] == a[1..] + "/" + b;
      if a[0] == '/' { SegmentsOfAppended(a[1..], b, ""); } else { SegmentsOfAppended(a[1..], b, current + [a[0]]); }
    }
  }

  /** Joined segments come apart again. */
  lemma {:induction false} SegmentsOfJoined(parts: seq<string>)
    requires parts != [] && forall p :: p in parts ==> '/' !in p
    ensures Segments(Join(parts), "") == parts
  {
    var m := |parts| - 1;
    assert parts == parts[..m] + [parts[m]] && parts[m] in parts;
    if m == 0 {
      SegmentsOfPlain(parts[0], "");
      assert "" + parts[0] == parts[0];
    } else {
      SegmentsOfJoined(parts[..m]);
      SegmentsOfAppended(Join(parts[..m]), parts[m], "");
    }
  }

  lemma {:induction false} JoinStarts(parts: seq<string>)
    requires parts != [] && AllProper(parts)
    ensures Join(parts) != "" && !Absolute(Join(parts))
  {
    var m := |parts| - 1;
    assert parts[m] in parts;
    if m > 0 {
      assert AllProper(parts[..m]);
      JoinStarts(parts[..m]);
    }
  }

  /** Whatever the path, its normal form is canonical. */
  lemma NormalFormIsCanonical(path: string)
    ensures Canonical(Normalized(path))
  {
    var segments := Segments(path, "");
    if path == "" || Absolute(path) || ".." in segments {
      assert AllProper([]) && Join([]) == "";
    } else {
      SegmentsHaveNoSlash(path, "");
      KeptAreProper(segments);
      assert AllProper(Kept(segments));
    }
  }

  lemma JoinedIsNormal(parts: seq<string>)
    requires AllProper(parts)
    ensures Normalized(Join(parts)) == Join(parts)
  {
    if parts != [] {
      SegmentsOfJoined(parts);
      JoinStarts(parts);
      KeptOfProper(parts);
    }
  }

  /** The fixed points are exactly the canonical paths. */
  lemma FixedPointsAreCanonical(path: string)
    ensures Normalized(path) == path <==> Canonical(path)
  {
    NormalFormIsCanonical(path);
    if Canonical(path) {
      var parts :| AllProper(parts) && path == Join(parts);
      JoinedIsNormal(parts);
    }
  }

  lemma NormalizingTwice(path: string)
    ensures Normalized(Normalized(path)) == Normalized(path)
  {
    NormalFormIsCanonical(path);
    FixedPointsAreCanonical(Normalized(path));
  }

  /** A path comes out empty exactly when it is refused or has nothing to keep. */
  lemma EmptyWhenRefused(path: string)
    ensures Normalized(path) == "" <==>
      path == "" || Absolute(path) || ".." in Segments(path, "") || forall s :: s in Segments(path, "") ==> Skipped(s)
  {
    var segments := Segments(path, "");
    KeptAreProper(segments);
    if !(path == "" || Absolute(path) || ".." in segments) {
      SegmentsHaveNoSlash(path, "");
      assert AllProper(Kept(segments));
      KeptNothing(segments);
      if Kept(segments) != [] { JoinStarts(Kept(segments)); }
    }
  }

  lemma {:induction false} KeptNothing(segments: seq<string>)
    ensures Kept(segments) == [] <==> forall s :: s in segments ==> Skipped(s)
  {
    if segments != [] {
      var m := |segments| - 1;
      assert segments == segments[..m] + [segments[m]];
      KeptNothing(segments[..m]);
    }
  }

  // ---------------------------------------------------------------------------------------------
  // Every path
  // ---------------------------------------------------------------------------------------------

  lemma {:induction false} JoinFirst(first: string, rest: seq<string>)
    requires rest != []
    ensures Join([first] + rest) == first + "/" + Join(rest)
    decreases |rest|
  {
    var m := |rest| - 1;
    var all := [first] + rest;
    assert all[..|all| - 1] == [first] + rest[..m] && all[|all| - 1] == rest[m];
    if m > 0 {
      JoinFirst(first, rest[..m]);
    } else {
      assert [first] + rest[..m] == [first];
    }
  }

  lemma {:induction false} SegmentsJoinBack(path: string, current: string)
    ensures Segments(path, current) != [] && Join(Segments(path, current)) == current + path
    decreases |path|
  {
    if path != "" {
      assert path == [path[0]] + path[1..];
      if path[0] == '/' {
        SegmentsJoinBack(path[1..], "");
        JoinFirst(current, Segments(path[1..], ""));
      } else {
        SegmentsJoinBack(path[1..], current + [path[0]]);
      }
    }
  }

  /** The segments are the one way to cut the path at its slashes. */
  lemma SegmentsExactly(path: string, parts: seq<string>)
    ensures Segments(path, "") == parts <==>
      parts != [] && (forall p :: p in parts ==> '/' !in p) && Join(parts) == path
  {
    SegmentsJoinBack(path, "");
    SegmentsHaveNoSlash(path, "");
    if parts != [] && (forall p :: p in parts ==> '/' !in p) && Join(parts) == path { SegmentsOfJoined(parts); }
  }

  /** The positions are in order, and they are those of the segments that say something. */
  predicate Picks(ks: seq<nat>, segments: seq<string>) {
    && (forall i, j :: 0 <= i < j < |ks| ==> ks[i] < ks[j])
    && (forall k :: k in ks ==> k < |segments| && !Skipped(segments[k]))
    && (forall k :: 0 <= k < |segments| && !Skipped(segments[k]) ==> k in ks)
  }

  /** The picked segments, in that order. */
  predicate Picked(parts: seq<string>, ks: seq<nat>, segments: seq<string>) {
    |parts| == |ks| && forall i :: 0 <= i < |ks| ==> ks[i] < |segments| && parts[i] == segments[ks[i]]
  }

  lemma {:induction false} KeptArePicked(segments: seq<string>) returns (ks: seq<nat>)
    ensures Picks(ks, segments) && Picked(Kept(segments), ks, segments)
  {
    ks := [];
    if segments != [] {
      var m := |segments| - 1;
      ks := KeptArePicked(segments[..m]);
      forall k | k in ks ensures k < m { }
      if !Skipped(segments[m]) { ks := ks + [m]; }
    }
  }

  /** What comes of a path that is not refused: the segments that say something, in their order, joined by
      single slashes. */
  lemma NormalFormIs(path: string) returns (ks: seq<nat>, parts: seq<string>)
    requires path != "" && !Absolute(path) && ".." !in Segments(path, "")
    ensures Picks(ks, Segments(path, "")) && Picked(parts, ks, Segments(path, ""))
    ensures Normalized(path) == Join(parts) && AllProper(parts)
    ensures parts != [] ==> Segments(Normalized(path), "") == parts
  {
    ks := KeptArePicked(Segments(path, ""));
    parts := Kept(Segments(path, ""));
    SegmentsHaveNoSlash(path, "");
    KeptAreProper(Segments(path, ""));
    if parts != [] { SegmentsOfJoined(parts); }
  }
}
