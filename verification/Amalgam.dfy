/** The amalgamation of several source texts into one, and the way back from a line of it to the
    file and line it came from. */
module Amalgam {
  import opened Options

  datatype Source = Source(name: string, text: string)
  datatype Offset = Offset(file: string, start: int, lines: int)

  const HEADER_TEXT := "/* amalgamated " + "measurement file " + "- generated, " + "do not distribute */"
  const HEADER := HEADER_TEXT + "\n"

  function Marker(name: string): string { "/* ==== BEGIN " + name + " ==== */\n" }

  /** The text as it is emitted: it ends with a newline. */
  function Terminated(text: string): string {
    if text != "" && text[|text| - 1] == '\n' then text else text + "\n"
  }

  function Newlines(s: string): nat {
    if s == "" then 0 else Newlines(s[..|s| - 1]) + if s[|s| - 1] == '\n' then 1 else 0
  }

  /** The complete lines of a text, without their newlines. */
  function Lines(s: string): seq<string> {
    Cut(s, "")
  }

  /** `line` is what has been read of the current line. */
  function Cut(s: string, line: string): seq<string>
    decreases |s|
  {
    if s == "" then []
    else if s[0] == '\n' then [line] + Cut(s[1..], "")
    else Cut(s[1..], line + [s[0]])
  }

  predicate Complete(s: string) { s == "" || s[|s| - 1] == '\n' }

  // ---------------------------------------------------------------------------------------------
  // Lines and newlines
  // ---------------------------------------------------------------------------------------------

  lemma {:induction false} CutAppend(a: string, b: string, line: string)
    requires Complete(a) && (a != "" || line == "")
    ensures Cut(a + b, line) == Cut(a, line) + Cut(b, "")
    decreases |a|
  {
    if a == "" {
      assert a + b == b;
    } else {
      assert (a + b)[1..] == a[1..] + b;
      if a[0] == '\n' {
        CutAppend(a[1..], b, "");
      } else {
        CutAppend(a[1..], b, line + [a[0]]);
      }
    }
  }

  lemma {:induction false} LinesAppend(a: string, b: string)
    requires Complete(a)
    ensures Lines(a + b) == Lines(a) + Lines(b)
  {
    CutAppend(a, b, "");
  }

  lemma {:induction false} NewlinesFirst(s: string)
    requires s != ""
    ensures Newlines(s) == (if s[0] == '\n' then 1 else 0) + Newlines(s[1..])
    decreases |s|
  {
    if |s| > 1 {
      NewlinesFirst(s[..|s| - 1]);
      assert s[..|s| - 1][1..] == s[1..][..|s| - 2];
    }
  }

  lemma {:induction false} LinesAreNewlines(s: string, line: string)
    ensures |Cut(s, line)| == Newlines(s)
    decreases |s|
  {
    if s != "" {
      NewlinesFirst(s);
      LinesAreNewlines(s[1..], if s[0] == '\n' then "" else line + [s[0]]);
    }
  }

  lemma {:induction false} OneLine(s: string, line: string)
    requires '\n' !in s
    ensures Cut(s + "\n", line) == [line + s]
    decreases |s|
  {
    if s != "" {
      assert (s + "\n")[1..] == s[1..] + "\n";
      OneLine(s[1..], line + [s[0]]);
      assert line + [s[0]] + s[1..] == line + s;
    } else {
      assert ("" + "\n")[1..] == "" && line + "" == line;
    }
  }

  // ---------------------------------------------------------------------------------------------
  // The forward map
  // ---------------------------------------------------------------------------------------------

  /** What is emitted for the first `n` files after the header `h`. */
  function Emitted(h: string, files: seq<Source>, n: nat): string
    requires n <= |files|
  {
    if n == 0 then h
    else Emitted(h, files, n - 1) + Marker(files[n - 1].name) + Terminated(files[n - 1].text)
  }

  function LineCount(f: Source): nat { Newlines(Terminated(f.text)) }

  /** How many lines each file contributes. */
  function Counts(files: seq<Source>): (r: seq<nat>)
    ensures |r| == |files|
  {
    seq(|files|, i requires 0 <= i < |files| => LineCount(files[i]))
  }

  /** Lines emitted for the first `n` files, header included. */
  function LinesSoFar(counts: seq<nat>, n: nat): nat
    requires n <= |counts|
  {
    if n == 0 then 1 else LinesSoFar(counts, n - 1) + 1 + counts[n - 1]
  }

  function OffsetAt(files: seq<Source>, i: nat): Offset
    requires i < |files|
  {
    Offset(files[i].name, LinesSoFar(Counts(files), i) + 2, Counts(files)[i])
  }

  function OffsetsOf(files: seq<Source>, n: nat): seq<Offset>
    requires n <= |files|
  {
    seq(n, i requires 0 <= i < n => OffsetAt(files, i))
  }

  method Terminate(text: string) returns (t: string)
    ensures t == Terminated(text)
  {
    t := text;
    if t == "" || t[|t| - 1] != '\n' {
      t := t + "\n";
    }
  }

  /** What one more file adds. */
  lemma {:induction false} NextFile(files: seq<Source>, h: string, i: nat)
    requires i < |files|
    ensures var size := Newlines(Terminated(files[i].text));
      && OffsetAt(files, i) == Offset(files[i].name, LinesSoFar(Counts(files), i) + 2, size)
      && OffsetsOf(files, i + 1) == OffsetsOf(files, i) + [OffsetAt(files, i)]
      && LinesSoFar(Counts(files), i + 1) == LinesSoFar(Counts(files), i) + 1 + size
    ensures Emitted(h, files, i + 1) == Emitted(h, files, i) + Marker(files[i].name) + Terminated(files[i].text)
  {
  }

  method Build(files: seq<Source>, h: string) returns (out: string, offsets: seq<Offset>)
    ensures out == Emitted(h, files, |files|) && offsets == OffsetsOf(files, |files|)
  {
    out, offsets := h, [];
    var currentLine := 1;
    for i := 0 to |files|
      invariant out == Emitted(h, files, i) && offsets == OffsetsOf(files, i)
      invariant currentLine == LinesSoFar(Counts(files), i)
    {
      var text := Terminate(files[i].text);
      var size := Newlines(text);
      offsets := offsets + [Offset(files[i].name, currentLine + 2, size)];
      out := out + Marker(files[i].name) + text;
      currentLine := currentLine + 1 + size;
      NextFile(files, h, i);
    }
  }

  /** A header of one line, and names without newlines: then every marker is one line too. */
  ghost predicate OneLiners(h: string, files: seq<Source>) {
    |Lines(h)| == 1 && Complete(h) && forall f :: f in files ==> '\n' !in f.name
  }

  lemma {:induction false} HeaderIsOneLine()
    ensures |Lines(HEADER)| == 1 && Complete(HEADER)
  {
    assert '\n' !in "/* amalgamated " && '\n' !in "measurement file ";
    assert '\n' !in "- generated, " && '\n' !in "do not distribute */";
    OneLine(HEADER_TEXT, "");
  }

  /** The lines of a header, and of markers each followed by a file's lines. */
  function Layout(first: string, markers: seq<string>, bodies: seq<seq<string>>, n: nat): seq<string>
    requires n <= |markers| == |bodies|
  {
    if n == 0 then [first] else Layout(first, markers, bodies, n - 1) + [markers[n - 1]] + bodies[n - 1]
  }

  function MarkerLine(f: Source): string { "/* ==== BEGIN " + f.name + " ==== */" }

  function Markers(files: seq<Source>): (r: seq<string>)
    ensures |r| == |files|
  {
    seq(|files|, i requires 0 <= i < |files| => MarkerLine(files[i]))
  }

  function Bodies(files: seq<Source>): (r: seq<seq<string>>)
    ensures |r| == |files|
  {
    seq(|files|, i requires 0 <= i < |files| => Lines(Terminated(files[i].text)))
  }

  lemma {:induction false} FileAppended(e: string, f: Source)
    requires Complete(e) && '\n' !in f.name
    ensures var all := e + Marker(f.name) + Terminated(f.text);
      Complete(all) && Lines(all) == Lines(e) + [MarkerLine(f)] + Lines(Terminated(f.text))
    ensures |Lines(Terminated(f.text))| == LineCount(f)
  {
    assert Marker(f.name) == MarkerLine(f) + "\n" && "" + MarkerLine(f) == MarkerLine(f);
    OneLine(MarkerLine(f), "");
    LinesAppend(e, Marker(f.name));
    LinesAppend(e + Marker(f.name), Terminated(f.text));
    LinesAreNewlines(Terminated(f.text), "");
  }

  lemma {:induction false} EmittedLines(h: string, files: seq<Source>, n: nat)
    requires OneLiners(h, files) && n <= |files|
    ensures Complete(Emitted(h, files, n))
    ensures Lines(Emitted(h, files, n)) == Layout(Lines(h)[0], Markers(files), Bodies(files), n)
  {
    if n == 0 {
      assert Lines(h) == [Lines(h)[0]];
    } else {
      var e, f := Emitted(h, files, n - 1), files[n - 1];
      EmittedLines(h, files, n - 1);
      FileAppended(e, f);
      assert Markers(files)[n - 1] == MarkerLine(f) && Bodies(files)[n - 1] == Lines(Terminated(f.text));
    }
  }

  // ---------------------------------------------------------------------------------------------
  // Where a line of the amalgam comes from
  // ---------------------------------------------------------------------------------------------

  /** Line `line` (counted from 1) of the amalgam is line `k` of file `i`. */
  predicate ComesFrom(counts: seq<nat>, line: int, i: nat, k: int) {
    i < |counts| && 1 <= k <= counts[i] && line == LinesSoFar(counts, i) + 1 + k
  }

  lemma {:induction false} SoFarNext(counts: seq<nat>, i: nat)
    requires i < |counts|
    ensures LinesSoFar(counts, i + 1) == LinesSoFar(counts, i) + 1 + counts[i]
  {
  }

  ghost predicate CountsOf(counts: seq<nat>, bodies: seq<seq<string>>) {
    |counts| == |bodies| && forall i :: 0 <= i < |counts| ==> counts[i] == |bodies[i]|
  }

  lemma {:induction false} LayoutSize(first: string, markers: seq<string>, bodies: seq<seq<string>>, counts: seq<nat>,
      n: nat)
    requires n <= |markers| == |bodies| && CountsOf(counts, bodies)
    ensures |Layout(first, markers, bodies, n)| == LinesSoFar(counts, n)
  {
    if n > 0 { LayoutSize(first, markers, bodies, counts, n - 1); }
  }

  /** Line `k` of file `i` is where the counts say, however many files follow. */
  lemma {:induction false} LayoutHolds(first: string, markers: seq<string>, bodies: seq<seq<string>>, counts: seq<nat>,
      i: nat, k: int, n: nat)
    requires i < n <= |markers| == |bodies| && CountsOf(counts, bodies) && 1 <= k <= counts[i]
    ensures LinesSoFar(counts, i) + k < |Layout(first, markers, bodies, n)|
    ensures Layout(first, markers, bodies, n)[LinesSoFar(counts, i) + k] == bodies[i][k - 1]
    decreases n
  {
    LayoutSize(first, markers, bodies, counts, n - 1);
    if i < n - 1 {
      LayoutHolds(first, markers, bodies, counts, i, k, n - 1);
    }
  }

  lemma {:induction false} CountsAreSizes(files: seq<Source>)
    ensures CountsOf(Counts(files), Bodies(files))
  {
    forall i | 0 <= i < |files| ensures LineCount(files[i]) == |Lines(Terminated(files[i].text))| {
      LinesAreNewlines(Terminated(files[i].text), "");
    }
  }

  /** Whatever one-line header comes first. */
  lemma {:induction false} EmittedHoldsTheFiles(h: string, files: seq<Source>, line: int, i: nat, k: int)
    requires OneLiners(h, files) && ComesFrom(Counts(files), line, i, k)
    ensures k <= |Lines(Terminated(files[i].text))| && 1 <= line <= |Lines(Emitted(h, files, |files|))|
    ensures Lines(Emitted(h, files, |files|))[line - 1] == Lines(Terminated(files[i].text))[k - 1]
  {
    var first, markers, bodies, counts := Lines(h)[0], Markers(files), Bodies(files), Counts(files);
    EmittedLines(h, files, |files|);
    CountsAreSizes(files);
    LayoutHolds(first, markers, bodies, counts, i, k, |files|);
    assert bodies[i] == Lines(Terminated(files[i].text));
  }

  /** The line of the amalgam that the table names for a file's line is that line. */
  lemma {:induction false} AmalgamHoldsTheFiles(files: seq<Source>, line: int, i: nat, k: int)
    requires (forall f :: f in files ==> '\n' !in f.name) && ComesFrom(Counts(files), line, i, k)
    ensures k <= |Lines(Terminated(files[i].text))| && 1 <= line <= |Lines(Emitted(HEADER, files, |files|))|
    ensures Lines(Emitted(HEADER, files, |files|))[line - 1] == Lines(Terminated(files[i].text))[k - 1]
  {
    HeaderIsOneLine();
    EmittedHoldsTheFiles(HEADER, files, line, i, k);
  }

  lemma {:induction false} SoFarGrows(counts: seq<nat>, i: nat, j: nat)
    requires i <= j <= |counts|
    ensures LinesSoFar(counts, i) <= LinesSoFar(counts, j)
    decreases j
  {
    if i < j { SoFarGrows(counts, i, j - 1); }
  }

  /** Segments are in order, and do not overlap. */
  lemma {:induction false} SegmentsIncrease(counts: seq<nat>, i: nat, j: nat)
    requires i < j < |counts|
    ensures LinesSoFar(counts, i) + counts[i] < LinesSoFar(counts, j)
  {
    SoFarNext(counts, i);
    SoFarGrows(counts, i + 1, j);
  }

  lemma {:induction false} NoFileIsEmpty(f: Source)
    ensures LineCount(f) >= 1
  {
  }

  // ---------------------------------------------------------------------------------------------
  // The way back
  // ---------------------------------------------------------------------------------------------

  predicate Sorted(offsets: seq<Offset>) {
    forall i, j :: 0 <= i < j < |offsets| ==> offsets[i].start + offsets[i].lines < offsets[j].start
  }

  predicate Covers(o: Offset, line: int) { o.start <= line < o.start + o.lines }

  /** Binary search for the last segment that starts at or before the line. Lines of no segment, the
      header and the markers, are left where they are. */
  method Remap(offsets: seq<Offset>, line: int) returns (r: Option<(nat, int)>)
    requires |offsets| > 0 && Sorted(offsets) && forall i :: 0 <= i < |offsets| ==> offsets[i].lines > 0
    ensures r.Some? ==>
      r.value.0 < |offsets| && Covers(offsets[r.value.0], line) && r.value.1 == line - offsets[r.value.0].start + 1
    ensures r.None? ==> forall i :: 0 <= i < |offsets| ==> !Covers(offsets[i], line)
  {
    var lo, hi := 0, |offsets| - 1;
    while lo < hi
      invariant 0 <= lo <= hi < |offsets|
      invariant lo > 0 ==> offsets[lo].start <= line
      invariant forall i :: hi < i < |offsets| ==> line < offsets[i].start
    {
      var mid := (lo + hi + 1) / 2;
      if offsets[mid].start <= line {
        lo := mid;
      } else {
        hi := mid - 1;
      }
    }
    if Covers(offsets[lo], line) {
      r := Some((lo, line - offsets[lo].start + 1));
    } else {
      r := None;
    }
  }

  /** The table of an amalgamation is fit for the search. */
  lemma {:induction false} OffsetsAreSorted(files: seq<Source>)
    ensures Sorted(OffsetsOf(files, |files|)) && forall i :: 0 <= i < |files| ==> OffsetsOf(files, |files|)[i].lines > 0
  {
    forall i, j | 0 <= i < j < |files|
      ensures OffsetAt(files, i).start + OffsetAt(files, i).lines < OffsetAt(files, j).start {
      SegmentsIncrease(Counts(files), i, j);
    }
    forall i | 0 <= i < |files| ensures OffsetAt(files, i).lines > 0 {
      NoFileIsEmpty(files[i]);
    }
  }

  /** A line of the amalgam is a line of at most one file. */
  lemma {:induction false} OriginIsUnique(counts: seq<nat>, line: int, i: nat, k: int, j: nat, l: int)
    requires ComesFrom(counts, line, i, k) && ComesFrom(counts, line, j, l)
    ensures i == j && k == l
  {
    if i < j { SegmentsIncrease(counts, i, j); }
    if j < i { SegmentsIncrease(counts, j, i); }
  }

  /** Mapping back inverts the amalgamation: the line of line `k` of file `i` goes to (i, k), and a line
      that is no file's stays. */
  method RemapAmalgam(files: seq<Source>, line: int) returns (r: Option<(nat, int)>)
    requires files != []
    ensures forall i: nat, k :: r == Some((i, k)) <==> ComesFrom(Counts(files), line, i, k)
  {
    var out, offsets := Build(files, HEADER);
    OffsetsAreSorted(files);
    r := Remap(offsets, line);
    forall i: nat, k ensures r == Some((i, k)) <==> ComesFrom(Counts(files), line, i, k) {
      if ComesFrom(Counts(files), line, i, k) {
        assert Covers(offsets[i], line);
        OriginIsUnique(Counts(files), line, i, k, r.value.0, r.value.1);
      }
    }
  }

  /** The line of the marker before file `i`. */
  predicate IsMarker(counts: seq<nat>, line: int, i: nat) {
    i < |counts| && line == LinesSoFar(counts, i) + 1
  }

  /** Every line of the amalgam is the header, a marker, or a line of a file. */
  lemma {:induction false} EveryLineHasAnOrigin(counts: seq<nat>, n: nat, line: int)
    requires n <= |counts| && 1 <= line <= LinesSoFar(counts, n)
    ensures line == 1 || (exists i :: IsMarker(counts, line, i)) || (exists i, k :: ComesFrom(counts, line, i, k))
  {
    if n > 0 {
      if line <= LinesSoFar(counts, n - 1) {
        EveryLineHasAnOrigin(counts, n - 1, line);
      } else if line == LinesSoFar(counts, n - 1) + 1 {
        assert IsMarker(counts, line, n - 1);
      } else {
        assert ComesFrom(counts, line, n - 1, line - LinesSoFar(counts, n - 1) - 1);
      }
    }
  }

  /** The header and the markers are no file's lines. */
  lemma {:induction false} MarkersBelongToNoFile(counts: seq<nat>, line: int, i: nat, j: nat, k: int)
    requires ComesFrom(counts, line, j, k)
    ensures line > 1 && !IsMarker(counts, line, i)
  {
    SoFarGrows(counts, 0, j);
    if i < |counts| {
      if j < i { SegmentsIncrease(counts, j, i); }
      if i < j { SegmentsIncrease(counts, i, j); }
    }
  }
}
