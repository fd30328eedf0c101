// What merge leaves alone, and when merging twice is merging once, for every dictionary
// of updates: ill-formed and secret keys and values with line breaks included.

module EnvStability {
  import opened Basics
  import opened EnvFile

  // ----- a line as text -----

  // The lines that a line of the result reads back as.
  function Pieces(line: string): seq<string> {
    SplitLines(line + "\n")
  }

  function AllPieces(lines: seq<string>): seq<string> {
    if lines == [] then [] else Pieces(lines[0]) + AllPieces(lines[1..])
  }

  lemma {:induction false} LineEndWithin(l: string, rest: string)
    requires LineEnd(l) < |l|
    ensures LineEnd(l + rest) == LineEnd(l)
  {
    if !Boundary(l[0]) {
      assert (l + rest)[1..] == l[1..] + rest;
      LineEndWithin(l[1..], rest);
    }
  }

  lemma BreakWithin(l: string, rest: string, n: nat)
    requires n < |l|
    ensures BreakLength(l + "\n" + rest, n) == BreakLength(l + "\n", n)
    ensures n + BreakLength(l + "\n", n) <= |l| || (n + 1 == |l| && BreakLength(l + "\n", n) == 2)
  {
  }

  lemma SplitAt(s: string, n: nat, k: nat)
    requires s != "" && LineEnd(s) == n && BreakLength(s, n) == k
    ensures n + k <= |s| && SplitLines(s) == [s[..n]] + SplitLines(s[n + k..])
  {
  }

  // A line feed ends a line whatever stands before it.
  lemma {:induction false} SplitTerminated(l: string, rest: string)
    ensures SplitLines(l + "\n" + rest) == Pieces(l) + SplitLines(rest)
    decreases |l|
  {
    hide SplitLines, LineEnd, BreakLength, Clean;
    var s, t, n := l + "\n" + rest, l + "\n", LineEnd(l);
    if n == |l| {
      assert l[..n] == l;
      SplitFirst(l, rest);
      SplitFirst(l, "");
      SplitNothing();
      assert l + "\n" + "" == t;
    } else {
      assert s == l + ("\n" + rest);
      LineEndWithin(l, "\n" + rest);
      LineEndWithin(l, "\n");
      BreakWithin(l, rest, n);
      var k := BreakLength(t, n);
      SplitAt(s, n, k);
      SplitAt(t, n, k);
      assert s[..n] == t[..n];
      if n + k <= |l| {
        AfterBreak(l, rest, n + k);
        SplitTerminated(l[n + k..], rest);
      } else {
        assert s[n + k..] == rest && t[n + k..] == "";
        SplitNothing();
      }
    }
  }

  lemma AfterBreak(l: string, rest: string, m: nat)
    requires m <= |l|
    ensures (l + "\n" + rest)[m..] == l[m..] + "\n" + rest && (l + "\n")[m..] == l[m..] + "\n"
  {
  }

  lemma {:induction false} SplitJoined(lines: seq<string>)
    requires lines != []
    ensures SplitLines(Join(lines) + "\n") == AllPieces(lines)
  {
    if |lines| == 1 {
      assert AllPieces(lines[1..]) == [];
    } else {
      SplitJoined(lines[1..]);
      SplitTerminated(lines[0], Join(lines[1..]) + "\n");
      assert lines[0] + "\n" + (Join(lines[1..]) + "\n") == Join(lines) + "\n";
    }
  }

  lemma {:induction false} PiecesGrow(lines: seq<string>)
    ensures |AllPieces(lines)| >= |lines|
    ensures |AllPieces(lines)| == |lines| ==> forall i :: 0 <= i < |lines| ==> |Pieces(lines[i])| == 1
  {
    if lines != [] {
      PiecesGrow(lines[1..]);
      assert |Pieces(lines[0])| >= 1;
      assert forall i :: 0 < i < |lines| ==> lines[i] == lines[1..][i - 1];
    }
  }

  lemma {:induction false} PiecesAppend(a: seq<string>, b: seq<string>)
    ensures AllPieces(a + b) == AllPieces(a) + AllPieces(b)
  {
    hide Pieces;
    if a == [] {
      assert a + b == b;
    } else {
      PiecesAppend(a[1..], b);
      assert (a + b)[1..] == a[1..] + b && (a + b)[0] == a[0];
      Regroup(Pieces(a[0]), AllPieces(a[1..]), AllPieces(b));
    }
  }

  // ----- one line -----

  lemma SomeLine(text: string)
    requires text != ""
    ensures SplitLines(text) != []
  {
  }

  // No line break, or only a carriage return at the end, which joins the line feed after it.
  predicate OneLine(l: string) {
    Clean(l) || (l != "" && l[|l| - 1] == '\r' && Clean(l[..|l| - 1]))
  }

  function Chomp(l: string): string {
    if l != "" && l[|l| - 1] == '\r' then l[..|l| - 1] else l
  }

  lemma {:induction false} LineEndAt(l: string, rest: string)
    requires Clean(l) && rest != "" && Boundary(rest[0])
    ensures LineEnd(l + rest) == |l|
  {
    if l != "" {
      assert (l + rest)[1..] == l[1..] + rest;
      LineEndAt(l[1..], rest);
    } else {
      assert l + rest == rest;
    }
  }

  lemma OneLinePieces(l: string)
    requires OneLine(l)
    ensures Pieces(l) == [Chomp(l)]
  {
    if Clean(l) {
      SplitFirst(l, "");
      assert l + "\n" + "" == l + "\n";
    } else {
      var c := l[..|l| - 1];
      assert l + "\n" == c + "\r\n";
      LineEndAt(c, "\r\n");
      SplitAt(c + "\r\n", |c|, 2);
      assert (c + "\r\n")[..|c|] == c && (c + "\r\n")[|c| + 2..] == "";
      SplitNothing();
    }
  }

  lemma OnePieceIsOneLine(l: string)
    requires |Pieces(l)| == 1
    ensures OneLine(l)
  {
    var t, n := l + "\n", LineEnd(l);
    if n == |l| {
      assert l[..n] == l;
    } else {
      LineEndWithin(l, "\n");
      assert t[..n] == l[..n];
      BreakWithin(l, "", n);
      var after := t[n + BreakLength(t, n)..];
      assert |SplitLines(after)| == 0;
      if after != "" {
        SomeLine(after);
      }
    }
  }

  lemma OneLineValue(key: string, value: string)
    requires OneLine(Print(key, value))
    ensures OneLine(value)
  {
    var p := Print(key, value);
    assert p[|key| + 1..] == value;
    forall i | 0 <= i < |value|
      ensures value[i] == p[|key| + 1 + i]
    {
    }
    if !Clean(p) {
      forall i | 0 <= i < |value| - 1
        ensures !Boundary(value[i])
      {
        assert p[..|p| - 1][|key| + 1 + i] == value[i];
      }
    }
  }

  lemma OneLinePrint(key: string, value: string)
    requires IsKey(key) && OneLine(value)
    ensures OneLine(Print(key, value)) && Chomp(Print(key, value)) == Print(key, Chomp(value))
  {
    var p := Print(key, value);
    PrintClean(key, Chomp(value));
    if value != "" && value[|value| - 1] == '\r' {
      assert p[..|p| - 1] == Print(key, Chomp(value));
    }
  }

  // ----- merge is conservative -----

  // The line of the merged text at which the i-th line of the old text lands.
  function Landing(existing: string, u: Env, i: nat): nat
    requires i <= |SplitLines(existing)|
  {
    |AllPieces(MergedLines(SplitLines(existing)[..i], u))|
  }

  lemma {:induction false} OneLinesCount(lines: seq<string>)
    requires forall l :: l in lines ==> OneLine(l)
    ensures |AllPieces(lines)| == |lines|
  {
    hide OneLine, Pieces;
    if lines != [] {
      assert lines[0] in lines;
      OneLinePieces(lines[0]);
      OneLinesCount(lines[1..]);
    }
  }

  // With updates of one line each nothing moves.
  lemma LandsInPlace(existing: string, u: Env, i: nat)
    requires i <= |SplitLines(existing)| && forall a :: a in u ==> OneLine(a.value)
    ensures Landing(existing, u, i) == i
  {
    hide Assign, IsKey, Lookup, OneLine, SplitLines;
    var lines := SplitLines(existing)[..i];
    var result := MergedLines(lines, u);
    forall k | 0 <= k < i
      ensures OneLine(result[k])
    {
      MergedOneLine(existing, u, k);
    }
    OneLinesCount(result);
  }

  lemma MergedOneLine(existing: string, u: Env, k: nat)
    requires k < |SplitLines(existing)| && forall a :: a in u ==> OneLine(a.value)
    ensures OneLine(MergedLine(SplitLines(existing)[k], u))
  {
    hide Assign, IsKey, Lookup;
    var line := SplitLines(existing)[k];
    assert line in SplitLines(existing);
    if Replaced(line, u) {
      var key := Assign(line).value.key;
      KeyOfLine(line);
      LookupIsEntry(u, key);
      OneLinePrint(key, Lookup(u, key).value);
    }
  }

  // Whatever the updates, the merged line of every old line stands, as the lines it reads back
  // as, where that line lands.
  lemma MergeLands(existing: string, u: Env, i: nat)
    requires i < |SplitLines(existing)|
    ensures var now, k := SplitLines(Merge(existing, u)), Landing(existing, u, i);
            var pieces := Pieces(MergedLine(SplitLines(existing)[i], u));
            k + |pieces| <= |now| && now[k..k + |pieces|] == pieces
  {
    hide MergedLine, SplitLines, Tail, Missing, Seen, AllPieces, Pieces, Join;
    var lines := SplitLines(existing);
    var result := MergedLines(lines, u);
    var before, line := MergedLines(lines[..i], u), [MergedLine(lines[i], u)];
    var all := MergeLines(lines, u);
    assert all == before + (line + all[i + 1..]);
    SplitJoined(all);
    PiecesAppend(before, line + all[i + 1..]);
    PiecesAppend(line, all[i + 1..]);
    OnePieces(line[0]);
  }

  lemma OnePieces(line: string)
    ensures AllPieces([line]) == Pieces(line)
  {
    assert [line][1..] == [];
    assert AllPieces([line]) == Pieces(line) + AllPieces([]);
  }

  // Whatever the updates, every line that is no assignment of an updated non-secret key stands
  // unchanged where it lands, comments and blanks among them; every other becomes the update.
  lemma MergeIsConservative(existing: string, u: Env, i: nat)
    requires i < |SplitLines(existing)|
    ensures var was, now, k := SplitLines(existing)[i], SplitLines(Merge(existing, u)), Landing(existing, u, i);
            && k < |now|
            && (!Replaced(was, u) ==> now[k] == was)
            && (Strip(was) == "" || Strip(was)[0] == '#' ==> now[k] == was)
            && (Replaced(was, u) ==>
                 var pieces := Pieces(Print(Assign(was).value.key, Lookup(u, Assign(was).value.key).value));
                 k + |pieces| <= |now| && now[k..k + |pieces|] == pieces)
            && ((forall a :: a in u ==> OneLine(a.value)) ==> k == i)
  {
    hide Strip, Assign, Lookup, SplitLines, Merge, Landing, OneLine, Pieces;
    var was := SplitLines(existing)[i];
    MergeLands(existing, u, i);
    SomePieces(MergedLine(was, u));
    if !Replaced(was, u) {
      CleanLine(existing, i);
    }
    if Assign(was).Some? {
      AssignNotSkipped(was);
    }
    if forall a :: a in u ==> OneLine(a.value) {
      LandsInPlace(existing, u, i);
    }
  }

  lemma SomePieces(line: string)
    ensures |Pieces(line)| > 0
  {
    SomeLine(line + "\n");
  }

  lemma CleanLine(existing: string, i: nat)
    requires i < |SplitLines(existing)|
    ensures Pieces(SplitLines(existing)[i]) == [SplitLines(existing)[i]]
  {
    assert SplitLines(existing)[i] in SplitLines(existing);
    OneLinePieces(SplitLines(existing)[i]);
  }

  // ----- merge is idempotent: what it takes -----

  // Updates that the next merge recognises on the lines they were printed on.
  ghost predicate Recognised(u: Env) {
    forall a :: a in u ==> IsKey(a.key) && a.key !in SECRET_KEYS && OneLine(a.value)
  }

  lemma EntryLookup(u: Env, a: Assignment)
    requires DistinctKeys(u) && a in u
    ensures Lookup(u, a.key) == Some(a.value)
  {
    var i :| 0 <= i < |u| && u[i] == a;
    LookupAt(u, i);
  }

  lemma SeenLine(lines: seq<string>, u: Env, i: nat)
    requires i < |lines| && Replaced(lines[i], u)
    ensures Assign(lines[i]).value.key in Seen(lines, u)
  {
  }

  // A second merge that adds no line saw every key, and every line it printed is one line.
  lemma NothingAdded(lines: seq<string>, u: Env, a: Assignment)
    requires DistinctKeys(u) && a in u && AllPieces(MergeLines(lines, u)) == lines
    ensures IsKey(a.key) && a.key !in SECRET_KEYS && OneLine(a.value)
  {
    hide Assign, Lookup, IsKey, Pieces, AllPieces, Missing, Strip, OneLine, DistinctKeys;
    var result, m := MergedLines(lines, u), Missing(u, Seen(lines, u));
    PiecesGrow(MergeLines(lines, u));
    assert m == [];
    MissingFacts(u, Seen(lines, u));
    assert a.key in Seen(lines, u);
    var i :| 0 <= i < |lines| && Replaced(lines[i], u) && Assign(lines[i]).value.key == a.key;
    EntryLookup(u, a);
    assert MergeLines(lines, u)[i] == Print(a.key, a.value);
    OnePieceIsOneLine(Print(a.key, a.value));
    OneLineValue(a.key, a.value);
    KeyOfLine(lines[i]);
  }

  lemma KeyOfLine(line: string)
    requires Assign(line).Some?
    ensures IsKey(Assign(line).value.key)
  {
  }

  lemma IdempotentNeeds(existing: string, u: Env)
    requires DistinctKeys(u) && Merge(Merge(existing, u), u) == Merge(existing, u)
    ensures Recognised(u)
  {
    hide SplitLines, Join, DistinctKeys, MergeLines, AllPieces, IsKey, OneLine;
    var once := Merge(existing, u);
    var lines := SplitLines(once);
    SomeLine(once);
    LinesStay(lines, u);
    SplitJoined(MergeLines(lines, u));
    forall a | a in u
      ensures IsKey(a.key) && a.key !in SECRET_KEYS && OneLine(a.value)
    {
      NothingAdded(lines, u, a);
    }
  }

  lemma LinesStay(lines: seq<string>, u: Env)
    ensures |MergeLines(lines, u)| >= |lines|
  {
  }

  // ----- and that it suffices -----

  // The line reads back as one line, from which the merge makes the same line again.
  predicate Stable(l: string, u: Env) {
    OneLine(l) && MergedLine(Chomp(l), u) == l
  }

  lemma EntryStable(u: Env, a: Assignment)
    requires DistinctKeys(u) && Recognised(u) && a in u
    ensures Stable(Print(a.key, a.value), u)
    ensures var l := Chomp(Print(a.key, a.value)); Replaced(l, u) && Assign(l).value.key == a.key
  {
    hide Assign, Lookup, OneLine, Chomp, IsKey, DistinctKeys;
    OneLinePrint(a.key, a.value);
    AssignPrint(a.key, Chomp(a.value));
    EntryLookup(u, a);
  }

  lemma HeaderLines(u: Env)
    ensures MergedLine("", u) == "" && MergedLine(HEADER, u) == HEADER
  {
    HeaderFacts();
  }

  lemma CleanStable(line: string, u: Env)
    requires Clean(line) && !Replaced(line, u)
    ensures Stable(line, u)
  {
  }

  lemma HeaderStable(u: Env)
    ensures Stable("", u) && Stable(HEADER, u)
  {
    HeaderClean();
    HeaderFacts();
    CleanStable("", u);
    CleanStable(HEADER, u);
  }

  lemma MergedStable(lines: seq<string>, u: Env)
    requires DistinctKeys(u) && Recognised(u) && forall l :: l in lines ==> Clean(l)
    ensures forall l :: l in MergeLines(lines, u) ==> Stable(l, u)
  {
    hide Assign, Strip, Seen, Missing, Lookup, Stable, Clean, Recognised, DistinctKeys, IsKey;
    var merged := MergeLines(lines, u);
    var m := Missing(u, Seen(lines, u));
    MissingFacts(u, Seen(lines, u));
    HeaderStable(u);
    forall i | 0 <= i < |merged|
      ensures Stable(merged[i], u)
    {
      if i < |lines| {
        assert lines[i] in lines;
        if Replaced(lines[i], u) {
          var key := Assign(lines[i]).value.key;
          LookupIsEntry(u, key);
          EntryStable(u, Assignment(key, Lookup(u, key).value));
        } else {
          CleanStable(lines[i], u);
        }
      } else if merged[i] != "" && merged[i] != HEADER {
        var k := i - (|merged| - |m|);
        assert merged[i] == Printed(m)[k];
        assert m[k] in m;
        EntryStable(u, m[k]);
      }
    }
  }

  function Chomped(lines: seq<string>): (r: seq<string>)
    ensures |r| == |lines| && forall i :: 0 <= i < |lines| ==> r[i] == Chomp(lines[i])
  {
    seq(|lines|, i requires 0 <= i < |lines| => Chomp(lines[i]))
  }

  lemma {:induction false} StablePieces(lines: seq<string>, u: Env)
    requires forall l :: l in lines ==> Stable(l, u)
    ensures AllPieces(lines) == Chomped(lines)
  {
    if lines != [] {
      assert lines[0] in lines && Stable(lines[0], u);
      OneLinePieces(lines[0]);
      StablePieces(lines[1..], u);
      assert Chomped(lines) == [Chomp(lines[0])] + Chomped(lines[1..]);
    }
  }

  // After a merge every update stands on some line.
  lemma UpdateStands(lines: seq<string>, u: Env, a: Assignment) returns (i: nat)
    requires DistinctKeys(u) && a in u
    ensures i < |MergeLines(lines, u)| && MergeLines(lines, u)[i] == Print(a.key, a.value)
  {
    hide Assign, Strip, Missing, Lookup, DistinctKeys;
    var merged := MergeLines(lines, u);
    var m := Missing(u, Seen(lines, u));
    MissingFacts(u, Seen(lines, u));
    EntryLookup(u, a);
    if a.key in Seen(lines, u) {
      i :| 0 <= i < |lines| && Replaced(lines[i], u) && Assign(lines[i]).value.key == a.key;
      assert merged[i] == MergedLine(lines[i], u);
    } else {
      var k :| 0 <= k < |m| && m[k] == a;
      i := |merged| - |m| + k;
      assert merged[i] == Printed(m)[k];
    }
  }

  lemma NothingMissingAgain(lines: seq<string>, u: Env)
    requires DistinctKeys(u) && Recognised(u)
    ensures Missing(u, Seen(Chomped(MergeLines(lines, u)), u)) == []
  {
    hide MergeLines, Missing, Assign, DistinctKeys, Recognised, Chomp, Replaced;
    var again := Chomped(MergeLines(lines, u));
    MissingFacts(u, Seen(again, u));
    forall a | a in u
      ensures a.key in Seen(again, u)
    {
      var i := UpdateStands(lines, u, a);
      EntryStable(u, a);
      SeenLine(again, u, i);
    }
    if Missing(u, Seen(again, u)) != [] {
      MissingFirstIn(u, Seen(again, u));
      assert false;
    }
  }

  lemma MissingFirstIn(u: Env, seen: set<string>)
    requires DistinctKeys(u) && Missing(u, seen) != []
    ensures exists a :: a in u && a.key !in seen
  {
    MissingFacts(u, seen);
    assert Missing(u, seen)[0] in Missing(u, seen);
  }

  lemma RecognisedSuffices(existing: string, u: Env)
    requires DistinctKeys(u) && Recognised(u)
    ensures Merge(Merge(existing, u), u) == Merge(existing, u)
  {
    hide SplitLines, Join, DistinctKeys, Recognised, MergedLine, Seen, Missing, AllPieces, Stable, Strip, Chomp;
    var lines := SplitLines(existing);
    var merged := MergeLines(lines, u);
    if merged == [] {
      NothingMerged(existing, u);
      EmptyMerge();
    } else {
      MergedStable(lines, u);
      StablePieces(merged, u);
      SplitJoined(merged);
      var again := Chomped(merged);
      NothingMissingAgain(lines, u);
      forall i | 0 <= i < |merged|
        ensures MergedLine(again[i], u) == merged[i]
      {
        StableAgain(merged[i], u);
      }
      assert MergedLines(again, u) == merged;
      assert MergeLines(again, u) == merged;
    }
  }

  lemma StableAgain(l: string, u: Env)
    requires Stable(l, u)
    ensures MergedLine(Chomp(l), u) == l
  {
  }

  lemma NothingMerged(existing: string, u: Env)
    requires MergeLines(SplitLines(existing), u) == []
    ensures existing == "" && u == []
  {
    SeenNothing(u);
    NothingMissing(u);
  }

  lemma EmptyMerge()
    ensures Merge("", []) == "\n" && Merge("\n", []) == "\n"
  {
    SplitFirst("", "");
    assert "" + "\n" + "" == "\n";
    assert SplitLines("\n") == [""];
    HeaderLines([]);
    assert MergedLines([""], []) == [""];
    assert MergedLines([], []) == [];
  }

  // Merging twice gives the same text if and only if every key has the form of a key and is
  // not secret and every value is one line: any other update is appended, or breaks into
  // more lines, again every time.
  lemma MergeIsIdempotentIff(existing: string, u: Env)
    requires DistinctKeys(u)
    ensures Merge(Merge(existing, u), u) == Merge(existing, u) <==>
            forall a :: a in u ==> IsKey(a.key) && a.key !in SECRET_KEYS && OneLine(a.value)
  {
    hide Merge, DistinctKeys;
    assert Recognised(u) <==> forall a :: a in u ==> IsKey(a.key) && a.key !in SECRET_KEYS && OneLine(a.value);
    hide Recognised;
    if Recognised(u) {
      RecognisedSuffices(existing, u);
    } else if Merge(Merge(existing, u), u) == Merge(existing, u) {
      IdempotentNeeds(existing, u);
    }
  }

  // So the merge of parsed updates is always idempotent.
  lemma MergeIsIdempotent(existing: string, source: string)
    ensures Merge(Merge(existing, ParseEnv(source)), ParseEnv(source)) == Merge(existing, ParseEnv(source))
  {
    hide Merge, ParseEnv;
    ParsedAreValid(source);
    MergeIsIdempotentIff(existing, ParseEnv(source));
  }
}
