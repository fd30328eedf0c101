// The env merger told from its texts: which lines assign a key, what is never taken over,
// what parse_env makes of a file and what merge writes, down to the characters.

module EnvText {
  import opened Basics
  import opened EnvFile
  import opened EnvStability

  // ----- characters -----

  // A letter or an underscore, then letters, digits and underscores.
  predicate Identifier(key: string) {
    && |key| > 0 && ('A' <= key[0] <= 'Z' || 'a' <= key[0] <= 'z' || key[0] == '_')
    && forall i :: 0 <= i < |key| ==> 'A' <= key[i] <= 'Z' || 'a' <= key[i] <= 'z' || '0' <= key[i] <= '9' || key[i] == '_'
  }

  lemma KeyForm(key: string)
    ensures IsKey(key) <==> Identifier(key)
  {
  }

  // The code points at which str.splitlines breaks ..
  predicate Breaks(c: char) {
    var n := c as int;
    10 <= n <= 13 || 28 <= n <= 30 || n == 133 || n == 8232 || n == 8233
  }

  // .. and those that str.strip removes.
  predicate White(c: char) {
    var n := c as int;
    || 9 <= n <= 13 || 28 <= n <= 32 || n == 133 || n == 160 || n == 5760 || 8192 <= n <= 8202
    || n == 8232 || n == 8233 || n == 8239 || n == 8287 || n == 12288
  }

  // A line ends at the first break; a carriage return takes the line feed after it along, and
  // text after the last break is a line of its own.
  lemma LinesEndAtBreaks(l: string, c: char, rest: string)
    requires forall i :: 0 <= i < |l| ==> !Breaks(l[i])
    ensures SplitLines(l) == if l == "" then [] else [l]
    ensures Breaks(c) && !(c == '\r' && rest != "" && rest[0] == '\n') ==> SplitLines(l + [c] + rest) == [l] + SplitLines(rest)
    ensures SplitLines(l + ['\r', '\n'] + rest) == [l] + SplitLines(rest)
  {
    hide SplitLines, Boundary, Breaks, BreakLength;
    NoneBreaks(l);
    if l == "" {
      SplitNothing();
    } else {
      LastLine(l);
    }
    if Breaks(c) && !(c == '\r' && rest != "" && rest[0] == '\n') {
      BreakIsOne(l, c, rest);
      BreakAt(l, [c], rest, 1);
    }
    BreakIsTwo(l, rest);
    BreakAt(l, ['\r', '\n'], rest, 2);
  }

  lemma NoneBreaks(l: string)
    ensures (forall i :: 0 <= i < |l| ==> !Breaks(l[i])) <==> Clean(l)
  {
    forall i | 0 <= i < |l|
      ensures Breaks(l[i]) <==> Boundary(l[i])
    {
    }
  }

  lemma BreakIsOne(l: string, c: char, rest: string)
    requires Breaks(c) && !(c == '\r' && rest != "" && rest[0] == '\n')
    ensures Boundary(c) && BreakLength(l + [c] + rest, |l|) == 1
  {
    assert (l + [c] + rest)[|l|] == c;
    assert rest != "" ==> (l + [c] + rest)[|l| + 1] == rest[0];
  }

  lemma BreakIsTwo(l: string, rest: string)
    ensures Boundary('\r') && BreakLength(l + ['\r', '\n'] + rest, |l|) == 2
  {
    assert (l + ['\r', '\n'] + rest)[|l|] == '\r' && (l + ['\r', '\n'] + rest)[|l| + 1] == '\n';
  }

  lemma LastLine(l: string)
    requires Clean(l) && l != ""
    ensures SplitLines(l) == [l]
  {
    NoBreak(l);
    SplitAt(l, |l|, 0);
    SplitNothing();
    assert l[..|l|] == l && l[|l|..] == "";
  }

  lemma BreakAt(l: string, b: string, rest: string, k: nat)
    requires Clean(l) && |b| == k && b != "" && Boundary(b[0]) && BreakLength(l + b + rest, |l|) == k
    ensures SplitLines(l + b + rest) == [l] + SplitLines(rest)
  {
    hide SplitLines, Boundary;
    var s := l + b + rest;
    assert s == l + (b + rest) && (b + rest)[0] == b[0];
    LineEndAt(l, b + rest);
    SplitAt(s, |l|, k);
    assert s[..|l|] == l && s[|l| + k..] == rest;
  }

  lemma {:induction false} NoBreak(l: string)
    requires Clean(l)
    ensures LineEnd(l) == |l|
  {
    if l != "" {
      NoBreak(l[1..]);
    }
  }

  predicate AllWhite(l: string) {
    forall i :: 0 <= i < |l| ==> White(l[i])
  }

  // Stripping leaves nothing exactly of a line that is all white.
  lemma StripsToNothing(l: string)
    ensures Strip(l) == "" <==> AllWhite(l)
  {
    assert forall c :: White(c) <==> IsSpace(c);
    LstripNothing(l);
    if Lstrip(l) != "" {
      assert !IsSpace(Lstrip(l)[0]);
      assert Rstrip(Lstrip(l)) != "";
    }
  }

  lemma {:induction false} LstripNothing(l: string)
    ensures Lstrip(l) == "" <==> forall i :: 0 <= i < |l| ==> IsSpace(l[i])
    ensures Lstrip(l) != "" ==> !IsSpace(Lstrip(l)[0])
  {
    if l != "" && IsSpace(l[0]) {
      LstripNothing(l[1..]);
      assert forall i :: 0 < i < |l| ==> l[i] == l[1..][i - 1];
    }
  }

  // ----- which lines assign a key -----

  predicate Assigns(line: string, key: string) {
    Identifier(key) && key + "=" <= line
  }

  lemma AssignIff(line: string, key: string)
    ensures Assigns(line, key) <==> Assign(line).Some? && Assign(line).value.key == key
    ensures Assigns(line, key) ==> Assign(line).value.value == line[|key| + 1..]
  {
    KeyForm(key);
    if Assigns(line, key) {
      assert line == Print(key, line[|key| + 1..]);
      AssignPrint(key, line[|key| + 1..]);
    }
  }

  // The keys that are never taken over.
  predicate Withheld(key: string) {
    || key == "DATABASE_URL" || key == "VALKEY_URL" || key == "SPACES_CREDENTIALS_JSON" || key == "LLM_CREDENTIALS_JSON"
    || key == "DIGITALOCEAN_TOKEN" || key == "DIGITALOCEAN_ACCESS_ID" || key == "DIGITALOCEAN_SECRET_KEY"
    || key == "SPACES_ACCESS_ID" || key == "SPACES_SECRET_KEY"
  }

  lemma DefinesIff(line: string, key: string)
    ensures Defines(line, key) <==> Assigns(line, key) && !Withheld(key)
  {
    AssignIff(line, key);
  }

  // ----- what parse_env makes of a text -----

  // Some line assigns the key, and it is none of the nine.
  ghost predicate Stands(lines: seq<string>, key: string) {
    !Withheld(key) && exists i :: 0 <= i < |lines| && Assigns(lines[i], key)
  }

  // These are the keys that are parsed.
  lemma ParsedIff(text: string, key: string)
    ensures key in Keys(ParseEnv(text)) <==> Stands(SplitLines(text), key)
  {
    hide SplitLines, Withheld, Assigns, Defines, ParseLines, Keys;
    var lines := SplitLines(text);
    ParsedKeys([], lines, key);
    NoKeys(key);
    forall i | 0 <= i < |lines|
      ensures Defines(lines[i], key) <==> Assigns(lines[i], key) && !Withheld(key)
    {
      DefinesIff(lines[i], key);
    }
    if Defined(lines, key) {
      var i :| 0 <= i < |lines| && Defines(lines[i], key);
      assert Assigns(lines[i], key);
    }
    if Stands(lines, key) {
      var i :| 0 <= i < |lines| && Assigns(lines[i], key);
      assert Defines(lines[i], key);
    }
  }

  lemma ParseLast(lines: seq<string>)
    requires lines != []
    ensures ParseLines([], lines) == ParseLine(ParseLines([], lines[..|lines| - 1]), lines[|lines| - 1])
  {
    hide ParseLine;
    var before, last := lines[..|lines| - 1], lines[|lines| - 1];
    ParseAppend([], before, [last]);
    assert lines == before + [last] && [last][1..] == [];
  }

  lemma LineSets(out: Env, line: string, key: string)
    ensures Lookup(ParseLine(out, line), key) == if Defines(line, key) then Some(Assign(line).value.value) else Lookup(out, key)
  {
    hide Strip, Assign, Lookup, SetKey;
    if Assign(line).Some? {
      AssignNotSkipped(line);
      LookupSet(out, Assign(line).value.key, Assign(line).value.value, key);
    }
  }

  lemma {:induction false} LastLineWins(lines: seq<string>, key: string, i: nat)
    requires i < |lines| && Defines(lines[i], key) && forall k :: i < k < |lines| ==> !Defines(lines[k], key)
    ensures Lookup(ParseLines([], lines), key) == Some(Assign(lines[i]).value.value)
  {
    hide ParseLine, ParseLines, Lookup, Defines, Assign;
    var before, last := lines[..|lines| - 1], lines[|lines| - 1];
    ParseLast(lines);
    LineSets(ParseLines([], before), last, key);
    if i < |before| {
      LastLineWins(before, key, i);
    }
  }

  // Its value is what the last line that assigns it has after the equals sign.
  lemma ParsedValue(text: string, key: string, i: nat)
    requires i < |SplitLines(text)| && !Withheld(key) && Assigns(SplitLines(text)[i], key)
    requires forall k :: i < k < |SplitLines(text)| ==> !Assigns(SplitLines(text)[k], key)
    ensures Lookup(ParseEnv(text), key) == Some(SplitLines(text)[i][|key| + 1..])
  {
    hide SplitLines, ParseLines, Lookup, Assigns, Assign, Withheld, Defines;
    var lines := SplitLines(text);
    forall k | 0 <= k < |lines|
      ensures Defines(lines[k], key) <==> Assigns(lines[k], key)
    {
      DefinesIff(lines[k], key);
    }
    LastLineWins(lines, key, i);
    AssignIff(lines[i], key);
  }

  lemma {:induction false} SetKeyPlaces(d: Env, key: string, value: string)
    requires key in Keys(d)
    ensures |SetKey(d, key, value)| == |d| && forall i :: 0 <= i < |d| ==> SetKey(d, key, value)[i].key == d[i].key
  {
    if d[0].key != key {
      assert forall a :: a in d <==> a == d[0] || a in d[1..];
      SetKeyPlaces(d[1..], key, value);
    }
  }

  // The first line that assigns the key.
  ghost predicate FirstAt(lines: seq<string>, key: string, n: nat) {
    n < |lines| && Defines(lines[n], key) && forall m :: 0 <= m < n ==> !Defines(lines[m], key)
  }

  // Keys come in the order of the lines that first assign them.
  lemma {:induction false} FirstSeenFirst(lines: seq<string>, i: nat, k: nat) returns (n: nat, m: nat)
    requires i < k < |ParseLines([], lines)|
    ensures n < m && FirstAt(lines, ParseLines([], lines)[i].key, n) && FirstAt(lines, ParseLines([], lines)[k].key, m)
  {
    hide ParseLine, ParseLines, Keys, Defines, Assign;
    var d := ParseLines([], lines);
    if lines == [] {
      NoLines();
      assert false;
    } else {
      var before, last := lines[..|lines| - 1], lines[|lines| - 1];
      var d0 := ParseLines([], before);
      ParseLast(lines);
      PlacesKept(d0, last);
      if k < |d0| {
        n, m := FirstSeenFirst(before, i, k);
        assert forall x :: 0 <= x < |before| ==> before[x] == lines[x];
      } else {
        n := FirstLine(before, d0[i].key);
        m := |lines| - 1;
        ParsedKeys([], before, d[k].key);
        NoKeys(d[k].key);
        assert forall x :: 0 <= x < |before| ==> before[x] == lines[x];
      }
    }
  }

  lemma NoLines()
    ensures ParseLines([], []) == []
  {
  }

  lemma NoKeys(key: string)
    ensures key !in Keys([])
  {
  }

  // A line leaves every key in its place and adds at most its own, at the end.
  lemma PlacesKept(d: Env, line: string)
    ensures var d' := ParseLine(d, line);
            && |d| <= |d'| <= |d| + 1 && (forall i :: 0 <= i < |d| ==> d'[i].key == d[i].key && d[i].key in Keys(d))
            && (|d'| > |d| ==> Defines(line, d'[|d|].key) && d'[|d|].key !in Keys(d))
  {
    hide Strip, Assign, SetKey, Keys;
    forall i | 0 <= i < |d|
      ensures d[i].key in Keys(d)
    {
      KeyIn(d, i);
    }
    var a := Assign(line);
    if a.Some? {
      AssignNotSkipped(line);
      if a.value.key in Keys(d) {
        SetKeyPlaces(d, a.value.key, a.value.value);
      } else {
        SetKeyNew(d, a.value.key, a.value.value);
      }
    }
  }

  lemma FirstLine(lines: seq<string>, key: string) returns (n: nat)
    requires key in Keys(ParseLines([], lines))
    ensures FirstAt(lines, key, n)
  {
    hide Defines, ParseLines, Keys;
    ParsedKeys([], lines, key);
    NoKeys(key);
    n :| n < |lines| && Defines(lines[n], key);
    while exists m :: 0 <= m < n && Defines(lines[m], key)
      invariant n < |lines| && Defines(lines[n], key)
      decreases n
    {
      var m: nat :| m < n && Defines(lines[m], key);
      n := m;
    }
  }

  // The parsed keys come in the order of the lines that first assign them.
  lemma ParsedOrder(text: string, i: nat, k: nat) returns (n: nat, m: nat)
    requires i < k < |ParseEnv(text)|
    ensures n < m < |SplitLines(text)|
    ensures Assigns(SplitLines(text)[n], ParseEnv(text)[i].key)
    ensures forall x :: 0 <= x < m ==> !Assigns(SplitLines(text)[x], ParseEnv(text)[k].key)
  {
    hide SplitLines, ParseLines, Assigns, Assign, Withheld, Defines;
    var lines := SplitLines(text);
    n, m := FirstSeenFirst(lines, i, k);
    DefinesIff(lines[n], ParseEnv(text)[i].key);
    DefinesIff(lines[m], ParseEnv(text)[k].key);
    forall x | 0 <= x < m
      ensures !Assigns(lines[x], ParseEnv(text)[k].key)
    {
      DefinesIff(lines[x], ParseEnv(text)[k].key);
    }
  }

  // ----- what merge does to a line -----

  lemma ReplacedIff(line: string, u: Env, key: string)
    requires Assigns(line, key)
    ensures Replaced(line, u) <==> !Withheld(key) && Lookup(u, key).Some?
    ensures Replaced(line, u) ==> MergedLine(line, u) == key + "=" + Lookup(u, key).value
  {
    hide Lookup;
    AssignIff(line, key);
  }

  // Secrets are never taken over: for every text and every dictionary of updates none of the
  // nine keys is parsed, and every line that assigns one of them stands unchanged, at its
  // own index if the updates are of one line each.
  lemma SecretsStay(existing: string, u: Env, key: string, i: nat)
    requires Withheld(key)
    ensures key !in Keys(ParseEnv(existing))
    ensures i < |SplitLines(existing)| && Assigns(SplitLines(existing)[i], key) ==>
              var now, k := SplitLines(Merge(existing, u)), Landing(existing, u, i);
              k < |now| && now[k] == SplitLines(existing)[i] && ((forall a :: a in u ==> OneLine(a.value)) ==> k == i)
  {
    hide SplitLines, ParseEnv, Merge, Landing, Assigns, Withheld, Replaced, Strip, OneLine;
    ParsedIff(existing, key);
    if i < |SplitLines(existing)| && Assigns(SplitLines(existing)[i], key) {
      ReplacedIff(SplitLines(existing)[i], u, key);
      MergeIsConservative(existing, u, i);
    }
  }

  // Every line that assigns any other key with an update becomes the update.
  lemma UpdatesLand(existing: string, u: Env, key: string, i: nat)
    requires !Withheld(key) && Lookup(u, key).Some?
    requires i < |SplitLines(existing)| && Assigns(SplitLines(existing)[i], key)
    ensures var now, k := SplitLines(Merge(existing, u)), Landing(existing, u, i);
            var update := SplitLines(key + "=" + Lookup(u, key).value + "\n");
            && k + |update| <= |now| && now[k..k + |update|] == update
            && ((forall a :: a in u ==> OneLine(a.value)) ==> k == i)
            && (Clean(Lookup(u, key).value) ==> update == [key + "=" + Lookup(u, key).value])
  {
    hide SplitLines, Merge, Landing, Assign, Withheld, Replaced, Strip, Lookup, Clean, OneLine, IsKey;
    ReplacedIff(SplitLines(existing)[i], u, key);
    MergeLands(existing, u, i);
    MergeIsConservative(existing, u, i);
    if Clean(Lookup(u, key).value) {
      KeyForm(key);
      PrintClean(key, Lookup(u, key).value);
      SplitFirst(Print(key, Lookup(u, key).value), "");
      SplitNothing();
      assert Print(key, Lookup(u, key).value) + "\n" + "" == Print(key, Lookup(u, key).value) + "\n";
    }
  }

  // Lines that assign no updated key, comments and blanks among them, stand unchanged.
  lemma OtherLinesStay(existing: string, u: Env, i: nat)
    requires i < |SplitLines(existing)|
    requires forall a :: a in u ==> !Assigns(SplitLines(existing)[i], a.key)
    ensures var now, k := SplitLines(Merge(existing, u)), Landing(existing, u, i);
            && k < |now| && now[k] == SplitLines(existing)[i]
            && ((forall a :: a in u ==> OneLine(a.value)) ==> k == i)
  {
    hide SplitLines, Merge, Landing, Strip, OneLine, Lookup, Assigns, Assign;
    var was := SplitLines(existing)[i];
    MergeIsConservative(existing, u, i);
    if Replaced(was, u) {
      var key := Assign(was).value.key;
      AssignIff(was, key);
      LookupIsEntry(u, key);
      assert false;
    }
  }

  // ----- what merge appends -----

  lemma SeenIff(lines: seq<string>, u: Env, a: Assignment)
    requires DistinctKeys(u) && a in u
    ensures a.key in Seen(lines, u) <==> Stands(lines, a.key)
  {
    hide Assigns, Withheld, Assign, Lookup, DistinctKeys, Replaced;
    EntryLookup(u, a);
    if Stands(lines, a.key) {
      var i :| 0 <= i < |lines| && Assigns(lines[i], a.key);
      ReplacedIff(lines[i], u, a.key);
      AssignIff(lines[i], a.key);
      assert a.key in Seen(lines, u);
    }
    if a.key in Seen(lines, u) {
      var i := SeenAt(lines, u, a.key);
      ReplacedAssigns(lines[i], u);
      ReplacedIff(lines[i], u, a.key);
    }
  }

  lemma SeenAt(lines: seq<string>, u: Env, key: string) returns (i: nat)
    requires key in Seen(lines, u)
    ensures i < |lines| && Replaced(lines[i], u) && Assign(lines[i]).value.key == key
  {
    i :| 0 <= i < |lines| && Replaced(lines[i], u) && Assign(lines[i]).value.key == key;
  }

  lemma ReplacedAssigns(line: string, u: Env)
    requires Replaced(line, u)
    ensures Assign(line).Some? && Assigns(line, Assign(line).value.key)
  {
    AssignIff(line, Assign(line).value.key);
  }

  // The appended updates are those that replace no line, in their own order.
  lemma {:induction false} MissingInOrder(u: Env, seen: set<string>, i: nat, k: nat) returns (a: nat, b: nat)
    requires i < k < |Missing(u, seen)|
    ensures a < b < |u| && u[a] == Missing(u, seen)[i] && u[b] == Missing(u, seen)[k]
  {
    var first := if u[0].key in seen then 0 else 1;
    if i < first {
      a := 0;
      b := MissingAt(u[1..], seen, k - 1);
      b := b + 1;
    } else {
      a, b := MissingInOrder(u[1..], seen, i - first, k - first);
      a, b := a + 1, b + 1;
    }
  }

  lemma {:induction false} MissingAt(u: Env, seen: set<string>, k: nat) returns (b: nat)
    requires k < |Missing(u, seen)|
    ensures b < |u| && u[b] == Missing(u, seen)[k]
  {
    if u[0].key !in seen && k == 0 {
      b := 0;
    } else {
      b := MissingAt(u[1..], seen, if u[0].key in seen then k else k - 1);
      b := b + 1;
    }
  }

  // Each line of the result is followed by a line feed.
  function Written(lines: seq<string>): string {
    if lines == [] then "" else lines[0] + "\n" + Written(lines[1..])
  }

  lemma {:induction false} JoinWrites(lines: seq<string>)
    requires lines != []
    ensures Join(lines) + "\n" == Written(lines)
  {
    if |lines| > 1 {
      JoinWrites(lines[1..]);
      assert lines[0] + "\n" + Join(lines[1..]) + "\n" == lines[0] + "\n" + (Join(lines[1..]) + "\n");
    } else {
      assert Written(lines[1..]) == "" && lines[0] + "\n" + "" == lines[0] + "\n";
    }
  }

  // The lines after the old ones: if any update replaces no line, an empty line exactly when the
  // last merged line is not all white, the header, and then `key=value` for each such update.
  lemma TailLines(result: seq<string>, added: Env)
    ensures var tail := Tail(result, added);
            if added == [] then tail == []
            else
              var blank := if result != [] && !AllWhite(result[|result| - 1]) then [""] else [];
              var header := "# --- merged " + "from deploy/staging" + ".nonsecret.env ---";
              && |tail| == |blank| + 1 + |added| && tail[..|blank| + 1] == blank + [header]
              && forall k :: 0 <= k < |added| ==> tail[|blank| + 1 + k] == added[k].key + "=" + added[k].value
  {
    hide Strip, AllWhite;
    if result != [] {
      StripsToNothing(result[|result| - 1]);
    }
  }

  // The updates come in their own order.
  ghost predicate InOrderOf(added: Env, u: Env) {
    forall i, k :: 0 <= i < k < |added| ==> Before(u, added[i], added[k])
  }

  ghost predicate Before(u: Env, x: Assignment, y: Assignment) {
    exists a, b :: 0 <= a < b < |u| && u[a] == x && u[b] == y
  }

  lemma MissingOrdered(u: Env, seen: set<string>)
    ensures InOrderOf(Missing(u, seen), u)
  {
    hide Missing;
    forall i, k | 0 <= i < k < |Missing(u, seen)|
      ensures Before(u, Missing(u, seen)[i], Missing(u, seen)[k])
    {
      var a, b := MissingInOrder(u, seen, i, k);
    }
  }

  // What merge writes: the merged lines, then the lines for the updates that replace none, in
  // their own order, each followed by a line feed; and a line feed when there are no lines.
  lemma MergeWrites(existing: string, u: Env) returns (added: Env)
    requires DistinctKeys(u)
    ensures forall a :: a in added <==> a in u && !Stands(SplitLines(existing), a.key)
    ensures InOrderOf(added, u)
    ensures var result := MergedLines(SplitLines(existing), u);
            Merge(existing, u) == if existing == "" && u == [] then "\n" else Written(result + Tail(result, added))
  {
    hide SplitLines, Strip, Seen, Missing, Stands, DistinctKeys, Join, Assign, Lookup, InOrderOf, MergedLine;
    var lines := SplitLines(existing);
    added := Missing(u, Seen(lines, u));
    MissingFacts(u, Seen(lines, u));
    MissingOrdered(u, Seen(lines, u));
    forall a | a in u
      ensures a.key in Seen(lines, u) <==> Stands(lines, a.key)
    {
      SeenIff(lines, u, a);
    }
    if MergeLines(lines, u) == [] {
      NothingMerged(existing, u);
      JoinNothing();
    } else {
      JoinWrites(MergeLines(lines, u));
      if existing == "" && u == [] {
        SplitNothing();
        SeenNothing(u);
        NothingMissing(u);
        assert false;
      }
    }
  }
}
