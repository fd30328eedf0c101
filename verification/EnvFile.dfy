// The non-secret env merger (merge_nonsecret_env.py): parse_env and merge over texts.

module EnvFile {
  import opened Basics

  // ----- str.splitlines, "\n".join, str.strip -----

  predicate Boundary(c: char) {
    c in {'\n', '\r', '\U{0B}', '\U{0C}', '\U{1C}', '\U{1D}', '\U{1E}', '\U{85}', '\U{2028}', '\U{2029}'}
  }

  predicate Clean(line: string) {
    forall i :: 0 <= i < |line| ==> !Boundary(line[i])
  }

  function LineEnd(s: string): (n: nat)
    ensures n <= |s| && Clean(s[..n]) && (n < |s| ==> Boundary(s[n]))
  {
    if s == "" || Boundary(s[0]) then 0
    else var n := LineEnd(s[1..]); assert s[..n + 1] == [s[0]] + s[1..][..n]; n + 1
  }

  function BreakLength(s: string, n: nat): (k: nat)
    ensures n <= |s| ==> n + k <= |s|
  {
    if n >= |s| then 0 else if s[n] == '\r' && n + 1 < |s| && s[n + 1] == '\n' then 2 else 1
  }

  function SplitLines(s: string): (lines: seq<string>)
    ensures forall l :: l in lines ==> Clean(l)
    decreases |s|
  {
    if s == "" then []
    else var n := LineEnd(s); [s[..n]] + SplitLines(s[n + BreakLength(s, n)..])
  }

  function Join(lines: seq<string>): string {
    if lines == [] then "" else if |lines| == 1 then lines[0] else lines[0] + "\n" + Join(lines[1..])
  }

  predicate IsSpace(c: char) {
    || c in {' ', '\t', '\n', '\r', '\U{0B}', '\U{0C}', '\U{1C}', '\U{1D}', '\U{1E}', '\U{1F}', '\U{85}', '\U{A0}', '\U{1680}'}
    || '\U{2000}' <= c <= '\U{200A}'
    || c in {'\U{2028}', '\U{2029}', '\U{202F}', '\U{205F}', '\U{3000}'}
  }

  function Lstrip(s: string): string {
    if s != "" && IsSpace(s[0]) then Lstrip(s[1..]) else s
  }

  function Rstrip(s: string): (r: string)
    ensures r <= s
    ensures s != "" && !IsSpace(s[0]) ==> r != ""
  {
    if s != "" && IsSpace(s[|s| - 1]) then Rstrip(s[..|s| - 1]) else s
  }

  function Strip(s: string): string {
    Rstrip(Lstrip(s))
  }

  lemma {:induction false} LineEndOfClean(l: string, rest: string)
    requires Clean(l)
    ensures LineEnd(l + "\n" + rest) == |l|
  {
    var s := l + "\n" + rest;
    if l != "" {
      assert s[1..] == l[1..] + "\n" + rest;
      LineEndOfClean(l[1..], rest);
    }
  }

  lemma SplitFirst(l: string, rest: string)
    requires Clean(l)
    ensures SplitLines(l + "\n" + rest) == [l] + SplitLines(rest)
  {
    LineEndOfClean(l, rest);
    var s := l + "\n" + rest;
    assert s[..|l|] == l && s[|l| + 1..] == rest;
  }

  lemma SplitNothing()
    ensures SplitLines("") == []
  {
  }

  // Splitting undoes joining.
  lemma {:induction false} SplitJoin(lines: seq<string>)
    requires lines != [] && forall l :: l in lines ==> Clean(l)
    ensures SplitLines(Join(lines) + "\n") == lines
  {
    hide SplitLines, Clean;
    if |lines| == 1 {
      SplitNothing();
      SplitFirst(lines[0], "");
      assert lines[0] + "\n" + "" == Join(lines) + "\n";
    } else {
      SplitJoin(lines[1..]);
      SplitFirst(lines[0], Join(lines[1..]) + "\n");
      assert lines[0] + "\n" + (Join(lines[1..]) + "\n") == Join(lines) + "\n";
    }
  }

  // ----- the assignment pattern -----

  predicate KeyStart(c: char) {
    'A' <= c <= 'Z' || 'a' <= c <= 'z' || c == '_'
  }

  predicate KeyChar(c: char) {
    KeyStart(c) || '0' <= c <= '9'
  }

  predicate IsKey(k: string) {
    k != "" && KeyStart(k[0]) && forall i :: 0 <= i < |k| ==> KeyChar(k[i])
  }

  function KeyEnd(line: string): (n: nat)
    ensures n <= |line| && (forall i :: 0 <= i < n ==> KeyChar(line[i])) && (n < |line| ==> !KeyChar(line[n]))
  {
    if line == "" || !KeyChar(line[0]) then 0 else KeyEnd(line[1..]) + 1
  }

  datatype Assignment = Assignment(key: string, value: string)

  // `^([A-Za-z_][A-Za-z0-9_]*)=(.*)$` on one line: the key class excludes '=', so the
  // longest run of key characters is the only candidate.
  function Assign(line: string): (r: Option<Assignment>)
    ensures r.Some? ==> IsKey(r.value.key) && line == r.value.key + "=" + r.value.value
  {
    var n := KeyEnd(line);
    if 0 < n < |line| && KeyStart(line[0]) && line[n] == '=' then
      assert line == line[..n] + "=" + line[n + 1..];
      Some(Assignment(line[..n], line[n + 1..]))
    else None
  }

  function Print(key: string, value: string): string {
    key + "=" + value
  }

  lemma {:induction false} KeyEndOfKey(key: string, value: string)
    requires forall i :: 0 <= i < |key| ==> KeyChar(key[i])
    ensures KeyEnd(Print(key, value)) == |key|
  {
    if key != "" {
      assert Print(key, value)[1..] == Print(key[1..], value);
      KeyEndOfKey(key[1..], value);
    }
  }

  // Parsing undoes printing.
  lemma AssignPrint(key: string, value: string)
    requires IsKey(key)
    ensures Assign(Print(key, value)) == Some(Assignment(key, value))
  {
    KeyEndOfKey(key, value);
    var line := Print(key, value);
    assert line[..|key|] == key && line[|key| + 1..] == value;
  }

  // The comment and blank tests never decide about an assignment line.
  lemma AssignNotSkipped(line: string)
    requires Assign(line).Some?
    ensures Strip(line) != "" && Strip(line)[0] != '#'
  {
    assert KeyStart(line[0]) && !IsSpace(line[0]);
    assert Lstrip(line) == line;
  }

  // ----- ordered dictionaries -----

  type Env = seq<Assignment>

  function Lookup(d: Env, key: string): Option<string> {
    if d == [] then None else if d[0].key == key then Some(d[0].value) else Lookup(d[1..], key)
  }

  // `out[key] = value`: a known key keeps its place.
  function SetKey(d: Env, key: string, value: string): Env {
    if d == [] then [Assignment(key, value)]
    else if d[0].key == key then [Assignment(key, value)] + d[1..]
    else [d[0]] + SetKey(d[1..], key, value)
  }

  // `{**d, **u}`
  function Overlay(d: Env, u: Env): Env
    decreases |u|
  {
    if u == [] then d else Overlay(SetKey(d, u[0].key, u[0].value), u[1..])
  }

  const SECRET_KEYS := {
    "DATABASE_URL", "VALKEY_URL", "SPACES_CREDENTIALS_JSON", "LLM_CREDENTIALS_JSON", "DIGITALOCEAN_TOKEN",
    "DIGITALOCEAN_ACCESS_ID", "DIGITALOCEAN_SECRET_KEY", "SPACES_ACCESS_ID", "SPACES_SECRET_KEY" }

  // In pieces, because the solver does not see into one literal of this length.
  const HEADER := "# --- merged " + "from deploy/staging" + ".nonsecret.env ---"

  // ----- parse_env -----

  function ParseLine(out: Env, line: string): Env {
    var raw := Strip(line);
    if raw == "" || raw[0] == '#' then out
    else match Assign(line)
      case None => out
      case Some(a) => if a.key in SECRET_KEYS then out else SetKey(out, a.key, a.value)
  }

  function ParseLines(out: Env, lines: seq<string>): Env
    decreases |lines|
  {
    if lines == [] then out else ParseLines(ParseLine(out, lines[0]), lines[1..])
  }

  function ParseEnv(text: string): Env {
    ParseLines([], SplitLines(text))
  }

  method ParseEnvLoop(text: string) returns (out: Env)
    ensures out == ParseEnv(text)
  {
    var lines := SplitLines(text);
    out := [];
    var i := 0;
    while i < |lines|
      invariant 0 <= i <= |lines|
      invariant ParseLines(out, lines[i..]) == ParseEnv(text)
    {
      var line := lines[i];
      i := i + 1;
      assert lines[i - 1..][1..] == lines[i..];
      var raw := Strip(line);
      if raw == "" || raw[0] == '#' {
        continue;
      }
      var m := Assign(line);
      if m.None? {
        continue;
      }
      if m.value.key in SECRET_KEYS {
        continue;
      }
      out := SetKey(out, m.value.key, m.value.value);
    }
  }

  // ----- merge -----

  // The line is an assignment that the updates replace.
  predicate Replaced(line: string, u: Env) {
    var a := Assign(line);
    a.Some? && Lookup(u, a.value.key).Some? && a.value.key !in SECRET_KEYS
  }

  function MergedLine(line: string, u: Env): string {
    if Replaced(line, u) then Print(Assign(line).value.key, Lookup(u, Assign(line).value.key).value) else line
  }

  function MergedLines(lines: seq<string>, u: Env): (r: seq<string>)
    ensures |r| == |lines| && forall i :: 0 <= i < |lines| ==> r[i] == MergedLine(lines[i], u)
  {
    seq(|lines|, i requires 0 <= i < |lines| => MergedLine(lines[i], u))
  }

  function Seen(lines: seq<string>, u: Env): set<string> {
    set i | 0 <= i < |lines| && Replaced(lines[i], u) :: Assign(lines[i]).value.key
  }

  function Missing(u: Env, seen: set<string>): Env {
    if u == [] then [] else (if u[0].key in seen then [] else [u[0]]) + Missing(u[1..], seen)
  }

  function Printed(u: Env): (r: seq<string>)
    ensures |r| == |u| && forall i :: 0 <= i < |u| ==> r[i] == Print(u[i].key, u[i].value)
  {
    seq(|u|, i requires 0 <= i < |u| => Print(u[i].key, u[i].value))
  }

  function Tail(result: seq<string>, missing: Env): seq<string> {
    if missing == [] then []
    else (if result != [] && Strip(result[|result| - 1]) != "" then [""] else []) + [HEADER] + Printed(missing)
  }

  function MergeLines(lines: seq<string>, u: Env): seq<string> {
    var result := MergedLines(lines, u);
    result + Tail(result, Missing(u, Seen(lines, u)))
  }

  function Merge(existing: string, u: Env): string {
    Join(MergeLines(SplitLines(existing), u)) + "\n"
  }

  method MergeLoop(existing: string, u: Env) returns (text: string)
    requires DistinctKeys(u)
    ensures text == Merge(existing, u)
  {
    hide Strip, Assign, Seen, MergedLines, Printed, Missing, Lookup, Join, SplitLines, MergedLine, DistinctKeys;
    var lines := SplitLines(existing);
    var seen: set<string> := {};
    var result: seq<string> := [];
    var i := 0;
    SeenNothing(u);
    while i < |lines|
      invariant 0 <= i <= |lines|
      invariant result == MergedLines(lines[..i], u) && seen == Seen(lines[..i], u)
    {
      var line := lines[i];
      var m := Assign(line);
      LoopExtend(lines[..i], line, u);
      assert lines[..i + 1] == lines[..i] + [line];
      if m.Some? && Lookup(u, m.value.key).Some? && m.value.key !in SECRET_KEYS {
        var key := m.value.key;
        result := result + [Print(key, Lookup(u, key).value)];
        seen := seen + {key};
      } else {
        result := result + [line];
      }
      i := i + 1;
    }
    assert lines[..i] == lines;
    var missing := Missing(u, seen);
    result := AppendMissing(result, u, missing, seen);
    text := Join(result) + "\n";
  }

  // The appended block of updates that replaced no line.
  method AppendMissing(lines: seq<string>, u: Env, missing: Env, ghost seen: set<string>) returns (result: seq<string>)
    requires DistinctKeys(u) && missing == Missing(u, seen)
    ensures result == lines + Tail(lines, missing)
  {
    hide Strip, Assign, Printed, Missing, Lookup, DistinctKeys;
    result := lines;
    if missing != [] {
      if result != [] && Strip(result[|result| - 1]) != "" {
        result := result + [""];
      }
      result := result + [HEADER];
      ghost var before := result;
      var k := 0;
      while k < |missing|
        invariant 0 <= k <= |missing|
        invariant result == before + Printed(missing[..k])
      {
        LookupMissing(u, seen, k);
        PrintedExtend(missing, k);
        result := result + [Print(missing[k].key, Lookup(u, missing[k].key).value)];
        k := k + 1;
      }
      assert missing[..k] == missing;
    }
  }

  lemma PrintedExtend(m: Env, k: nat)
    requires k < |m|
    ensures Printed(m[..k + 1]) == Printed(m[..k]) + [Print(m[k].key, m[k].value)]
  {
  }

  lemma SeenNothing(u: Env)
    ensures Seen([], u) == {} && MergedLines([], u) == []
  {
  }

  lemma LoopExtend(lines: seq<string>, line: string, u: Env)
    ensures MergedLines(lines + [line], u) == MergedLines(lines, u) + [MergedLine(line, u)]
    ensures MergedLine(line, u) == if Replaced(line, u) then Print(Assign(line).value.key, Lookup(u, Assign(line).value.key).value) else line
    ensures Seen(lines + [line], u) == Seen(lines, u) + (if Replaced(line, u) then {Assign(line).value.key} else {})
  {
    SeenExtend(lines, line, u);
  }

  lemma SeenExtend(lines: seq<string>, line: string, u: Env)
    ensures Seen(lines + [line], u) == Seen(lines, u) + (if Replaced(line, u) then {Assign(line).value.key} else {})
  {
    var more := lines + [line];
    forall k | k in Seen(lines, u)
      ensures k in Seen(more, u)
    {
      var i :| 0 <= i < |lines| && Replaced(lines[i], u) && Assign(lines[i]).value.key == k;
      assert more[i] == lines[i];
    }
    if Replaced(line, u) {
      assert more[|lines|] == line;
    }
  }

  ghost predicate DistinctKeys(u: Env) {
    forall i, k :: 0 <= i < k < |u| ==> u[i].key != u[k].key
  }

  lemma {:induction false} LookupAt(u: Env, i: nat)
    requires DistinctKeys(u) && i < |u|
    ensures Lookup(u, u[i].key) == Some(u[i].value)
  {
    if i > 0 {
      assert u[i] == u[1..][i - 1];
      LookupAt(u[1..], i - 1);
    }
  }

  lemma {:induction false} MissingFacts(u: Env, seen: set<string>)
    requires DistinctKeys(u)
    ensures forall a :: a in Missing(u, seen) <==> a in u && a.key !in seen
    ensures DistinctKeys(Missing(u, seen))
  {
    if u != [] {
      assert forall a :: a in u <==> a == u[0] || a in u[1..];
      MissingFacts(u[1..], seen);
      var rest := Missing(u[1..], seen);
      forall i | 0 <= i < |rest|
        ensures rest[i].key != u[0].key
      {
        assert rest[i] in u[1..];
      }
    }
  }

  lemma LookupMissing(u: Env, seen: set<string>, k: nat)
    requires DistinctKeys(u) && k < |Missing(u, seen)|
    ensures Lookup(u, Missing(u, seen)[k].key) == Some(Missing(u, seen)[k].value)
  {
    MissingFacts(u, seen);
    var a := Missing(u, seen)[k];
    assert a in u;
    var i :| 0 <= i < |u| && u[i] == a;
    LookupAt(u, i);
  }

  // ----- what parse_env returns -----

  ghost predicate ValidUpdates(u: Env) {
    DistinctKeys(u) && forall a :: a in u ==> IsKey(a.key) && Clean(a.value)
  }

  ghost predicate NonSecret(u: Env) {
    forall a :: a in u ==> a.key !in SECRET_KEYS
  }

  function Keys(d: Env): set<string> {
    set a | a in d :: a.key
  }

  lemma {:induction false} SetKeyMembers(d: Env, key: string, value: string)
    ensures forall a :: a in SetKey(d, key, value) ==> a == Assignment(key, value) || a in d
  {
    if d != [] && d[0].key != key {
      SetKeyMembers(d[1..], key, value);
    }
  }

  lemma FirstKey(a: Assignment, rest: Env)
    ensures Keys([a] + rest) == {a.key} + Keys(rest)
  {
    assert forall b :: b in [a] + rest <==> b == a || b in rest;
  }

  lemma {:induction false} SetKeyKeys(d: Env, key: string, value: string)
    ensures Keys(SetKey(d, key, value)) == Keys(d) + {key}
  {
    hide Keys;
    if d == [] {
      assert [Assignment(key, value)] == [Assignment(key, value)] + [];
      FirstKey(Assignment(key, value), []);
    } else {
      assert d == [d[0]] + d[1..];
      FirstKey(d[0], d[1..]);
      if d[0].key == key {
        FirstKey(Assignment(key, value), d[1..]);
      } else {
        SetKeyKeys(d[1..], key, value);
        FirstKey(d[0], SetKey(d[1..], key, value));
      }
    }
  }

  lemma {:induction false} SetKeyDistinct(d: Env, key: string, value: string)
    requires DistinctKeys(d)
    ensures DistinctKeys(SetKey(d, key, value))
  {
    if d != [] && d[0].key != key {
      SetKeyDistinct(d[1..], key, value);
      SetKeyMembers(d[1..], key, value);
      var rest := SetKey(d[1..], key, value);
      forall i | 0 <= i < |rest|
        ensures rest[i].key != d[0].key
      {
        assert rest[i] in rest;
      }
    }
  }

  lemma SetKeyFacts(d: Env, key: string, value: string)
    ensures forall a :: a in SetKey(d, key, value) ==> a == Assignment(key, value) || a in d
    ensures Keys(SetKey(d, key, value)) == Keys(d) + {key}
    ensures DistinctKeys(d) ==> DistinctKeys(SetKey(d, key, value))
  {
    hide SetKey, Keys, DistinctKeys;
    SetKeyMembers(d, key, value);
    SetKeyKeys(d, key, value);
    if DistinctKeys(d) {
      SetKeyDistinct(d, key, value);
    }
  }

  lemma {:induction false} ParseLinesValid(out: Env, lines: seq<string>)
    requires ValidUpdates(out) && NonSecret(out) && forall l :: l in lines ==> Clean(l)
    ensures ValidUpdates(ParseLines(out, lines)) && NonSecret(ParseLines(out, lines))
    decreases |lines|
  {
    hide ParseLine, ValidUpdates, NonSecret, Clean;
    if lines != [] {
      ParseLineValid(out, lines[0]);
      ParseLinesValid(ParseLine(out, lines[0]), lines[1..]);
    }
  }

  lemma ParseLineValid(out: Env, line: string)
    requires ValidUpdates(out) && NonSecret(out) && Clean(line)
    ensures ValidUpdates(ParseLine(out, line)) && NonSecret(ParseLine(out, line))
  {
    hide Strip, Assign, SetKey, IsKey, DistinctKeys;
    var a := Assign(line);
    if a.Some? {
      SetKeyFacts(out, a.value.key, a.value.value);
      var v := a.value.value;
      assert forall i :: 0 <= i < |v| ==> v[i] == line[|a.value.key| + 1 + i];
    }
  }

  // parse_env only returns distinct, well-formed, non-secret keys with one-line values.
  lemma ParsedAreValid(text: string)
    ensures ValidUpdates(ParseEnv(text)) && NonSecret(ParseEnv(text))
  {
    ParseLinesValid([], SplitLines(text));
  }

  // ----- merge is an exact overlay -----

  function Override(d: Env, u: Env): (r: Env)
    ensures |r| == |d| && forall i :: 0 <= i < |d| ==> r[i] == Assignment(d[i].key, Overridden(d[i], u))
  {
    seq(|d|, i requires 0 <= i < |d| => Assignment(d[i].key, Overridden(d[i], u)))
  }

  function Overridden(a: Assignment, u: Env): string {
    if Lookup(u, a.key).Some? then Lookup(u, a.key).value else a.value
  }

  lemma {:induction false} ParseAppend(out: Env, a: seq<string>, b: seq<string>)
    ensures ParseLines(out, a + b) == ParseLines(ParseLines(out, a), b)
    decreases |a|
  {
    if a == [] {
      assert a + b == b;
    } else {
      assert (a + b)[1..] == a[1..] + b;
      ParseAppend(ParseLine(out, a[0]), a[1..], b);
    }
  }

  lemma {:induction false} OverrideSetKey(d: Env, u: Env, key: string, value: string)
    ensures Override(SetKey(d, key, value), u) == SetKey(Override(d, u), key, Overridden(Assignment(key, value), u))
  {
    hide Lookup;
    if d != [] {
      assert Override(d, u)[1..] == Override(d[1..], u);
      if d[0].key != key {
        OverrideSetKey(d[1..], u, key, value);
      }
    }
  }

  lemma MergedLineParses(out: Env, u: Env, line: string)
    ensures ParseLine(Override(out, u), MergedLine(line, u)) == Override(ParseLine(out, line), u)
  {
    hide Strip, Assign, Lookup, SetKey;
    var a := Assign(line);
    if a.Some? {
      AssignNotSkipped(line);
      OverrideSetKey(out, u, a.value.key, a.value.value);
      if Replaced(line, u) {
        AssignPrint(a.value.key, Lookup(u, a.value.key).value);
        AssignNotSkipped(MergedLine(line, u));
      }
    }
  }

  lemma {:induction false} MergedLinesParse(out: Env, u: Env, lines: seq<string>)
    ensures ParseLines(Override(out, u), MergedLines(lines, u)) == Override(ParseLines(out, lines), u)
    decreases |lines|
  {
    hide ParseLine, MergedLine, Override;
    if lines != [] {
      assert MergedLines(lines, u)[1..] == MergedLines(lines[1..], u);
      MergedLineParses(out, u, lines[0]);
      MergedLinesParse(ParseLine(out, lines[0]), u, lines[1..]);
    }
  }

  lemma {:induction false} PrintedParses(d: Env, m: Env)
    requires NonSecret(m) && forall a :: a in m ==> IsKey(a.key)
    ensures ParseLines(d, Printed(m)) == Overlay(d, m)
    decreases |m|
  {
    hide Strip, Assign, IsKey, SetKey;
    if m != [] {
      var a := m[0];
      assert a in m;
      AssignPrint(a.key, a.value);
      AssignNotSkipped(Print(a.key, a.value));
      assert Printed(m)[1..] == Printed(m[1..]);
      PrintedParses(SetKey(d, a.key, a.value), m[1..]);
    }
  }

  lemma HeaderFacts()
    ensures Strip("") == "" && Assign("").None?
    ensures Strip(HEADER) != "" && Strip(HEADER)[0] == '#' && Assign(HEADER).None?
  {
    assert HEADER[0] == '#';
    assert Lstrip(HEADER) == HEADER;
  }

  lemma TailParses(d: Env, result: seq<string>, m: Env)
    requires NonSecret(m) && forall a :: a in m ==> IsKey(a.key)
    ensures ParseLines(d, Tail(result, m)) == Overlay(d, m)
  {
    hide Strip, Assign, Printed;
    if m != [] {
      HeaderFacts();
      PrintedParses(d, m);
      assert ([HEADER] + Printed(m))[1..] == Printed(m);
      var t := [HEADER] + Printed(m);
      assert ParseLines(d, t) == Overlay(d, m);
      assert [""] + [HEADER] + Printed(m) == [""] + t && ([""] + t)[1..] == t;
      assert ParseLines(d, [""] + t) == ParseLines(d, t);
    }
  }

  // A key is parsed exactly when some line assigns it and it is not secret.
  predicate Defines(line: string, key: string) {
    Assign(line).Some? && Assign(line).value.key == key && key !in SECRET_KEYS
  }

  ghost predicate Defined(lines: seq<string>, key: string) {
    exists i :: 0 <= i < |lines| && Defines(lines[i], key)
  }

  lemma {:induction false} ParsedKeys(out: Env, lines: seq<string>, key: string)
    ensures key in Keys(ParseLines(out, lines)) <==> key in Keys(out) || Defined(lines, key)
    decreases |lines|
  {
    if lines != [] {
      var next := ParseLine(out, lines[0]);
      ParsedKeys(next, lines[1..], key);
      assert Defined(lines, key) <==> Defines(lines[0], key) || Defined(lines[1..], key) by {
        assert forall i :: 0 <= i < |lines| - 1 ==> lines[1..][i] == lines[i + 1];
        if Defined(lines, key) {
          var i :| 0 <= i < |lines| && Defines(lines[i], key);
          assert i > 0 ==> Defines(lines[1..][i - 1], key);
        }
      }
      LineKeys(out, lines[0], key);
    }
  }

  lemma LineKeys(out: Env, line: string, key: string)
    ensures key in Keys(ParseLine(out, line)) <==> key in Keys(out) || Defines(line, key)
  {
    hide Strip, Assign, SetKey, Keys;
    var a := Assign(line);
    if a.Some? {
      AssignNotSkipped(line);
      SetKeyFacts(out, a.value.key, a.value.value);
    }
  }

  lemma SeenAreParsed(lines: seq<string>, u: Env, i: nat)
    requires DistinctKeys(u) && i < |u|
    ensures u[i].key in Seen(lines, u) <==> u[i].key in Keys(ParseLines([], lines))
  {
    hide Assign;
    LookupAt(u, i);
    ParsedKeys([], lines, u[i].key);
    if Defined(lines, u[i].key) {
      var n :| 0 <= n < |lines| && Defines(lines[n], u[i].key);
      assert Replaced(lines[n], u);
    }
  }

  lemma {:induction false} MissingAgree(u: Env, s: set<string>, t: set<string>)
    requires forall i :: 0 <= i < |u| ==> (u[i].key in s <==> u[i].key in t)
    ensures Missing(u, s) == Missing(u, t)
  {
    if u != [] {
      assert forall i :: 0 <= i < |u| - 1 ==> u[1..][i] == u[i + 1];
      MissingAgree(u[1..], s, t);
    }
  }

  lemma {:induction false} SetKeyNew(d: Env, key: string, value: string)
    requires key !in Keys(d)
    ensures SetKey(d, key, value) == d + [Assignment(key, value)]
  {
    if d != [] {
      assert d[0] in d && forall a :: a in d[1..] ==> a in d;
      SetKeyNew(d[1..], key, value);
    }
  }

  lemma {:induction false} OverlayNew(d: Env, m: Env)
    requires DistinctKeys(m) && Keys(m) !! Keys(d)
    ensures Overlay(d, m) == d + m
    decreases |m|
  {
    if m != [] {
      var a := m[0];
      assert a in m && a.key in Keys(m);
      SetKeyNew(d, a.key, a.value);
      forall k | k in Keys(m[1..])
        ensures k !in Keys(d + [a])
      {
        var i :| 0 <= i < |m| - 1 && m[1..][i].key == k;
        assert m[i + 1] == m[1..][i];
        assert m[i + 1] in m && k in Keys(m);
        assert forall b :: b in d + [a] ==> b in d || b == a;
      }
      OverlayNew(d + [a], m[1..]);
      assert d + [a] + m[1..] == d + m;
    }
  }

  lemma {:induction false} LookupNone(u: Env, key: string)
    ensures Lookup(u, key).Some? <==> key in Keys(u)
  {
    if u != [] {
      LookupNone(u[1..], key);
      assert forall a :: a in u <==> a == u[0] || a in u[1..];
    }
  }

  lemma OverrideCons(a: Assignment, rest: Env, u: Env)
    ensures Override([a] + rest, u) == [Assignment(a.key, Overridden(a, u))] + Override(rest, u)
  {
  }

  // An update of an absent key overrides nothing.
  lemma OverrideIgnores(d: Env, a: Assignment, rest: Env)
    requires a.key !in Keys(d)
    ensures Override(d, [a] + rest) == Override(d, rest)
  {
    assert ([a] + rest)[1..] == rest;
    forall i | 0 <= i < |d|
      ensures Overridden(d[i], [a] + rest) == Overridden(d[i], rest)
    {
      assert d[i] in d;
    }
  }

  lemma OverriddenFirst(a: Assignment, rest: Env, b: Assignment)
    requires a.key !in Keys(rest)
    ensures Overridden(a, rest) == a.value
    ensures Overridden(b, [a] + rest) == if b.key == a.key then a.value else Overridden(b, rest)
  {
    LookupNone(rest, a.key);
    assert ([a] + rest)[1..] == rest;
  }

  lemma {:induction false} OverrideFirst(d: Env, a: Assignment, rest: Env)
    requires DistinctKeys(d) && a.key in Keys(d) && a.key !in Keys(rest)
    ensures Override(SetKey(d, a.key, a.value), rest) == Override(d, [a] + rest)
  {
    hide Override, Overridden, Keys, DistinctKeys, Lookup;
    KeysNonEmpty(d, a.key);
    FirstIsNew(d);
    var first, tail := d[0], d[1..];
    assert d == [first] + tail;
    FirstKey(first, tail);
    OverrideCons(first, tail, [a] + rest);
    OverriddenFirst(a, rest, first);
    if first.key == a.key {
      OverrideCons(a, tail, rest);
      OverrideIgnores(tail, a, rest);
    } else {
      OverrideFirst(tail, a, rest);
      OverrideCons(first, SetKey(tail, a.key, a.value), rest);
    }
  }

  lemma KeysNonEmpty(d: Env, key: string)
    requires key in Keys(d)
    ensures d != []
  {
  }

  // Overriding known keys in place and appending the others is the ordered-dictionary overlay.
  lemma {:induction false} OverlayForm(d: Env, u: Env)
    requires DistinctKeys(d) && DistinctKeys(u)
    ensures Overlay(d, u) == Override(d, u) + Missing(u, Keys(d))
    decreases |u|
  {
    if u == [] {
      assert Override(d, u) == d;
    } else {
      hide Override, Missing, Overlay, SetKey, Keys, DistinctKeys;
      var a, rest := u[0], u[1..];
      SetKeyFacts(d, a.key, a.value);
      FirstIsNew(u);
      OverlayForm(SetKey(d, a.key, a.value), rest);
      OverlayFirst(d, u);
      OverrideRest(d, u);
      MissingRest(d, u);
      var next := SetKey(d, a.key, a.value);
      Regroup(Override(d, u), if a.key in Keys(d) then [] else [a], Missing(rest, Keys(next)));
    }
  }

  lemma OverlayFirst(d: Env, u: Env)
    requires u != []
    ensures Overlay(d, u) == Overlay(SetKey(d, u[0].key, u[0].value), u[1..])
  {
  }

  lemma OverrideRest(d: Env, u: Env)
    requires u != [] && DistinctKeys(d) && u[0].key !in Keys(u[1..])
    ensures var added := if u[0].key in Keys(d) then [] else [u[0]];
            Override(SetKey(d, u[0].key, u[0].value), u[1..]) == Override(d, u) + added
  {
    hide Override, SetKey, Keys, DistinctKeys;
    assert [u[0]] + u[1..] == u;
    if u[0].key in Keys(d) {
      OverrideFirst(d, u[0], u[1..]);
    } else {
      OverlayStep(d, u[0], u[1..]);
    }
  }

  lemma MissingRest(d: Env, u: Env)
    requires u != [] && u[0].key !in Keys(u[1..])
    ensures var added := if u[0].key in Keys(d) then [] else [u[0]];
            Missing(u, Keys(d)) == added + Missing(u[1..], Keys(SetKey(d, u[0].key, u[0].value)))
  {
    hide SetKey, Missing, Keys;
    var next := SetKey(d, u[0].key, u[0].value);
    SetKeyFacts(d, u[0].key, u[0].value);
    forall i | 0 <= i < |u| - 1
      ensures u[1..][i].key in Keys(d) <==> u[1..][i].key in Keys(next)
    {
      KeyIn(u[1..], i);
    }
    MissingAgree(u[1..], Keys(d), Keys(next));
    MissingFirst(u, Keys(d));
  }

  lemma MissingFirst(u: Env, seen: set<string>)
    requires u != []
    ensures Missing(u, seen) == (if u[0].key in seen then [] else [u[0]]) + Missing(u[1..], seen)
  {
  }

  lemma FirstIsNew(u: Env)
    requires u != [] && DistinctKeys(u)
    ensures DistinctKeys(u[1..]) && u[0].key !in Keys(u[1..])
  {
    forall b | b in u[1..]
      ensures b.key != u[0].key
    {
      var i :| 0 <= i < |u| - 1 && u[1..][i] == b;
      assert u[i + 1] == b;
    }
  }

  lemma KeyIn(u: Env, i: nat)
    requires i < |u|
    ensures u[i].key in Keys(u)
  {
    assert u[i] in u;
  }

  lemma OverlayStep(d: Env, a: Assignment, rest: Env)
    requires a.key !in Keys(d) && a.key !in Keys(rest)
    ensures Override(SetKey(d, a.key, a.value), rest) == Override(d, [a] + rest) + [a]
  {
    SetKeyNew(d, a.key, a.value);
    OverrideIgnores(d, a, rest);
    OverriddenFirst(a, rest, a);
    assert Override(d + [a], rest) == Override(d, rest) + [a];
  }

  lemma MergedParses(lines: seq<string>, u: Env)
    requires DistinctKeys(ParseLines([], lines)) && ValidUpdates(u) && NonSecret(u)
    ensures ParseLines([], MergeLines(lines, u)) == Overlay(ParseLines([], lines), u)
  {
    hide ParseLines, MergedLines, Tail, Override, Missing, Seen, Overlay, Keys, DistinctKeys, IsKey, Clean;
    var d := ParseLines([], lines);
    var result := MergedLines(lines, u);
    var m := Missing(u, Seen(lines, u));
    ParseAppend([], result, Tail(result, m));
    MergedLinesParse([], u, lines);
    assert Override([], u) == [];
    MissingFacts(u, Seen(lines, u));
    TailParses(Override(d, u), result, m);
    forall i | 0 <= i < |u|
      ensures u[i].key in Seen(lines, u) <==> u[i].key in Keys(d)
    {
      SeenAreParsed(lines, u, i);
    }
    MissingAgree(u, Seen(lines, u), Keys(d));
    OverlayForm(d, u);
    MissingApart(u, d);
    OverlayNew(Override(d, u), m);
  }

  lemma MissingApart(u: Env, d: Env)
    requires DistinctKeys(u)
    ensures Keys(Missing(u, Keys(d))) !! Keys(Override(d, u))
  {
    MissingFacts(u, Keys(d));
    forall k | k in Keys(Override(d, u))
      ensures k in Keys(d)
    {
      var a :| a in Override(d, u) && a.key == k;
      var i :| 0 <= i < |d| && Override(d, u)[i] == a;
      assert d[i] in d;
    }
  }

  lemma MergedClean(lines: seq<string>, u: Env)
    requires ValidUpdates(u) && forall l :: l in lines ==> Clean(l)
    ensures forall l :: l in MergeLines(lines, u) ==> Clean(l)
  {
    hide Strip, Assign, Seen, Missing, IsKey, Lookup;
    var result := MergedLines(lines, u);
    forall i | 0 <= i < |lines|
      ensures Clean(result[i])
    {
      assert lines[i] in lines;
      if Replaced(lines[i], u) {
        var key := Assign(lines[i]).value.key;
        LookupIsEntry(u, key);
        PrintClean(key, Lookup(u, key).value);
      }
    }
    var m := Missing(u, Seen(lines, u));
    MissingFacts(u, Seen(lines, u));
    forall i | 0 <= i < |m|
      ensures Clean(Printed(m)[i])
    {
      assert m[i] in m && m[i] in u;
      PrintClean(m[i].key, m[i].value);
    }
    HeaderClean();
  }

  lemma HeaderClean()
    ensures Clean(HEADER) && Clean("")
  {
    assert forall c :: c in HEADER ==> !Boundary(c);
  }

  lemma {:induction false} LookupIsEntry(u: Env, key: string)
    requires Lookup(u, key).Some?
    ensures Assignment(key, Lookup(u, key).value) in u
  {
    if u[0].key != key {
      LookupIsEntry(u[1..], key);
    }
  }

  lemma PrintClean(key: string, value: string)
    requires IsKey(key) && Clean(value)
    ensures Clean(Print(key, value))
  {
    forall i | 0 <= i < |Print(key, value)|
      ensures !Boundary(Print(key, value)[i])
    {
      if i < |key| {
        assert KeyChar(key[i]);
      } else if i > |key| {
        assert Print(key, value)[i] == value[i - |key| - 1];
      }
    }
  }

  // The merged text reads back as the merged lines, except that no lines print as one empty line.
  lemma SplitMerge(existing: string, u: Env)
    requires ValidUpdates(u)
    ensures SplitLines(Merge(existing, u)) ==
            if existing == "" && u == [] then [""] else MergeLines(SplitLines(existing), u)
    ensures existing == "" && u == [] ==> MergeLines(SplitLines(existing), u) == []
  {
    hide Strip, Assign, Seen, MergedLines, Printed, Lookup, Join, ValidUpdates;
    var lines := SplitLines(existing);
    var merged := MergeLines(lines, u);
    MergedClean(lines, u);
    if merged != [] {
      SplitJoin(merged);
    } else {
      SeenNothing(u);
      NothingMissing(u);
      assert lines == [] && u == [] && existing == "";
      SplitFirst("", "");
      JoinNothing();
      assert "" + "\n" + "" == "\n";
    }
    if existing == "" && u == [] {
      SeenNothing(u);
    }
  }

  lemma JoinNothing()
    ensures Join([]) == ""
  {
  }

  lemma {:induction false} NothingMissing(u: Env)
    ensures Missing(u, {}) == u
  {
    if u != [] {
      NothingMissing(u[1..]);
    }
  }

  lemma MergeOverlaysUpdates(existing: string, u: Env)
    requires ValidUpdates(u) && NonSecret(u)
    ensures ParseEnv(Merge(existing, u)) == Overlay(ParseEnv(existing), u)
  {
    hide MergeLines, SplitLines, Merge, ValidUpdates, NonSecret;
    SplitMerge(existing, u);
    ParsedAreValid(existing);
    DistinctOf(ParseEnv(existing));
    if existing == "" && u == [] {
      EmptyParses();
    } else {
      MergedParses(SplitLines(existing), u);
    }
  }

  lemma DistinctOf(u: Env)
    requires ValidUpdates(u)
    ensures DistinctKeys(u)
  {
  }

  lemma EmptyParses()
    ensures ParseLines([], [""]) == [] && ParseEnv("") == [] && Overlay([], []) == []
  {
    HeaderFacts();
  }

  // Merging parsed updates and parsing again is exactly the overlay of the two dictionaries,
  // order included, for every pair of texts.
  lemma MergeIsOverlay(existing: string, source: string)
    ensures ParseEnv(Merge(existing, ParseEnv(source))) == Overlay(ParseEnv(existing), ParseEnv(source))
  {
    hide ParseEnv, Merge, Overlay, ValidUpdates, NonSecret;
    ParsedAreValid(source);
    MergeOverlaysUpdates(existing, ParseEnv(source));
  }

  // What the overlay holds: the update where there is one, the old value elsewhere.
  lemma {:induction false} OverlayLookup(d: Env, u: Env, key: string)
    requires DistinctKeys(u)
    ensures Lookup(Overlay(d, u), key) == if Lookup(u, key).Some? then Lookup(u, key) else Lookup(d, key)
    decreases |u|
  {
    if u != [] {
      OverlayLookup(SetKey(d, u[0].key, u[0].value), u[1..], key);
      LookupSet(d, u[0].key, u[0].value, key);
      LookupNone(u[1..], key);
    }
  }

  lemma {:induction false} LookupSet(d: Env, key: string, value: string, other: string)
    ensures Lookup(SetKey(d, key, value), other) == if other == key then Some(value) else Lookup(d, other)
  {
    if d != [] && d[0].key != key {
      LookupSet(d[1..], key, value, other);
    }
  }
}
