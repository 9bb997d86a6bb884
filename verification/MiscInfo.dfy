/** The `misc_info.txt` key-value file and the dynamic partition list kept in it. */
module MiscInfo {
  import opened Wrappers
  import opened Text

  // ---------- trimming ----------

  predicate IsSpace(c: char) {
    c == ' ' || 9 <= c as int <= 13
  }

  predicate Trimmed(s: string) {
    s == [] || (!IsSpace(s[0]) && !IsSpace(s[|s| - 1]))
  }

  function TrimLeft(s: string): (r: string)
    ensures r == [] || !IsSpace(r[0])
    ensures s != [] && !IsSpace(s[0]) ==> r == s
    ensures forall c | c in r :: c in s
    ensures s != [] && !IsSpace(s[|s| - 1]) ==> r != [] && !IsSpace(r[|r| - 1])
  {
    if s == [] || !IsSpace(s[0]) then s else TrimLeft(s[1..])
  }

  function TrimRight(s: string): (r: string)
    ensures r <= s
    ensures r == [] || !IsSpace(r[|r| - 1])
    ensures s != [] && !IsSpace(s[|s| - 1]) ==> r == s
  {
    if s == [] || !IsSpace(s[|s| - 1]) then s else TrimRight(s[..|s| - 1])
  }

  function Trim(s: string): (r: string)
    ensures Trimmed(r)
    ensures Trimmed(s) ==> r == s
    ensures forall c | c in r :: c in s
  {
    TrimRight(TrimLeft(s))
  }

  /** Trimming cuts white space off the two ends and nothing else. */
  lemma TrimCutsSpaces(s: string) returns (i: nat, j: nat)
    ensures i <= j <= |s| && Trim(s) == s[i..j]
    ensures forall k | 0 <= k < |s| && !(i <= k < j) :: IsSpace(s[k])
  {
    i := CutLeft(s);
    var n := CutRight(s[i..]);
    j := i + n;
    assert s[i..j] == s[i..][..n];
    forall k | 0 <= k < |s| && !(i <= k < j)
      ensures IsSpace(s[k])
    {
      assert k >= i ==> s[k] == s[i..][k - i];
    }
  }

  lemma {:induction false} CutLeft(s: string) returns (i: nat)
    ensures i <= |s| && TrimLeft(s) == s[i..] && forall k | 0 <= k < i :: IsSpace(s[k])
  {
    if s == [] || !IsSpace(s[0]) {
      i := 0;
    } else {
      var n := CutLeft(s[1..]);
      i := n + 1;
    }
  }

  lemma {:induction false} CutRight(s: string) returns (n: nat)
    ensures n <= |s| && TrimRight(s) == s[..n] && forall k | n <= k < |s| :: IsSpace(s[k])
  {
    if s == [] || !IsSpace(s[|s| - 1]) {
      n := |s|;
    } else {
      n := CutRight(s[..|s| - 1]);
      assert s[..|s| - 1][..n] == s[..n];
    }
  }

  // ---------- reading ----------

  /** Where the first `c` is, or the length if there is none. */
  function Find(s: string, c: char): (i: nat)
    ensures i <= |s| && c !in s[..i]
    ensures i < |s| ==> s[i] == c
  {
    if s == [] || s[0] == c then 0 else 1 + Find(s[1..], c)
  }

  /** What one line says, if anything. */
  function Reads(raw: string): (r: Option<(string, string)>)
  {
    var line := Trim(raw);
    var eq := Find(line, '=');
    if line == [] || eq == |line| then None
    else Some((Trim(line[..eq]), Trim(line[eq + 1..])))
  }

  predicate Blank(s: string) {
    forall i | 0 <= i < |s| :: IsSpace(s[i])
  }

  lemma {:induction false} TrimBlank(before: string, s: string, after: string)
    requires Blank(before) && Trimmed(s) && Blank(after)
    ensures Trim(before + s + after) == s
    decreases |before|
  {
    var all := before + s + after;
    if before != [] {
      TrimBlank(before[1..], s, after);
      assert all[1..] == before[1..] + s + after && all[0] == before[0];
    } else {
      assert all == s + after;
      TrimRightBlank(s, after);
    }
  }

  lemma TrimRightBlank(s: string, after: string)
    requires Trimmed(s) && Blank(after)
    ensures Trim(s + after) == s
  {
    if s == [] {
      assert s + after == after;
      TrimLeftBlank(after);
    } else {
      assert TrimLeft(s + after) == s + after;
      CutBlank(s, after);
    }
  }

  lemma {:induction false} TrimLeftBlank(s: string)
    requires Blank(s)
    ensures TrimLeft(s) == []
  {
    if s != [] {
      TrimLeftBlank(s[1..]);
    }
  }

  lemma {:induction false} CutBlank(s: string, after: string)
    requires s != [] && !IsSpace(s[|s| - 1]) && Blank(after)
    ensures TrimRight(s + after) == s
    decreases |after|
  {
    if after == [] {
      assert s + after == s;
    } else {
      var n := |after| - 1;
      assert (s + after)[..|s| + n] == s + after[..n];
      CutBlank(s, after[..n]);
    }
  }

  lemma {:induction false} TrimLeftKeeps(l: string, r: string)
    ensures TrimLeft(l + "=" + r) == TrimLeft(l) + "=" + r
  {
    var s := l + "=" + r;
    if l != [] && IsSpace(l[0]) {
      assert s[1..] == l[1..] + "=" + r;
      TrimLeftKeeps(l[1..], r);
    }
  }

  lemma {:induction false} TrimRightKeeps(l: string, r: string)
    ensures TrimRight(l + "=" + r) == l + "=" + TrimRight(r)
  {
    var s, n := l + "=" + r, |r| - 1;
    if r != [] && IsSpace(r[n]) {
      assert s[..|s| - 1] == l + "=" + r[..n];
      TrimRightKeeps(l, r[..n]);
    }
  }

  lemma TrimAfterRight(s: string)
    ensures Trim(TrimRight(s)) == Trim(s)
  {
    var i, j := TrimCutsSpaces(s);
    var n := CutRight(s);
    if i == j {
      assert Blank(s[..n]);
      TrimBlank(s[..n], [], []);
      assert s[..n] + [] + [] == s[..n];
    } else {
      TrimWithin(s, i, j, n);
    }
  }

  lemma TrimWithin(s: string, i: nat, j: nat, n: nat)
    requires i < j <= |s| && n <= |s| && Trimmed(s[i..j])
    requires Blank(s[..i]) && Blank(s[j..]) && forall k | n <= k < |s| :: IsSpace(s[k])
    ensures Trim(s[..n]) == s[i..j]
  {
    assert s[i..j][j - i - 1] == s[j - 1];
    assert n >= j;
    assert forall k | 0 <= k < n - j :: s[j..n][k] == s[j..][k];
    TrimBlank(s[..i], s[i..j], s[j..n]);
    assert s[..i] + s[i..j] + s[j..n] == s[..n];
  }

  /** A line says what stands before and after its first equals sign, both trimmed, and nothing if it has
      no equals sign. */
  lemma LineReads(l: string, r: string)
    requires '=' !in l
    ensures Reads(l + "=" + r) == Some((Trim(l), Trim(r))) && Reads(l) == None
  {
    var key, value := TrimLeft(l), TrimRight(r);
    TrimLeftKeeps(l, r);
    TrimRightKeeps(key, r);
    var line := key + "=" + value;
    assert line[|key|] == '=' && line[..|key|] == key && line[|key| + 1..] == value;
    FindIs(line, '=', |key|);
    TrimAfterRight(r);
    assert '=' !in Trim(l);
  }

  /** White space around the key, the equals sign and the value does not matter. */
  lemma SpacedLineReads(a: string, key: string, b: string, c: string, value: string, d: string)
    requires Blank(a) && Blank(b) && Blank(c) && Blank(d) && Trimmed(key) && '=' !in key && Trimmed(value)
    ensures Reads((a + key + b) + "=" + (c + value + d)) == Some((key, value))
  {
    LineReads(a + key + b, c + value + d);
    TrimBlank(a, key, b);
    TrimBlank(c, value, d);
  }

  type Reading = Option<(string, string)>

  function Readings(lines: seq<string>): (r: seq<Reading>)
    ensures |r| == |lines|
  {
    if lines == [] then [] else [Reads(lines[0])] + Readings(lines[1..])
  }

  lemma {:induction false} ReadingAt(lines: seq<string>, i: nat)
    requires i < |lines|
    ensures Readings(lines)[i] == Reads(lines[i])
  {
    if i > 0 {
      ReadingAt(lines[1..], i - 1);
    }
  }

  predicate Says(readings: seq<Reading>, key: string, value: string) {
    Some((key, value)) in readings
  }

  /** No key is given two values. */
  ghost predicate Consistent(readings: seq<Reading>) {
    forall k, v, w | Says(readings, k, v) && Says(readings, k, w) :: v == w
  }

  ghost predicate Holds(info: map<string, string>, readings: seq<Reading>) {
    forall k, v :: (k in info && info[k] == v) <==> Says(readings, k, v)
  }

  function Lines(contents: string): seq<string> {
    Split(contents, '\n')
  }

  /** What the lines say, or nothing at all if they contradict each other. */
  ghost predicate IsParse(info: map<string, string>, contents: string) {
    var readings := Readings(Lines(contents));
    && (Consistent(readings) ==> Holds(info, readings))
    && (!Consistent(readings) ==> info == map[])
  }

  /** `ParseMiscInfo`. */
  method ParseMiscInfo(contents: string) returns (info: map<string, string>)
    ensures IsParse(info, contents)
  {
    var lines := Lines(contents);
    ghost var readings := Readings(lines);
    info := map[];
    for i := 0 to |lines|
      invariant Holds(info, readings[..i])
    {
      assert readings[..i + 1] == readings[..i] + [readings[i]];
      ReadingAt(lines, i);
      var agrees, extended := Record(info, Reads(lines[i]), readings[..i]);
      if !agrees {
        Contradiction(contents, i, readings[i].value.0, info[readings[i].value.0], readings[i].value.1);
        return map[];
      }
      info := extended;
    }
    assert readings[..|lines|] == readings;
    HoldsIsParse(info, contents);
  }

  /** Enters what one line says, unless its key already has another value. */
  method Record(info: map<string, string>, reading: Reading, ghost before: seq<Reading>)
    returns (agrees: bool, extended: map<string, string>)
    requires Holds(info, before)
    ensures agrees ==> Holds(extended, before + [reading])
    ensures !agrees ==> reading.Some? && reading.value.0 in info && info[reading.value.0] != reading.value.1
  {
    match reading {
      case None =>
        HoldsSkip(info, before);
        return true, info;
      case Some((key, value)) =>
        if key in info && info[key] != value {
          return false, info;
        }
        HoldsAdd(info, before, key, value);
        return true, info[key := value];
    }
  }

  lemma HoldsIsParse(info: map<string, string>, contents: string)
    requires Holds(info, Readings(Lines(contents)))
    ensures IsParse(info, contents)
  {
    HoldsIsConsistent(info, Readings(Lines(contents)));
  }

  lemma HoldsIsConsistent(info: map<string, string>, readings: seq<Reading>)
    requires Holds(info, readings)
    ensures Consistent(readings)
  {
    forall k, v, w | Says(readings, k, v) && Says(readings, k, w)
      ensures v == w
    {
      assert info[k] == v && info[k] == w;
    }
  }

  lemma HoldsSkip(info: map<string, string>, readings: seq<Reading>)
    requires Holds(info, readings)
    ensures Holds(info, readings + [None])
  {
    forall k, v
      ensures Says(readings + [None], k, v) <==> Says(readings, k, v)
    {
    }
  }

  lemma HoldsAdd(info: map<string, string>, readings: seq<Reading>, key: string, value: string)
    requires Holds(info, readings) && (key in info ==> info[key] == value)
    ensures Holds(info[key := value], readings + [Some((key, value))])
  {
    forall k, v
      ensures Says(readings + [Some((key, value))], k, v) <==> Says(readings, k, v) || (k == key && v == value)
    {
    }
  }

  lemma Contradiction(contents: string, i: nat, key: string, v: string, w: string)
    requires var readings := Readings(Lines(contents));
             i < |readings| && v != w && Says(readings[..i], key, v) && readings[i] == Some((key, w))
    ensures IsParse(map[], contents)
  {
    var readings := Readings(Lines(contents));
    assert Says(readings, key, w) && Says(readings, key, v);
    assert !Consistent(readings);
  }

  // ---------- writing, and reading back ----------

  function Line(key: string, value: string): string {
    key + "=" + value
  }

  function Print(info: map<string, string>, keys: seq<string>): string
    requires forall k | k in keys :: k in info
  {
    if keys == [] then [] else Line(keys[0], info[keys[0]]) + "\n" + Print(info, keys[1..])
  }

  /** `keys` lists the keys of `info`, in whatever order its iterator visits them. */
  predicate Enumerates(keys: seq<string>, info: map<string, string>) {
    (forall k | k in keys :: k in info) && (forall k | k in info :: k in keys)
  }

  /** `WriteMiscInfo`. */
  method WriteMiscInfo(info: map<string, string>, keys: seq<string>) returns (out: string)
    requires Enumerates(keys, info)
    ensures out == Print(info, keys)
  {
    out := "";
    for i := 0 to |keys|
      invariant out + Print(info, keys[i..]) == Print(info, keys)
    {
      assert keys[i..][1..] == keys[i + 1..];
      var line := Line(keys[i], info[keys[i]]) + "\n";
      assert out + (line + Print(info, keys[i + 1..])) == (out + line) + Print(info, keys[i + 1..]);
      out := out + line;
    }
    assert keys[|keys|..] == [];
  }

  /** What survives being printed on a line. */
  predicate Clean(key: string, value: string) {
    && Trimmed(key) && '=' !in key && '\n' !in key
    && Trimmed(value) && '\n' !in value
  }

  lemma ReadIsClean(raw: string)
    requires '\n' !in raw && Reads(raw).Some?
    ensures Clean(Reads(raw).value.0, Reads(raw).value.1)
  {
    var line := Trim(raw);
    var eq := Find(line, '=');
    assert '\n' !in line && '\n' !in line[..eq] && '\n' !in line[eq + 1..];
  }

  lemma CleanLineReads(key: string, value: string)
    requires Clean(key, value)
    ensures Reads(Line(key, value)) == Some((key, value)) && '\n' !in Line(key, value)
  {
    var line := Line(key, value);
    assert line[|key|] == '=' && line[..|key|] == key && line[|key| + 1..] == value;
    assert line[0] == if key == [] then '=' else key[0];
    assert line[|line| - 1] == if value == [] then '=' else value[|value| - 1];
    assert Trim(line) == line;
    FindIs(line, '=', |key|);
  }

  lemma {:induction false} FindIs(s: string, c: char, i: nat)
    requires i < |s| && s[i] == c && c !in s[..i]
    ensures Find(s, c) == i
  {
    if i > 0 {
      assert s[0] == s[..i][0];
      assert s[1..][..i - 1] == s[..i][1..];
      FindIs(s[1..], c, i - 1);
    }
  }

  function PrintedLines(info: map<string, string>, keys: seq<string>): (lines: seq<string>)
    requires forall k | k in keys :: k in info
    ensures |lines| == |keys| + 1
    ensures forall i | 0 <= i < |keys| :: lines[i] == Line(keys[i], info[keys[i]])
    ensures lines[|keys|] == ""
  {
    if keys == [] then [""] else [Line(keys[0], info[keys[0]])] + PrintedLines(info, keys[1..])
  }

  lemma {:induction false} LinesOfPrint(info: map<string, string>, keys: seq<string>)
    requires forall k | k in keys :: k in info && Clean(k, info[k])
    ensures Lines(Print(info, keys)) == PrintedLines(info, keys)
  {
    if keys != [] {
      LinesOfPrint(info, keys[1..]);
      CleanLineReads(keys[0], info[keys[0]]);
      SplitHead(Line(keys[0], info[keys[0]]), Print(info, keys[1..]), '\n');
    }
  }

  ghost predicate AllClean(info: map<string, string>) {
    forall k | k in info :: Clean(k, info[k])
  }

  lemma {:induction false} PrintSpells(info: map<string, string>, keys: seq<string>)
    requires forall k | k in keys :: k in info && Clean(k, info[k])
    ensures Readings(PrintedLines(info, keys)) == Spelled(info, keys)
  {
    if keys == [] {
      assert Trim("") == "";
      assert [""][1..] == [];
    } else {
      CleanLineReads(keys[0], info[keys[0]]);
      PrintSpells(info, keys[1..]);
      assert PrintedLines(info, keys)[1..] == PrintedLines(info, keys[1..]);
    }
  }

  function Spelled(info: map<string, string>, keys: seq<string>): (r: seq<Reading>)
    requires forall k | k in keys :: k in info
  {
    if keys == [] then [None] else [Some((keys[0], info[keys[0]]))] + Spelled(info, keys[1..])
  }

  lemma {:induction false} SpelledSays(info: map<string, string>, keys: seq<string>, k: string, v: string)
    requires forall k | k in keys :: k in info
    ensures Says(Spelled(info, keys), k, v) <==> k in keys && info[k] == v
  {
    if keys != [] {
      SpelledSays(info, keys[1..], k, v);
      assert k in keys <==> k == keys[0] || k in keys[1..];
    }
  }

  lemma SpelledHolds(info: map<string, string>, keys: seq<string>)
    requires Enumerates(keys, info)
    ensures Holds(info, Spelled(info, keys))
  {
    forall k, v
      ensures (k in info && info[k] == v) <==> Says(Spelled(info, keys), k, v)
    {
      SpelledSays(info, keys, k, v);
    }
  }

  lemma ParseIsClean(info: map<string, string>, contents: string)
    requires IsParse(info, contents)
    ensures AllClean(info)
  {
    var lines := Lines(contents);
    forall k | k in info
      ensures Clean(k, info[k])
    {
      assert Says(Readings(lines), k, info[k]);
      var i :| 0 <= i < |lines| && Readings(lines)[i] == Some((k, info[k]));
      ReadingAt(lines, i);
      ReadIsClean(lines[i]);
    }
  }

  /** Parsing has one answer. */
  lemma ParseIsUnique(a: map<string, string>, b: map<string, string>, contents: string)
    requires IsParse(a, contents) && IsParse(b, contents)
    ensures a == b
  {
    if Consistent(Readings(Lines(contents))) {
      HoldsIsUnique(a, b, Readings(Lines(contents)));
    }
  }

  lemma HoldsIsUnique(a: map<string, string>, b: map<string, string>, readings: seq<Reading>)
    requires Holds(a, readings) && Holds(b, readings)
    ensures a == b
  {
    forall k
      ensures k in a <==> k in b
      ensures k in a ==> a[k] == b[k]
    {
      if k in a {
        assert Says(readings, k, a[k]);
      }
      if k in b {
        assert Says(readings, k, b[k]);
      }
    }
  }

  /** Whatever was parsed, from any string, parses to itself once written, in any key order. */
  lemma RoundTrip(contents: string, info: map<string, string>, keys: seq<string>, again: map<string, string>)
    requires IsParse(info, contents) && Enumerates(keys, info)
    requires IsParse(again, Print(info, keys))
    ensures again == info
  {
    ParseIsClean(info, contents);
    LinesOfPrint(info, keys);
    PrintSpells(info, keys);
    SpelledHolds(info, keys);
    HoldsIsParse(info, Print(info, keys));
    ParseIsUnique(again, info, Print(info, keys));
  }

  // ---------- the dynamic partitions ----------

  const DYNAMIC_PARTITIONS := "dynamic_partition_list"
  const PARTITION_GROUPS := "super_partition_groups"
  const PARTITION_SIZE := "super_partition_size"
  const GOOGLE_GROUP := "google_dynamic_partitions"

  /** A component name that can be written between spaces. */
  predicate Plain(component: string) {
    component != "" && ' ' !in component && Trimmed(component)
  }

  function TrimAll(parts: seq<string>): (r: seq<string>)
    ensures |r| == |parts|
    ensures forall i | 0 <= i < |parts| :: r[i] == Trim(parts[i])
  {
    if parts == [] then [] else [Trim(parts[0])] + TrimAll(parts[1..])
  }

  function DropEmpty(parts: seq<string>): (r: seq<string>)
    ensures "" !in parts ==> r == parts
  {
    if parts == [] then []
    else if parts[0] == "" then DropEmpty(parts[1..])
    else [parts[0]] + DropEmpty(parts[1..])
  }

  lemma {:induction false} DropEmptyAppend(a: seq<string>, b: seq<string>)
    ensures DropEmpty(a + b) == DropEmpty(a) + DropEmpty(b)
  {
    if a == [] {
      assert a + b == b;
    } else {
      assert (a + b)[1..] == a[1..] + b;
      DropEmptyAppend(a[1..], b);
    }
  }

  lemma DropEmptySnoc(parts: seq<string>, i: nat)
    requires i < |parts|
    ensures DropEmpty(parts[..i + 1]) == DropEmpty(parts[..i]) + (if parts[i] == "" then [] else [parts[i]])
  {
    assert parts[..i + 1] == parts[..i] + [parts[i]];
    DropEmptyAppend(parts[..i], [parts[i]]);
    assert [parts[i]][1..] == [];
  }

  function Components(list: string): seq<string> {
    DropEmpty(TrimAll(Split(list, ' ')))
  }

  predicate AllPlain(components: seq<string>) {
    forall i | 0 <= i < |components| :: Plain(components[i])
  }

  /** `SuperPartitionComponents`: trims in place, then drops what became empty. */
  method SuperPartitionComponents(info: map<string, string>) returns (components: seq<string>)
    ensures components == if DYNAMIC_PARTITIONS in info then Components(info[DYNAMIC_PARTITIONS]) else []
    ensures AllPlain(components)
  {
    if DYNAMIC_PARTITIONS !in info {
      return [];
    }
    var list := info[DYNAMIC_PARTITIONS];
    var parts := TrimEach(Split(list, ' '));
    components := RemoveEmpty(parts);
    ComponentsPlain(list);
  }

  method RemoveEmpty(parts: seq<string>) returns (r: seq<string>)
    ensures r == DropEmpty(parts)
  {
    r := [];
    for i := 0 to |parts|
      invariant r == DropEmpty(parts[..i])
    {
      DropEmptySnoc(parts, i);
      if parts[i] != "" {
        r := r + [parts[i]];
      }
    }
    assert parts[..|parts|] == parts;
  }

  method TrimEach(parts: seq<string>) returns (r: seq<string>)
    ensures r == TrimAll(parts)
  {
    ghost var trimmed := TrimAll(parts);
    r := parts;
    for i := 0 to |parts|
      invariant |r| == |parts|
      invariant forall j | 0 <= j < i :: r[j] == trimmed[j]
      invariant forall j | i <= j < |parts| :: r[j] == parts[j]
    {
      r := r[i := Trim(r[i])];
    }
  }

  lemma {:induction false} DropEmptyPlain(parts: seq<string>)
    requires forall i | 0 <= i < |parts| :: ' ' !in parts[i] && Trimmed(parts[i])
    ensures AllPlain(DropEmpty(parts))
  {
    if parts != [] {
      DropEmptyPlain(parts[1..]);
    }
  }

  lemma ComponentsPlain(list: string)
    ensures AllPlain(Components(list))
  {
    var parts := Split(list, ' ');
    var trimmed := TrimAll(parts);
    forall i | 0 <= i < |trimmed|
      ensures ' ' !in trimmed[i] && Trimmed(trimmed[i])
    {
      assert trimmed[i] == Trim(parts[i]) && ' ' !in parts[i];
    }
    DropEmptyPlain(trimmed);
  }

  /** A list comes back exactly when every name in it is plain. */
  lemma ComponentsRoundTrip(components: seq<string>)
    ensures Components(Join(components, ' ')) == components <==> AllPlain(components)
  {
    ComponentsPlain(Join(components, ' '));
    if AllPlain(components) {
      if components == [] {
        assert Split("", ' ') == [""];
        assert TrimAll([""]) == [""];
        assert DropEmpty([""]) == DropEmpty([]);
      } else {
        SplitJoin(components, ' ');
        PlainUntouched(components);
      }
    }
  }

  lemma PlainUntouched(components: seq<string>)
    requires AllPlain(components)
    ensures DropEmpty(TrimAll(components)) == components
  {
    forall i | 0 <= i < |components|
      ensures TrimAll(components)[i] == components[i]
    {
      assert Plain(components[i]);
    }
    assert TrimAll(components) == components;
    assert forall i | 0 <= i < |components| :: components[i] != "";
  }

  // ---------- replacing the list ----------

  /** What `%s` prints of a string: up to the first NUL. */
  function CString(s: string): string {
    s[..Find(s, 0 as char)]
  }

  function ListKey(group: string): string {
    "super_" + CString(group) + "_partition_list"
  }

  function SizeKey(group: string): string {
    "super_" + CString(group) + "_group_size"
  }

  /** The keys to erase, in order. */
  function GroupKeys(groups: seq<string>): seq<string> {
    if groups == [] then [] else [ListKey(groups[0]), SizeKey(groups[0])] + GroupKeys(groups[1..])
  }

  predicate Distinct(keys: seq<string>) {
    forall i, j | 0 <= i < j < |keys| :: keys[i] != keys[j]
  }

  function AsSet(keys: seq<string>): set<string> {
    set k | k in keys
  }

  /** The map once the list is replaced. */
  function Replaced(info: map<string, string>, components: seq<string>): map<string, string>
    requires PARTITION_GROUPS in info && PARTITION_SIZE in info
  {
    Put(info, AsSet(GroupKeys(Split(info[PARTITION_GROUPS], ' '))),
        DYNAMIC_PARTITIONS, PARTITION_GROUPS, ListKey(GOOGLE_GROUP), SizeKey(GOOGLE_GROUP),
        Join(components, ' '), GOOGLE_GROUP, info[PARTITION_SIZE])
  }

  function Put(info: map<string, string>, gone: set<string>,
               dynamicKey: string, groupsKey: string, listKey: string, sizeKey: string,
               list: string, group: string, size: string): map<string, string>
  {
    (info - gone)[dynamicKey := list][groupsKey := group][listKey := list][sizeKey := size]
  }

  lemma PutTwice(info: map<string, string>, gone: set<string>,
                 d: string, g: string, l: string, s: string, list: string, again: string, group: string, size: string)
    requires Distinct([d, g, l, s])
    ensures Put(Put(info, gone, d, g, l, s, list, group, size), {l, s}, d, g, l, s, again, group, size)
            == Put(info, gone, d, g, l, s, again, group, size)
  {
  }

  lemma PutElsewhere(info: map<string, string>, gone: set<string>,
                     d: string, g: string, l: string, s: string, list: string, group: string, size: string, key: string)
    requires key !in gone && key != d && key != g && key != l && key != s
    ensures var r := Put(info, gone, d, g, l, s, list, group, size);
            (key in r <==> key in info) && (key in info ==> r[key] == info[key])
  {
  }

  lemma PutHere(info: map<string, string>, gone: set<string>,
                d: string, g: string, l: string, s: string, list: string, group: string, size: string)
    requires Distinct([d, g, l, s])
    ensures var r := Put(info, gone, d, g, l, s, list, group, size);
            d in r && r[d] == list && g in r && r[g] == group && l in r && r[l] == list && s in r && r[s] == size
  {
    var keys := [d, g, l, s];
    assert keys[0] != keys[1] && keys[0] != keys[2] && keys[0] != keys[3];
    assert keys[1] != keys[2] && keys[1] != keys[3] && keys[2] != keys[3];
  }

  /** Every key is there to be erased when its turn comes. */
  predicate Erasable(info: map<string, string>, keys: seq<string>) {
    Distinct(keys) && forall i | 0 <= i < |keys| :: keys[i] in info
  }

  predicate Replaceable(info: map<string, string>) {
    && PARTITION_GROUPS in info
    && PARTITION_SIZE in info
    && Erasable(info, GroupKeys(Split(info[PARTITION_GROUPS], ' ')))
  }

  /** Only the keys before the first one missing are gone. */
  ghost predicate PartlyErased(now: map<string, string>, before: map<string, string>, keys: seq<string>) {
    exists n | 0 <= n < |keys| :: ErasedBefore(now, before, keys, n)
  }

  ghost predicate ErasedBefore(now: map<string, string>, before: map<string, string>, keys: seq<string>, n: nat)
    requires n < |keys|
  {
    && now == before - AsSet(keys[..n])
    && Erasable(before, keys[..n])
    && (keys[n] !in before || keys[n] in keys[..n])
  }

  /** The map when the lists are written but the group has no size. */
  function Listed(info: map<string, string>, components: seq<string>): map<string, string>
    requires PARTITION_GROUPS in info
  {
    (info - AsSet(GroupKeys(Split(info[PARTITION_GROUPS], ' '))))
      [DYNAMIC_PARTITIONS := Join(components, ' ')]
      [PARTITION_GROUPS := GOOGLE_GROUP]
      [ListKey(GOOGLE_GROUP) := Join(components, ' ')]
  }

  class Info {
    var entries: map<string, string>

    constructor (entries: map<string, string>)
      ensures this.entries == entries
    {
      this.entries := entries;
    }

    /** Erases the keys in turn and stops at the first one missing. */
    method EraseAll(keys: seq<string>) returns (ok: bool)
      modifies this
      ensures ok <==> Erasable(old(entries), keys)
      ensures ok ==> entries == old(entries) - AsSet(keys)
      ensures !ok ==> PartlyErased(entries, old(entries), keys)
    {
      for n := 0 to |keys|
        invariant entries == old(entries) - AsSet(keys[..n])
        invariant Distinct(keys[..n])
        invariant forall i | 0 <= i < n :: keys[i] in old(entries)
      {
        assert keys[..n + 1] == keys[..n] + [keys[n]];
        assert keys[n] in AsSet(keys[..n]) <==> keys[n] in keys[..n];
        if keys[n] !in entries {
          assert ErasedBefore(entries, old(entries), keys, n);
          return false;
        }
        entries := entries - {keys[n]};
        assert AsSet(keys[..n + 1]) == AsSet(keys[..n]) + {keys[n]};
      }
      assert keys[..|keys|] == keys;
      ok := true;
    }

    /** `SetSuperPartitionComponents`: puts every dynamic partition under one group. */
    method SetSuperPartitionComponents(components: seq<string>) returns (ok: bool)
      modifies this
      ensures ok <==> Replaceable(old(entries))
      ensures ok ==> entries == Replaced(old(entries), components)
      ensures PARTITION_GROUPS !in old(entries) ==> entries == old(entries)
      ensures !ok && PARTITION_GROUPS in old(entries) ==>
                var keys := GroupKeys(Split(old(entries)[PARTITION_GROUPS], ' '));
                if Erasable(old(entries), keys)
                then PARTITION_SIZE !in old(entries) && entries == Listed(old(entries), components)
                else PartlyErased(entries, old(entries), keys)
    {
      if PARTITION_GROUPS !in entries {
        return false;
      }
      var keys := GroupKeys(Split(entries[PARTITION_GROUPS], ' '));
      SizeIsNoGroupKey(Split(entries[PARTITION_GROUPS], ' '));
      WrittenKeysDiffer();
      var erased := EraseAll(keys);
      if !erased {
        return false;
      }
      entries := entries[DYNAMIC_PARTITIONS := Join(components, ' ')];
      entries := entries[PARTITION_GROUPS := GOOGLE_GROUP];
      entries := entries[ListKey(GOOGLE_GROUP) := Join(components, ' ')];
      if PARTITION_SIZE !in entries {
        return false;
      }
      entries := entries[SizeKey(GOOGLE_GROUP) := entries[PARTITION_SIZE]];
      ok := true;
    }
  }

  lemma KeyEndings(group: string)
    ensures var k := ListKey(group); |k| > 6 && k[0] == 's' && k[|k| - 1] == 't'
    ensures var k := SizeKey(group); |k| > 6 && k[0] == 's' && k[|k| - 1] == 'e' && k[|k| - 6] == 'p'
  {
  }

  lemma WrittenKeysDiffer()
    ensures Distinct([DYNAMIC_PARTITIONS, PARTITION_GROUPS, ListKey(GOOGLE_GROUP), SizeKey(GOOGLE_GROUP)])
    ensures PARTITION_SIZE != DYNAMIC_PARTITIONS && PARTITION_SIZE != PARTITION_GROUPS
         && PARTITION_SIZE != ListKey(GOOGLE_GROUP) && PARTITION_SIZE != SizeKey(GOOGLE_GROUP)
  {
    KeyEndings(GOOGLE_GROUP);
    assert PARTITION_SIZE[|PARTITION_SIZE| - 6] == 'n' && PARTITION_SIZE[|PARTITION_SIZE| - 1] == 'e';
    assert PARTITION_GROUPS[|PARTITION_GROUPS| - 1] == 's';
    assert DYNAMIC_PARTITIONS[0] == 'd' && PARTITION_SIZE[0] == 's' && PARTITION_GROUPS[0] == 's';
  }

  lemma {:induction false} SizeIsNoGroupKey(groups: seq<string>)
    ensures PARTITION_SIZE !in GroupKeys(groups)
  {
    if groups != [] {
      KeyEndings(groups[0]);
      assert PARTITION_SIZE[|PARTITION_SIZE| - 6] == 'n' && PARTITION_SIZE[|PARTITION_SIZE| - 1] == 'e';
      SizeIsNoGroupKey(groups[1..]);
    }
  }

  /** What a successful set leaves under the keys it writes and under the size key. */
  lemma ReplacedHolds(info: map<string, string>, components: seq<string>)
    requires PARTITION_GROUPS in info && PARTITION_SIZE in info
    ensures var r := Replaced(info, components);
            && DYNAMIC_PARTITIONS in r && r[DYNAMIC_PARTITIONS] == Join(components, ' ')
            && PARTITION_GROUPS in r && r[PARTITION_GROUPS] == GOOGLE_GROUP
            && ListKey(GOOGLE_GROUP) in r && r[ListKey(GOOGLE_GROUP)] == Join(components, ' ')
            && SizeKey(GOOGLE_GROUP) in r && r[SizeKey(GOOGLE_GROUP)] == info[PARTITION_SIZE]
            && PARTITION_SIZE in r && r[PARTITION_SIZE] == info[PARTITION_SIZE]
  {
    WrittenKeysDiffer();
    var groups := Split(info[PARTITION_GROUPS], ' ');
    SizeIsNoGroupKey(groups);
    PutHere(info, AsSet(GroupKeys(groups)), DYNAMIC_PARTITIONS, PARTITION_GROUPS, ListKey(GOOGLE_GROUP),
            SizeKey(GOOGLE_GROUP), Join(components, ' '), GOOGLE_GROUP, info[PARTITION_SIZE]);
    PutElsewhere(info, AsSet(GroupKeys(groups)), DYNAMIC_PARTITIONS, PARTITION_GROUPS, ListKey(GOOGLE_GROUP),
                 SizeKey(GOOGLE_GROUP), Join(components, ' '), GOOGLE_GROUP, info[PARTITION_SIZE], PARTITION_SIZE);
  }

  /** The entries of the one group, under the keys they are read from. */
  lemma GoogleEntries(info: map<string, string>, components: seq<string>)
    requires "super_partition_groups" in info && "super_partition_size" in info
    ensures var r := Replaced(info, components);
            var group := "google_dynamic_partitions";
            var listKey, sizeKey := "super_" + group + "_partition_list", "super_" + group + "_group_size";
            && "dynamic_partition_list" in r && r["dynamic_partition_list"] == Join(components, ' ')
            && "super_partition_groups" in r && r["super_partition_groups"] == "google_dynamic_partitions"
            && listKey in r && r[listKey] == Join(components, ' ')
            && sizeKey in r && r[sizeKey] == info["super_partition_size"]
  {
    ReplacedHolds(info, components);
    GroupKeyNames("google_dynamic_partitions");
  }

  /** A group name without a NUL goes into its two keys as it is. */
  lemma GroupKeyNames(group: string)
    requires (0 as char) !in group
    ensures ListKey(group) == "super_" + group + "_partition_list" && SizeKey(group) == "super_" + group + "_group_size"
  {
    assert Find(group, 0 as char) == |group| && group[..|group|] == group;
  }

  /** The keys to erase are each group's list key and then its size key, group by group. */
  lemma {:induction false} GroupKeysAt(groups: seq<string>, i: nat)
    requires i < |groups|
    ensures |GroupKeys(groups)| == 2 * |groups|
    ensures GroupKeys(groups)[2 * i] == ListKey(groups[i]) && GroupKeys(groups)[2 * i + 1] == SizeKey(groups[i])
  {
    if |groups| > 1 {
      GroupKeysAt(groups[1..], if i > 0 then i - 1 else 0);
    } else {
      assert GroupKeys(groups[1..]) == [];
    }
  }

  /** Every key other than the erased and the written ones is untouched. */
  lemma ReplacedFrame(info: map<string, string>, components: seq<string>, key: string)
    requires PARTITION_GROUPS in info && PARTITION_SIZE in info
    requires key !in GroupKeys(Split(info[PARTITION_GROUPS], ' '))
    requires key != DYNAMIC_PARTITIONS && key != PARTITION_GROUPS
    requires key != ListKey(GOOGLE_GROUP) && key != SizeKey(GOOGLE_GROUP)
    ensures var r := Replaced(info, components);
            (key in r <==> key in info) && (key in info ==> r[key] == info[key])
  {
    PutElsewhere(info, AsSet(GroupKeys(Split(info[PARTITION_GROUPS], ' '))), DYNAMIC_PARTITIONS, PARTITION_GROUPS,
                 ListKey(GOOGLE_GROUP), SizeKey(GOOGLE_GROUP), Join(components, ' '), GOOGLE_GROUP,
                 info[PARTITION_SIZE], key);
  }

  /** Reading after a successful set gives the list back exactly when its names are plain. */
  lemma SetThenRead(info: map<string, string>, components: seq<string>)
    requires Replaceable(info)
    ensures DYNAMIC_PARTITIONS in Replaced(info, components)
    ensures Components(Replaced(info, components)[DYNAMIC_PARTITIONS]) == components <==> AllPlain(components)
  {
    ReplacedHolds(info, components);
    ComponentsRoundTrip(components);
  }

  lemma GoogleKeys()
    ensures GroupKeys(Split(GOOGLE_GROUP, ' ')) == [ListKey(GOOGLE_GROUP), SizeKey(GOOGLE_GROUP)]
  {
    SplitNone(GOOGLE_GROUP, ' ');
    KeysOfOne(GOOGLE_GROUP);
  }

  lemma KeysOfOne(group: string)
    ensures GroupKeys([group]) == [ListKey(group), SizeKey(group)]
  {
    assert [group][1..] == [];
    assert GroupKeys([group]) == [ListKey(group), SizeKey(group)] + GroupKeys([]);
  }

  /** Setting twice is setting once. */
  lemma LastSetWins(info: map<string, string>, first: seq<string>, second: seq<string>)
    requires Replaceable(info)
    ensures Replaceable(Replaced(info, first))
    ensures Replaced(Replaced(info, first), second) == Replaced(info, second)
  {
    ReplacedHolds(info, first);
    WrittenKeysDiffer();
    GoogleKeys();
    var l, s := ListKey(GOOGLE_GROUP), SizeKey(GOOGLE_GROUP);
    TwoKeys(l, s);
    KeyEndings(GOOGLE_GROUP);
    PutTwice(info, AsSet(GroupKeys(Split(info[PARTITION_GROUPS], ' '))), DYNAMIC_PARTITIONS, PARTITION_GROUPS,
             l, s, Join(first, ' '), Join(second, ' '), GOOGLE_GROUP, info[PARTITION_SIZE]);
  }

  lemma TwoKeys(l: string, s: string)
    ensures AsSet([l, s]) == {l, s}
    ensures l != s ==> Distinct([l, s])
  {
  }
}
