/** The command line flag parser.  A flag's setter is an arbitrary callback: its verdict may depend on
    every setter call made so far, which the model records in order. */
module FlagParser {
  import opened Sequences
  import opened Wrappers

  datatype Mode = Prefix | Exact | ConsumesFollowing | ConsumesArbitrary

  datatype Alias = Alias(mode: Mode, name: string)

  datatype Match = Match(key: string, value: string)

  type Setter = (seq<Match>, Match) -> bool

  datatype Flag = Flag(aliases: seq<Alias>, setter: Option<Setter>)

  datatype Verdict = Error | Skip | Consumed | WithFollowing | OnlyFollowing

  predicate StartsWith(s: string, prefix: string) {
    |prefix| <= |s| && s[..|prefix|] == prefix
  }

  predicate AliasMatches(a: Alias, arg: string) {
    if a.mode == Prefix then StartsWith(arg, a.name) else arg == a.name
  }

  predicate FlagMatches(f: Flag, arg: string) {
    exists i | 0 <= i < |f.aliases| :: AliasMatches(f.aliases[i], arg)
  }

  predicate LikelyFlag(arg: string) {
    StartsWith(arg, "-")
  }

  // ---------- one argument ----------

  /** What a matching alias passes to the setter and consumes if the setter agrees. */
  function Reaction(a: Alias, arg: string, next: Option<string>): Option<(Match, Verdict)>
    requires AliasMatches(a, arg)
  {
    match a.mode
    case ConsumesArbitrary =>
      if next == None || LikelyFlag(next.value) then Some((Match(arg, ""), Consumed))
      else Some((Match(arg, next.value), OnlyFollowing))
    case ConsumesFollowing =>
      if next == None then None else Some((Match(arg, next.value), WithFollowing))
    case Exact => Some((Match(arg, arg), Consumed))
    case Prefix => Some((Match(a.name, arg[|a.name|..]), Consumed))
  }

  /** The first alias that matches, in the order they were added. */
  function FirstMatch(aliases: seq<Alias>, arg: string): (a: Option<Alias>)
    ensures a == None <==> forall i | 0 <= i < |aliases| :: !AliasMatches(aliases[i], arg)
    ensures a.Some? ==> AliasMatches(a.value, arg)
    ensures a.Some? ==> exists i | 0 <= i < |aliases| ::
              aliases[i] == a.value && forall j | 0 <= j < i :: !AliasMatches(aliases[j], arg)
  {
    if aliases == [] then None
    else if AliasMatches(aliases[0], arg) then Some(aliases[0])
    else FirstMatch(aliases[1..], arg)
  }

  datatype Result = Result(verdict: Verdict, calls: seq<Match>)

  function Process(f: Flag, arg: string, next: Option<string>, calls: seq<Match>): (r: Result)
    ensures r.verdict == WithFollowing || r.verdict == OnlyFollowing ==> next.Some?
    ensures !FlagMatches(f, arg) && (f.setter.Some? || f.aliases == []) <==> r.verdict == Skip
    ensures r.verdict == Skip ==> r.calls == calls
  {
    if f.setter == None && |f.aliases| > 0 then Result(Error, calls)
    else
      match FirstMatch(f.aliases, arg)
      case None => Result(Skip, calls)
      case Some(a) =>
        match Reaction(a, arg, next)
        case None => Result(Error, calls)
        case Some((m, verdict)) =>
          Result(if f.setter.value(calls, m) then verdict else Error, calls + [m])
  }

  // ---------- one flag over the whole argument list ----------

  datatype Scanned = Scanned(ok: bool, kept: seq<string>, calls: seq<Match>)

  /** The reference: one left-to-right pass that keeps what the flag skips. */
  function Scan(f: Flag, args: seq<string>, calls: seq<Match>): Scanned
    decreases |args|
  {
    if args == [] then Scanned(true, [], calls)
    else
      var next := if |args| > 1 then Some(args[1]) else None;
      var r := Process(f, args[0], next, calls);
      match r.verdict
      case Error => Scanned(false, args, r.calls)
      case Consumed => Scan(f, args[1..], r.calls)
      case WithFollowing => Scan(f, args[2..], r.calls)
      case OnlyFollowing => Scan(f, [args[0]] + args[2..], r.calls)
      case Skip => Keep(args[0], Scan(f, args[1..], r.calls))
  }

  function Keep(arg: string, s: Scanned): Scanned {
    s.(kept := [arg] + s.kept)
  }

  /** `Flag::Parse`: erases what the flag consumes from the vector, in place. */
  method Parse(f: Flag, arguments: seq<string>, calls: seq<Match>)
    returns (ok: bool, rest: seq<string>, made: seq<Match>)
    ensures Scan(f, arguments, calls) == Scanned(ok, rest, made)
    ensures ok ==> Subsequence(rest, arguments) && Passes(f, rest)
  {
    rest, made := arguments, calls;
    var i := 0;
    while i < |rest|
      invariant 0 <= i <= |rest|
      invariant Scan(f, arguments, calls) == KeepAll(rest[..i], Scan(f, rest[i..], made))
      decreases |rest| - i
    {
      var next := if i < |rest| - 1 then Some(rest[i + 1]) else None;
      var r := Process(f, rest[i], next, made);
      Tails(rest, i);
      made := r.calls;
      match r.verdict {
        case Error =>
          return false, rest, made;
        case Consumed =>
          Erased(rest, i, i + 1);
          rest := Erase(rest, i, i + 1);
        case WithFollowing =>
          Erased(rest, i, i + 2);
          rest := Erase(rest, i, i + 2);
        case OnlyFollowing =>
          ErasedNext(rest, i);
          rest := Erase(rest, i + 1, i + 2);
        case Skip =>
          KeepAllSnoc(rest[..i], rest[i], Scan(f, rest[i + 1..], made));
          i := i + 1;
      }
    }
    assert rest[..i] == rest;
    ScanKeepsUnmatched(f, arguments, calls);
    ok := true;
  }

  function KeepAll(args: seq<string>, s: Scanned): Scanned {
    s.(kept := args + s.kept)
  }

  lemma KeepAllSnoc(args: seq<string>, arg: string, s: Scanned)
    ensures KeepAll(args, Keep(arg, s)) == KeepAll(args + [arg], s)
  {
    assert args + ([arg] + s.kept) == (args + [arg]) + s.kept;
  }

  function Erase(args: seq<string>, i: nat, j: nat): (r: seq<string>)
    requires i <= j <= |args|
    ensures |r| == |args| - (j - i)
  {
    args[..i] + args[j..]
  }

  lemma Erased(args: seq<string>, i: nat, j: nat)
    requires i <= j <= |args|
    ensures Erase(args, i, j)[..i] == args[..i] && Erase(args, i, j)[i..] == args[j..]
  {
  }

  lemma ErasedNext(args: seq<string>, i: nat)
    requires i + 2 <= |args|
    ensures Erase(args, i + 1, i + 2)[..i] == args[..i]
    ensures Erase(args, i + 1, i + 2)[i..] == [args[i]] + args[i + 2..]
  {
  }

  lemma Tails(args: seq<string>, i: nat)
    requires i < |args|
    ensures args[..i] + args[i..] == args && args[..i] + [args[i]] == args[..i + 1]
    ensures |args[i..]| == |args| - i && args[i..][0] == args[i] && args[i..][1..] == args[i + 1..]
    ensures i + 1 < |args| ==> args[i..][1] == args[i + 1] && args[i..][2..] == args[i + 2..]
  {
  }

  // ---------- what is left ----------

  /** A flag that lets an argument pass leaves it; it has a setter or nothing to match. */
  predicate Passes(f: Flag, args: seq<string>) {
    && (forall i | 0 <= i < |args| :: !FlagMatches(f, args[i]))
    && (args != [] ==> f.setter.Some? || f.aliases == [])
  }

  lemma {:induction false} ScanKeepsUnmatched(f: Flag, args: seq<string>, calls: seq<Match>)
    ensures var s := Scan(f, args, calls);
            s.ok ==> Subsequence(s.kept, args) && Passes(f, s.kept)
    decreases |args|
  {
    if args != [] {
      var next := if |args| > 1 then Some(args[1]) else None;
      var r := Process(f, args[0], next, calls);
      assert args == [args[0]] + args[1..];
      match r.verdict
      case Error =>
      case Consumed =>
        ScanKeepsUnmatched(f, args[1..], r.calls);
        var s := Scan(f, args[1..], r.calls);
        if s.ok {
          SubsequenceSkip(s.kept, args[0], args[1..]);
        }
      case WithFollowing =>
        ScanKeepsUnmatched(f, args[2..], r.calls);
        var s := Scan(f, args[2..], r.calls);
        if s.ok {
          SubsequenceSkip(s.kept, args[1], args[2..]);
          assert args[1..] == [args[1]] + args[2..];
          SubsequenceSkip(s.kept, args[0], args[1..]);
        }
      case OnlyFollowing =>
        ScanKeepsUnmatched(f, [args[0]] + args[2..], r.calls);
        var s := Scan(f, [args[0]] + args[2..], r.calls);
        if s.ok {
          assert args == [args[0]] + ([args[1]] + args[2..]);
          SubsequenceDropSecond(s.kept, args[0], args[1], args[2..]);
        }
      case Skip =>
        ScanKeepsUnmatched(f, args[1..], r.calls);
        var s := Scan(f, args[1..], r.calls);
        if s.ok {
          SubsequenceKeep(s.kept, args[0], args[1..]);
        }
    }
  }

  /** Arguments that pass a flag go through its scan untouched, with no setter call. */
  lemma {:induction false} ScanOfPassing(f: Flag, args: seq<string>, calls: seq<Match>)
    requires Passes(f, args)
    ensures Scan(f, args, calls) == Scanned(true, args, calls)
    decreases |args|
  {
    if args != [] {
      ScanOfPassing(f, args[1..], calls);
      assert [args[0]] + args[1..] == args;
    }
  }

  // ---------- all flags ----------

  function ScanAll(flags: seq<Flag>, args: seq<string>, calls: seq<Match>): Scanned
    decreases |flags|
  {
    if flags == [] then Scanned(true, args, calls)
    else
      var s := Scan(flags[0], args, calls);
      if !s.ok then s else ScanAll(flags[1..], s.kept, s.calls)
  }

  /** On success what is left is an order-preserving part of the arguments that matches no flag. */
  method ParseFlags(flags: seq<Flag>, arguments: seq<string>, calls: seq<Match>)
    returns (ok: bool, rest: seq<string>, made: seq<Match>)
    ensures ScanAll(flags, arguments, calls) == Scanned(ok, rest, made)
    ensures ok ==> Subsequence(rest, arguments)
    ensures ok ==> forall i, j | 0 <= i < |rest| && 0 <= j < |flags| :: !FlagMatches(flags[j], rest[i])
  {
    rest, made := arguments, calls;
    SubsequenceReflexive(arguments);
    for k := 0 to |flags|
      invariant ScanAll(flags[k..], rest, made) == ScanAll(flags, arguments, calls)
      invariant Subsequence(rest, arguments)
      invariant forall j | 0 <= j < k :: Passes(flags[j], rest)
    {
      ghost var before := rest;
      assert flags[k..][1..] == flags[k + 1..];
      ok, rest, made := Parse(flags[k], rest, made);
      if !ok {
        return;
      }
      SubsequenceTransitive(rest, before, arguments);
      forall j | 0 <= j < k
        ensures Passes(flags[j], rest)
      {
        PassesSubsequence(flags[j], rest, before);
      }
    }
    assert flags[|flags|..] == [];
    ok := true;
  }

  lemma PassesSubsequence(f: Flag, a: seq<string>, b: seq<string>)
    requires Passes(f, b) && Subsequence(a, b)
    ensures Passes(f, a)
  {
    forall i | 0 <= i < |a|
      ensures !FlagMatches(f, a[i])
    {
      SubsequenceMember(a, b, i);
    }
  }

  lemma {:induction false} ScanAllPasses(flags: seq<Flag>, args: seq<string>, calls: seq<Match>)
    ensures var s := ScanAll(flags, args, calls);
            s.ok ==> Subsequence(s.kept, args) && forall j | 0 <= j < |flags| :: Passes(flags[j], s.kept)
    decreases |flags|
  {
    if flags == [] {
      SubsequenceReflexive(args);
    } else {
      ScanKeepsUnmatched(flags[0], args, calls);
      var s := Scan(flags[0], args, calls);
      if s.ok {
        ScanAllPasses(flags[1..], s.kept, s.calls);
        var t := ScanAll(flags[1..], s.kept, s.calls);
        if t.ok {
          SubsequenceTransitive(t.kept, s.kept, args);
          PassesSubsequence(flags[0], t.kept, s.kept);
        }
      }
    }
  }

  lemma {:induction false} ScanAllOfPassing(flags: seq<Flag>, args: seq<string>, calls: seq<Match>)
    requires forall j | 0 <= j < |flags| :: Passes(flags[j], args)
    ensures ScanAll(flags, args, calls) == Scanned(true, args, calls)
    decreases |flags|
  {
    if flags != [] {
      ScanOfPassing(flags[0], args, calls);
      ScanAllOfPassing(flags[1..], args, calls);
    }
  }

  /** Parsing what a successful parse left changes nothing and calls no setter, whatever the setters
      have been through in between. */
  lemma SecondParseDoesNothing(flags: seq<Flag>, args: seq<string>, calls: seq<Match>, later: seq<Match>)
    requires ScanAll(flags, args, calls).ok
    ensures var rest := ScanAll(flags, args, calls).kept;
            ScanAll(flags, rest, later) == Scanned(true, rest, later)
  {
    ScanAllPasses(flags, args, calls);
    ScanAllOfPassing(flags, ScanAll(flags, args, calls).kept, later);
  }

  // ---------- what each kind of alias hands over ----------

  /** A whole-word alias hands over the word itself and eats nothing more. */
  lemma ExactHandsOver(f: Flag, word: string, rest: seq<string>, calls: seq<Match>)
    requires f.setter.Some? && FirstMatch(f.aliases, word) == Some(Alias(Exact, word))
    ensures var m := Match(word, word);
            Scan(f, [word] + rest, calls) == if f.setter.value(calls, m) then Scan(f, rest, calls + [m])
                                             else Scanned(false, [word] + rest, calls + [m])
  {
    assert ([word] + rest)[1..] == rest;
  }

  /** An alias that wants a following word fails without one, and asks no setter. */
  lemma FollowingMissing(f: Flag, word: string, calls: seq<Match>)
    requires f.setter.Some? && FirstMatch(f.aliases, word) == Some(Alias(ConsumesFollowing, word))
    ensures Scan(f, [word], calls) == Scanned(false, [word], calls)
  {
  }

  /** Hands `key` each of the words in turn and then nothing, until the setter refuses; says how many
      words went well. */
  function Feed(setter: Setter, key: string, words: seq<string>, calls: seq<Match>): (bool, nat, seq<Match>) {
    if words == [] then
      (setter(calls, Match(key, "")), 0, calls + [Match(key, "")])
    else
      var made := calls + [Match(key, words[0])];
      if !setter(calls, Match(key, words[0])) then (false, 0, made)
      else
        var (ok, fed, after) := Feed(setter, key, words[1..], made);
        (ok, fed + 1, after)
  }

  lemma ArbitraryTakesWord(f: Flag, word: string, next: string, rest: seq<string>, calls: seq<Match>)
    requires f.setter.Some? && FirstMatch(f.aliases, word) == Some(Alias(ConsumesArbitrary, word)) && !LikelyFlag(next)
    ensures var m, args := Match(word, next), [word] + ([next] + rest);
            Scan(f, args, calls) == if f.setter.value(calls, m) then Scan(f, [word] + rest, calls + [m])
                                    else Scanned(false, args, calls + [m])
  {
    var args := [word] + ([next] + rest);
    assert args[0] == word && args[1] == next && args[2..] == rest;
  }

  lemma ArbitraryEnds(f: Flag, word: string, rest: seq<string>, calls: seq<Match>)
    requires f.setter.Some? && FirstMatch(f.aliases, word) == Some(Alias(ConsumesArbitrary, word))
    requires rest == [] || LikelyFlag(rest[0])
    ensures var m := Match(word, "");
            Scan(f, [word] + rest, calls) == if f.setter.value(calls, m) then Scan(f, rest, calls + [m])
                                             else Scanned(false, [word] + rest, calls + [m])
  {
    var args := [word] + rest;
    assert args[0] == word && args[1..] == rest && (rest != [] ==> args[1] == rest[0]);
  }

  /** An alias that takes any number of words hands over the following words one by one up to the next
      flag, then the empty value, and is then done. */
  lemma {:induction false} ArbitraryHandsOver(f: Flag, word: string, words: seq<string>, rest: seq<string>,
                                              calls: seq<Match>)
    requires f.setter.Some? && FirstMatch(f.aliases, word) == Some(Alias(ConsumesArbitrary, word))
    requires (forall i | 0 <= i < |words| :: !LikelyFlag(words[i])) && (rest == [] || LikelyFlag(rest[0]))
    ensures var (ok, fed, after) := Feed(f.setter.value, word, words, calls);
            && fed <= |words|
            && Scan(f, [word] + (words + rest), calls) ==
               if ok then Scan(f, rest, after) else Scanned(false, [word] + (words[fed..] + rest), after)
    decreases |words|
  {
    if words == [] {
      assert words + rest == rest;
      ArbitraryEnds(f, word, rest, calls);
    } else {
      var m := Match(word, words[0]);
      assert words + rest == [words[0]] + (words[1..] + rest);
      ArbitraryTakesWord(f, word, words[0], words[1..] + rest, calls);
      if f.setter.value(calls, m) {
        ArbitraryHandsOver(f, word, words[1..], rest, calls + [m]);
      }
    }
  }

  // ---------- flags in the style of gflags ----------

  /** `ValidateAlias`, for an alias added after `earlier`. */
  predicate ValidAlias(a: Alias, earlier: seq<Alias>) {
    && StartsWith(a.name, "-")
    && (a.mode == Prefix ==> a.name[|a.name| - 1] == '=')
    && a !in earlier
    && (a.mode != Prefix ==> forall m | m != Prefix :: Alias(m, a.name) !in earlier)
  }

  predicate Validated(aliases: seq<Alias>) {
    forall i | 0 <= i < |aliases| :: ValidAlias(aliases[i], aliases[..i])
  }

  /** With validated aliases an argument has at most one whole-word reading, so their order cannot
      matter. */
  lemma WholeWordAliasIsUnique(aliases: seq<Alias>, arg: string, i: nat, j: nat)
    requires Validated(aliases) && i < j < |aliases|
    requires aliases[i].mode != Prefix && AliasMatches(aliases[i], arg)
    ensures aliases[j].mode != Prefix ==> !AliasMatches(aliases[j], arg)
  {
    assert aliases[..j][i] == aliases[i] == Alias(aliases[i].mode, arg);
    assert ValidAlias(aliases[j], aliases[..j]);
  }

  /** Validated aliases never match a word that does not look like a flag, and a prefix only a word with an
      equals sign. */
  lemma ValidatedMatchesFlagsOnly(aliases: seq<Alias>, arg: string, i: nat)
    requires Validated(aliases) && i < |aliases| && AliasMatches(aliases[i], arg)
    ensures LikelyFlag(arg) && (aliases[i].mode == Prefix ==> '=' in arg)
  {
    var a := aliases[i];
    assert ValidAlias(a, aliases[..i]);
    assert a.name[..1] == "-";
    if a.mode == Prefix {
      assert arg[|a.name| - 1] == arg[..|a.name|][|a.name| - 1] == '=';
      assert arg[..1] == arg[..|a.name|][..1];
    }
  }

  function GflagsCompatFlag(name: string, setter: Setter): Flag {
    Flag([Alias(Prefix, "-" + name + "="), Alias(Prefix, "--" + name + "="),
          Alias(ConsumesFollowing, "-" + name), Alias(ConsumesFollowing, "--" + name)], Some(setter))
  }

  /** The four ways to give `name` the value `v` on a command line. */
  function Spelling(name: string, v: string, dashes: string, joined: bool): seq<string> {
    if joined then [dashes + name + "=" + v] else [dashes + name, v]
  }

  lemma {:induction false} AllDashes(name: string, t: string, i: nat)
    requires StartsWith("-" + name + t, name + "=")
    requires i <= |name|
    ensures (name + "=")[i] == '-'
  {
    var s := "-" + name + t;
    assert (name + "=")[i] == s[..|name| + 1][i] == s[i];
    if i > 0 {
      AllDashes(name, t, i - 1);
      assert s[i] == name[i - 1] == (name + "=")[i - 1];
    }
  }

  /** The one-dash prefix never takes the two-dash spelling. */
  lemma DashesDiffer(name: string, t: string)
    ensures !StartsWith("--" + name + t, "-" + name + "=")
  {
    if StartsWith("--" + name + t, "-" + name + "=") {
      var long, short := "--" + name + t, "-" + name + "=";
      assert long[1..] == "-" + name + t && short[1..] == name + "=";
      assert long[..|short|][1..] == long[1..][..|name| + 1];
      AllDashes(name, t, |name|);
      assert false;
    }
  }

  lemma GflagsCompatFlagIsValidated(name: string, setter: Setter)
    ensures Validated(GflagsCompatFlag(name, setter).aliases)
  {
    var aliases := GflagsCompatFlag(name, setter).aliases;
    assert |aliases[0].name| != |aliases[1].name| && |aliases[2].name| != |aliases[3].name|;
    assert aliases[..0] == [] && aliases[..1] == [aliases[0]] && aliases[..2] == [aliases[0], aliases[1]]
        && aliases[..3] == [aliases[0], aliases[1], aliases[2]];
    assert forall i | 0 <= i < 4 :: StartsWith(aliases[i].name, "-");
  }

  /** Every spelling hands the setter exactly `v`, once, and parsing goes on after it. */
  lemma SpellingsAgree(name: string, v: string, dashes: string, joined: bool, setter: Setter,
                       rest: seq<string>, calls: seq<Match>)
    requires dashes == "-" || dashes == "--"
    ensures var f := GflagsCompatFlag(name, setter);
            var m := Match(dashes + name + (if joined then "=" else ""), v);
            var args := Spelling(name, v, dashes, joined) + rest;
            Scan(f, args, calls) == if setter(calls, m) then Scan(f, rest, calls + [m])
                                    else Scanned(false, args, calls + [m])
  {
    FirstMatchOfSpelling(name, v, dashes, joined, setter);
    if joined {
      JoinedSpelling(GflagsCompatFlag(name, setter), dashes + name + "=", v, rest, calls);
    } else {
      assert dashes + name + "" == dashes + name;
      ApartSpelling(GflagsCompatFlag(name, setter), dashes + name, v, rest, calls);
    }
  }

  lemma JoinedSpelling(f: Flag, prefix: string, v: string, rest: seq<string>, calls: seq<Match>)
    requires f.setter.Some? && FirstMatch(f.aliases, prefix + v) == Some(Alias(Prefix, prefix))
    ensures var m, args := Match(prefix, v), [prefix + v] + rest;
            Scan(f, args, calls) == if f.setter.value(calls, m) then Scan(f, rest, calls + [m])
                                    else Scanned(false, args, calls + [m])
  {
    assert ([prefix + v] + rest)[1..] == rest;
    assert (prefix + v)[|prefix|..] == v;
  }

  lemma ApartSpelling(f: Flag, word: string, v: string, rest: seq<string>, calls: seq<Match>)
    requires f.setter.Some? && FirstMatch(f.aliases, word) == Some(Alias(ConsumesFollowing, word))
    ensures var m, args := Match(word, v), [word, v] + rest;
            Scan(f, args, calls) == if f.setter.value(calls, m) then Scan(f, rest, calls + [m])
                                    else Scanned(false, args, calls + [m])
  {
    assert ([word, v] + rest)[2..] == rest;
  }

  lemma FirstMatchOfSpelling(name: string, v: string, dashes: string, joined: bool, setter: Setter)
    requires dashes == "-" || dashes == "--"
    ensures FirstMatch(GflagsCompatFlag(name, setter).aliases, Spelling(name, v, dashes, joined)[0])
            == Some(if joined then Alias(Prefix, dashes + name + "=") else Alias(ConsumesFollowing, dashes + name))
  {
    var aliases := GflagsCompatFlag(name, setter).aliases;
    var arg := Spelling(name, v, dashes, joined)[0];
    var prefix := dashes + name + "=";
    if joined {
      assert (prefix + v)[..|prefix|] == prefix;
      assert AliasMatches(Alias(Prefix, prefix), arg);
    }
    if dashes == "--" {
      DashesDiffer(name, if joined then "=" + v else "");
      assert arg == "--" + name + (if joined then "=" + v else "");
      assert !AliasMatches(aliases[0], arg);
    }
    FirstOfFour(aliases, arg);
  }

  lemma FirstOfFour(aliases: seq<Alias>, arg: string)
    requires |aliases| == 4
    ensures FirstMatch(aliases, arg) ==
      if AliasMatches(aliases[0], arg) then Some(aliases[0])
      else if AliasMatches(aliases[1], arg) then Some(aliases[1])
      else if AliasMatches(aliases[2], arg) then Some(aliases[2])
      else if AliasMatches(aliases[3], arg) then Some(aliases[3])
      else None
  {
    var one, two, three := aliases[3..], aliases[2..], aliases[1..];
    assert two[1..] == one && three[1..] == two && one[1..] == [];
    assert FirstMatch(one, arg) == if AliasMatches(aliases[3], arg) then Some(aliases[3]) else None;
    assert FirstMatch(two, arg) == if AliasMatches(aliases[2], arg) then Some(aliases[2]) else FirstMatch(one, arg);
    assert FirstMatch(three, arg) == if AliasMatches(aliases[1], arg) then Some(aliases[1]) else FirstMatch(two, arg);
  }
}
