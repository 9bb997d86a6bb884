/** Byte strings as the C++ code sees them: a `char` stands for one 8-bit `char` of a
    `std::string`.  Everything below is total on all characters, so it covers bytes. */
module Text {

  function Digit(d: nat): (c: char)
    requires d < 10
    ensures IsDigit(c) && DigitValue(c) == d
  {
    '0' + d as char
  }

  predicate IsDigit(c: char) {
    '0' <= c <= '9'
  }

  function DigitValue(c: char): (d: nat)
    requires IsDigit(c)
  {
    (c - '0') as nat
  }

  /** `std::all_of(..., isdigit)`: the empty string passes too. */
  predicate OnlyDigits(s: string) {
    forall i | 0 <= i < |s| :: IsDigit(s[i])
  }

  /** `std::to_string` on a non-negative number. */
  function ToDecimal(n: nat): (s: string)
    ensures s != [] && OnlyDigits(s)
  {
    if n < 10 then [Digit(n)] else ToDecimal(n / 10) + [Digit(n % 10)]
  }

  /** The value of a string of digits, before any range check. */
  function FromDecimal(s: string): nat
    requires OnlyDigits(s)
  {
    if s == [] then 0 else 10 * FromDecimal(s[..|s| - 1]) + DigitValue(s[|s| - 1])
  }

  lemma {:induction false} DecimalRoundTrip(n: nat)
    ensures FromDecimal(ToDecimal(n)) == n
  {
    if n >= 10 {
      var s := ToDecimal(n);
      assert s[..|s| - 1] == ToDecimal(n / 10);
      DecimalRoundTrip(n / 10);
    }
  }

  lemma DecimalInjective(m: nat, n: nat)
    requires ToDecimal(m) == ToDecimal(n)
    ensures m == n
  {
    DecimalRoundTrip(m);
    DecimalRoundTrip(n);
  }

  /** `android::base::Split` with a one-character delimiter: never empty. */
  function Split(s: string, c: char): (parts: seq<string>)
    ensures parts != []
    ensures forall i | 0 <= i < |parts| :: c !in parts[i]
  {
    if s == [] then [[]]
    else
      var rest := Split(s[1..], c);
      if s[0] == c then [[]] + rest else [[s[0]] + rest[0]] + rest[1..]
  }

  /** `android::base::Join` with a one-character separator. */
  function Join(parts: seq<string>, c: char): string {
    if parts == [] then []
    else if |parts| == 1 then parts[0]
    else parts[0] + [c] + Join(parts[1..], c)
  }

  /** Splitting peels off a delimiter-free head, whatever follows the delimiter. */
  lemma {:induction false} SplitHead(h: string, rest: string, c: char)
    requires c !in h
    ensures Split(h + [c] + rest, c) == [h] + Split(rest, c)
    decreases |h|
  {
    var s := h + [c] + rest;
    if h == [] {
      assert s[1..] == rest;
    } else {
      assert s[1..] == h[1..] + [c] + rest;
      SplitHead(h[1..], rest, c);
      assert [h[0]] + h[1..] == h;
    }
  }

  lemma {:induction false} SplitNone(h: string, c: char)
    requires c !in h
    ensures Split(h, c) == [h]
  {
    if h != [] {
      SplitNone(h[1..], c);
      assert [h[0]] + h[1..] == h;
    }
  }

  lemma {:induction false} SplitJoin(parts: seq<string>, c: char)
    requires parts != []
    requires forall i | 0 <= i < |parts| :: c !in parts[i]
    ensures Split(Join(parts, c), c) == parts
    decreases |parts|
  {
    if |parts| == 1 {
      SplitNone(parts[0], c);
    } else {
      SplitJoin(parts[1..], c);
      SplitHead(parts[0], Join(parts[1..], c), c);
      assert [parts[0]] + parts[1..] == parts;
    }
  }

  lemma {:induction false} JoinSplit(s: string, c: char)
    ensures Join(Split(s, c), c) == s
  {
    if s != [] {
      var rest := Split(s[1..], c);
      JoinSplit(s[1..], c);
      assert s == [s[0]] + s[1..];
      if s[0] == c {
        assert ([[]] + rest)[1..] == rest;
        assert [] + [c] + Join(rest, c) == [c] + Join(rest, c);
      } else {
        JoinPrepend(s[0], rest, c);
      }
    }
  }

  lemma JoinPrepend(x: char, parts: seq<string>, c: char)
    requires parts != []
    ensures Join([[x] + parts[0]] + parts[1..], c) == [x] + Join(parts, c)
  {
    var longer := [[x] + parts[0]] + parts[1..];
    assert longer[1..] == parts[1..];
    if |parts| > 1 {
      assert [x] + parts[0] + [c] + Join(parts[1..], c) == [x] + (parts[0] + [c] + Join(parts[1..], c));
    }
  }
}
