/** The packet layer of the confirmation UI protocol. */
module Packet {
  import opened Wrappers
  import opened Text
  import opened SharedBuf

  const MAX_PAYLOAD_LENGTH := 10000
  const INT_MAX := 0x7FFF_FFFF

  datatype Packet = Packet(session: string, cmd: string, infos: seq<string>)

  // ---------- writing ----------

  function SizeHeader(infos: seq<string>): string {
    if infos == [] then [] else ToDecimal(|infos[0]|) + ":" + SizeHeader(infos[1..])
  }

  function Concat(infos: seq<string>): string {
    if infos == [] then [] else infos[0] + Concat(infos[1..])
  }

  /** The text before the data. */
  function Header(p: Packet): string {
    p.session + ":" + (p.cmd + ":" + (ToDecimal(|p.infos|) + ":" + SizeHeader(p.infos)))
  }

  function Payload(p: Packet): string {
    Header(p) + Concat(p.infos)
  }

  /** `ToPayload`. */
  method ToPayload(p: Packet) returns (payload: string)
    ensures payload == Payload(p)
  {
    var n := |p.infos|;
    var sizes := "";
    for i := 0 to n
      invariant sizes + SizeHeader(p.infos[i..]) == SizeHeader(p.infos)
    {
      assert p.infos[i..][1..] == p.infos[i + 1..];
      var size := ToDecimal(|p.infos[i]|) + ":";
      assert sizes + (size + SizeHeader(p.infos[i + 1..])) == (sizes + size) + SizeHeader(p.infos[i + 1..]);
      sizes := sizes + size;
    }
    assert sizes == SizeHeader(p.infos);
    var header := p.session + ":" + p.cmd + ":" + ToDecimal(n) + ":" + sizes;
    assert header == Header(p);
    payload := header;
    for i := 0 to n
      invariant payload + Concat(p.infos[i..]) == Payload(p)
    {
      assert p.infos[i..][1..] == p.infos[i + 1..];
      assert payload + (p.infos[i] + Concat(p.infos[i + 1..])) == (payload + p.infos[i]) + Concat(p.infos[i + 1..]);
      payload := payload + p.infos[i];
    }
  }

  // ---------- parsing ----------

  /** `Fault`: the call does not return normally (a failed check, an exception from `std::stoi`, or a
      read past the last token). */
  datatype Outcome = Parsed(packet: Packet) | Rejected | Fault

  datatype Lengths = Lengths(values: seq<nat>) | BadToken | NoReturn

  /** `std::stoi` on a string of digits. */
  function DigitsToInt(digits: string): Option<nat>
    requires OnlyDigits(digits)
  {
    if digits == [] || FromDecimal(digits) > INT_MAX then None else Some(FromDecimal(digits))
  }

  /** The first `n` tokens as numbers. */
  function LengthsOf(tokens: seq<string>, n: nat): (l: Lengths)
    ensures l.Lengths? ==> |l.values| == n <= |tokens|
  {
    if n == 0 then Lengths([])
    else if tokens == [] then NoReturn
    else if !OnlyDigits(tokens[0]) then BadToken
    else if DigitsToInt(tokens[0]) == None then NoReturn
    else Prefixed(DigitsToInt(tokens[0]).value, LengthsOf(tokens[1..], n - 1))
  }

  function Prefixed(value: nat, l: Lengths): Lengths {
    if l.Lengths? then Lengths([value] + l.values) else l
  }

  function Joined(values: seq<nat>, l: Lengths): Lengths {
    if l.Lengths? then Lengths(values + l.values) else l
  }

  /** The bytes taken by the first tokens and the colon after each. */
  function Span(tokens: seq<string>): nat {
    if tokens == [] then 0 else |tokens[0]| + 1 + Span(tokens[1..])
  }

  function Sum(lengths: seq<nat>): nat {
    if lengths == [] then 0 else lengths[0] + Sum(lengths[1..])
  }

  function Cut(data: string, lengths: seq<nat>): seq<string>
    requires Sum(lengths) == |data|
  {
    if lengths == [] then []
    else [data[..lengths[0]]] + Cut(data[lengths[0]..], lengths[1..])
  }

  function Parse(data: string): Outcome {
    var tokens := Split(data, ':');
    if |tokens| < 3 then Fault
    else if !OnlyDigits(tokens[2]) then Rejected
    else if DigitsToInt(tokens[2]) == None then Fault
    else
      var n := DigitsToInt(tokens[2]).value;
      if n + 2 > |tokens| then Rejected
      else
        match LengthsOf(tokens[3..], n)
        case NoReturn => Fault
        case BadToken => Rejected
        case Lengths(lengths) =>
          var pos := Span(tokens[..3 + n]);
          if pos + Sum(lengths) != |data| then Rejected
          else Parsed(Packet(tokens[0], tokens[1], Cut(data[pos..], lengths)))
  }

  method ReadLengths(tokens: seq<string>, n: nat) returns (l: Lengths)
    requires |tokens| >= 3
    ensures l == LengthsOf(tokens[3..], n)
  {
    var lengths: seq<nat> := [];
    for i := 1 to n + 1
      invariant 2 + i <= |tokens|
      invariant Joined(lengths, LengthsOf(tokens[2 + i..], n + 1 - i)) == LengthsOf(tokens[3..], n)
    {
      LengthsStep(lengths, tokens, 2 + i, n + 1 - i);
      if 2 + i == |tokens| {
        return NoReturn;
      }
      var token := tokens[2 + i];
      if !OnlyDigits(token) {
        return BadToken;
      }
      if DigitsToInt(token) == None {
        return NoReturn;
      }
      lengths := lengths + [DigitsToInt(token).value];
    }
    return Lengths(lengths);
  }

  /** The token at `k`, then the rest. */
  lemma LengthsStep(lengths: seq<nat>, tokens: seq<string>, k: nat, n: nat)
    requires k <= |tokens| && n > 0
    ensures Joined(lengths, LengthsOf(tokens[k..], n)) ==
            if k == |tokens| then NoReturn
            else if !OnlyDigits(tokens[k]) then BadToken
            else if DigitsToInt(tokens[k]) == None then NoReturn
            else Joined(lengths + [DigitsToInt(tokens[k]).value], LengthsOf(tokens[k + 1..], n - 1))
  {
    if k < |tokens| {
      assert tokens[k..][1..] == tokens[k + 1..];
      if OnlyDigits(tokens[k]) && DigitsToInt(tokens[k]).Some? {
        JoinedSnoc(lengths, DigitsToInt(tokens[k]).value, LengthsOf(tokens[k + 1..], n - 1));
      }
    }
  }

  lemma JoinedSnoc(values: seq<nat>, value: nat, l: Lengths)
    ensures Joined(values, Prefixed(value, l)) == Joined(values + [value], l)
  {
    if l.Lengths? {
      assert values + ([value] + l.values) == (values + [value]) + l.values;
    }
  }

  method HeaderSize(tokens: seq<string>, n: nat) returns (pos: nat)
    requires 3 + n <= |tokens|
    ensures pos == Span(tokens[..3 + n])
  {
    pos := |tokens[0]| + |tokens[1]| + |tokens[2]| + 3;
    SpanSnoc(tokens, 0);
    SpanSnoc(tokens, 1);
    SpanSnoc(tokens, 2);
    for i := 1 to n + 1
      invariant pos == Span(tokens[..2 + i])
    {
      SpanSnoc(tokens, 2 + i);
      pos := pos + |tokens[2 + i]| + 1;
    }
  }

  lemma SpanSnoc(tokens: seq<string>, i: nat)
    requires i < |tokens|
    ensures Span(tokens[..i + 1]) == Span(tokens[..i]) + |tokens[i]| + 1
  {
    assert tokens[..i + 1] == tokens[..i] + [tokens[i]];
    SpanAppend(tokens[..i], [tokens[i]]);
    assert [tokens[i]][1..] == [];
  }

  lemma {:induction false} SpanAppend(a: seq<string>, b: seq<string>)
    ensures Span(a + b) == Span(a) + Span(b)
  {
    if a == [] {
      assert a + b == b;
    } else {
      assert (a + b)[1..] == a[1..] + b;
      SpanAppend(a[1..], b);
    }
  }

  method TotalLength(pos: nat, lengths: seq<nat>) returns (expected: nat)
    ensures expected == pos + Sum(lengths)
  {
    expected := pos;
    for i := 0 to |lengths|
      invariant expected + Sum(lengths[i..]) == pos + Sum(lengths)
    {
      assert lengths[i..][1..] == lengths[i + 1..];
      expected := expected + lengths[i];
    }
  }

  method CutAll(data: string, start: nat, lengths: seq<nat>) returns (infos: seq<string>)
    requires start + Sum(lengths) == |data|
    ensures infos == Cut(data[start..], lengths)
  {
    infos := [];
    var pos := start;
    for i := 0 to |lengths|
      invariant start <= pos <= |data| && Sum(lengths[i..]) == |data[pos..]|
      invariant infos + Cut(data[pos..], lengths[i..]) == Cut(data[start..], lengths)
    {
      var len := lengths[i];
      assert lengths[i..][1..] == lengths[i + 1..];
      assert data[pos..][..len] == data[pos..pos + len] && data[pos..][len..] == data[pos + len..];
      var info := if len == 0 then [] else data[pos..pos + len];
      assert infos + ([info] + Cut(data[pos + len..], lengths[i + 1..]))
          == (infos + [info]) + Cut(data[pos + len..], lengths[i + 1..]);
      infos := infos + [info];
      pos := pos + len;
    }
    assert lengths[|lengths|..] == [];
  }

  /** `ParseRawData`. */
  method ParseRawData(data: string) returns (o: Outcome)
    ensures o == Parse(data)
  {
    var tokens := Split(data, ':');
    if |tokens| < 3 {
      return Fault;
    }
    if !OnlyDigits(tokens[2]) {
      return Rejected;
    }
    if DigitsToInt(tokens[2]) == None {
      return Fault;
    }
    var n := DigitsToInt(tokens[2]).value;
    if n + 2 > |tokens| {
      return Rejected;
    }
    var l := ReadLengths(tokens, n);
    if !l.Lengths? {
      return if l == BadToken then Rejected else Fault;
    }
    var pos := HeaderSize(tokens, n);
    var expected := TotalLength(pos, l.values);
    if expected != |data| {
      return Rejected;
    }
    var infos := CutAll(data, pos, l.values);
    return Parsed(Packet(tokens[0], tokens[1], infos));
  }

  // ---------- round trip ----------

  predicate ColonFree(p: Packet) {
    ':' !in p.session && ':' !in p.cmd
  }

  function SizeTokens(infos: seq<string>): (r: seq<string>)
    ensures |r| == |infos|
  {
    if infos == [] then [] else [ToDecimal(|infos[0]|)] + SizeTokens(infos[1..])
  }

  function Sizes(infos: seq<string>): (r: seq<nat>)
    ensures |r| == |infos|
  {
    if infos == [] then [] else [|infos[0]|] + Sizes(infos[1..])
  }

  /** Each token and a colon after it. */
  function Colons(tokens: seq<string>): string {
    if tokens == [] then [] else tokens[0] + ":" + Colons(tokens[1..])
  }

  /** The token is `n` in digits, leading zeros allowed. */
  predicate Number(token: string, n: nat) {
    token != [] && OnlyDigits(token) && FromDecimal(token) == n && n <= INT_MAX
  }

  predicate Numbers(tokens: seq<string>, infos: seq<string>) {
    |tokens| == |infos| && forall i | 0 <= i < |infos| :: Number(tokens[i], |infos[i]|)
  }

  predicate EncodedAs(data: string, p: Packet, count: string, sizes: seq<string>) {
    && ColonFree(p) && Number(count, |p.infos|) && Numbers(sizes, p.infos)
    && data == Colons([p.session, p.cmd, count] + sizes) + Concat(p.infos)
  }

  /** The data are session id, command, number of items and their sizes, each followed by a colon, and
      then the items. */
  ghost predicate Encodes(data: string, p: Packet) {
    exists count: string, sizes: seq<string> :: EncodedAs(data, p, count, sizes)
  }

  lemma {:induction false} ColonsAppend(a: seq<string>, b: seq<string>)
    ensures Colons(a + b) == Colons(a) + Colons(b)
    decreases |a|
  {
    if a == [] {
      assert a + b == b;
    } else {
      assert (a + b)[1..] == a[1..] + b;
      ColonsAppend(a[1..], b);
    }
  }

  lemma {:induction false} ColonsMeasure(tokens: seq<string>)
    ensures |Colons(tokens)| == Span(tokens)
  {
    if tokens != [] {
      ColonsMeasure(tokens[1..]);
    }
  }

  lemma SplitWord(word: string, header: string, data: string)
    requires ':' !in word
    ensures Split(word + ":" + header + data, ':') == [word] + Split(header + data, ':')
  {
    assert word + ":" + header + data == word + [':'] + (header + data);
    SplitHead(word, header + data, ':');
  }

  lemma {:induction false} SplitColons(tokens: seq<string>, data: string)
    requires forall i | 0 <= i < |tokens| :: ':' !in tokens[i]
    ensures Split(Colons(tokens) + data, ':') == tokens + Split(data, ':')
    decreases |tokens|
  {
    if tokens == [] {
      assert Colons(tokens) + data == data;
    } else {
      SplitColons(tokens[1..], data);
      SplitWord(tokens[0], Colons(tokens[1..]), data);
      assert tokens == [tokens[0]] + tokens[1..];
    }
  }

  lemma DigitsHaveNoColon(token: string)
    requires OnlyDigits(token)
    ensures ':' !in token
  {
    assert forall i | 0 <= i < |token| :: IsDigit(token[i]);
  }

  lemma {:induction false} LengthsOfNumbers(tokens: seq<string>, infos: seq<string>, rest: seq<string>)
    requires Numbers(tokens, infos)
    ensures LengthsOf(tokens + rest, |infos|) == Lengths(Sizes(infos))
    decreases |infos|
  {
    if infos != [] {
      assert Number(tokens[0], |infos[0]|);
      assert (tokens + rest)[0] == tokens[0] && (tokens + rest)[1..] == tokens[1..] + rest;
      LengthsOfNumbers(tokens[1..], infos[1..], rest);
    }
  }

  lemma {:induction false} CutConcat(infos: seq<string>)
    ensures Sum(Sizes(infos)) == |Concat(infos)|
    ensures Cut(Concat(infos), Sizes(infos)) == infos
  {
    if infos != [] {
      CutConcat(infos[1..]);
      assert Sizes(infos)[1..] == Sizes(infos[1..]);
      assert Concat(infos)[..|infos[0]|] == infos[0] && Concat(infos)[|infos[0]|..] == Concat(infos[1..]);
      assert [infos[0]] + infos[1..] == infos;
    }
  }

  lemma Slices(a: seq<string>, b: seq<string>, c: seq<string>)
    requires |a| == 3
    ensures (a + b + c)[3..] == b + c && (a + b + c)[..3 + |b|] == a + b
    ensures forall i | 0 <= i < 3 :: (a + b + c)[i] == a[i]
  {
  }

  lemma ParseEncoded(data: string, p: Packet, count: string, sizes: seq<string>)
    requires EncodedAs(data, p, count, sizes)
    ensures Parse(data) == Parsed(p)
  {
    var head, rest := [p.session, p.cmd, count], Split(Concat(p.infos), ':');
    forall i | 0 <= i < |head + sizes|
      ensures ':' !in (head + sizes)[i]
    {
      if i >= 3 {
        assert Number(sizes[i - 3], |p.infos[i - 3]|);
        DigitsHaveNoColon(sizes[i - 3]);
      } else if i == 2 {
        DigitsHaveNoColon(count);
      }
    }
    SplitColons(head + sizes, Concat(p.infos));
    Slices(head, sizes, rest);
    LengthsOfNumbers(sizes, p.infos, rest);
    ColonsMeasure(head + sizes);
    CutConcat(p.infos);
    assert data[|Colons(head + sizes)|..] == Concat(p.infos);
  }

  // ---------- whatever parses is an encoding ----------

  lemma {:induction false} JoinColons(a: seq<string>, b: seq<string>)
    requires b != []
    ensures Join(a + b, ':') == Colons(a) + Join(b, ':')
    decreases |a|
  {
    if a == [] {
      assert a + b == b;
    } else {
      assert (a + b)[1..] == a[1..] + b;
      JoinColons(a[1..], b);
    }
  }

  lemma {:induction false} CutIsInverse(data: string, lengths: seq<nat>)
    requires Sum(lengths) == |data|
    ensures Concat(Cut(data, lengths)) == data && Sizes(Cut(data, lengths)) == lengths
    decreases |lengths|
  {
    if lengths != [] {
      var tail := data[lengths[0]..];
      CutIsInverse(tail, lengths[1..]);
      assert Cut(data, lengths)[1..] == Cut(tail, lengths[1..]);
      assert data == data[..lengths[0]] + tail;
    }
  }

  lemma {:induction false} NumbersOfLengths(tokens: seq<string>, infos: seq<string>)
    requires LengthsOf(tokens, |infos|) == Lengths(Sizes(infos))
    ensures Numbers(tokens[..|infos|], infos)
    decreases |infos|
  {
    if infos != [] {
      assert Sizes(infos)[1..] == Sizes(infos[1..]);
      var rest := LengthsOf(tokens[1..], |infos| - 1);
      assert rest.values == Lengths(Sizes(infos)).values[1..];
      NumbersOfLengths(tokens[1..], infos[1..]);
      assert tokens[..|infos|] == [tokens[0]] + tokens[1..][..|infos| - 1];
      assert infos == [infos[0]] + infos[1..];
    }
  }

  lemma ParsedParts(data: string)
    requires Parse(data).Parsed?
    ensures var tokens, p := Split(data, ':'), Parse(data).packet;
            var n := |p.infos|;
            && |tokens| >= 3 + n && p.session == tokens[0] && p.cmd == tokens[1] && Number(tokens[2], n)
            && LengthsOf(tokens[3..], n) == Lengths(Sizes(p.infos))
            && Span(tokens[..3 + n]) <= |data| && Concat(p.infos) == data[Span(tokens[..3 + n])..]
  {
    var tokens := Split(data, ':');
    var n := DigitsToInt(tokens[2]).value;
    CutIsInverse(data[Span(tokens[..3 + n])..], LengthsOf(tokens[3..], n).values);
  }

  lemma ParsedIsEncoded(data: string)
    requires Parse(data).Parsed?
    ensures Encodes(data, Parse(data).packet)
  {
    ParsedParts(data);
    JoinSplit(data, ':');
    Assemble(data, Split(data, ':'), Parse(data).packet);
  }

  lemma Assemble(data: string, tokens: seq<string>, p: Packet)
    requires data == Join(tokens, ':') && |tokens| >= 3 + |p.infos| && ColonFree(p)
    requires p.session == tokens[0] && p.cmd == tokens[1] && Number(tokens[2], |p.infos|)
    requires LengthsOf(tokens[3..], |p.infos|) == Lengths(Sizes(p.infos))
    requires Span(tokens[..3 + |p.infos|]) <= |data| && Concat(p.infos) == data[Span(tokens[..3 + |p.infos|])..]
    ensures Encodes(data, p)
  {
    var n := |p.infos|;
    HeaderThenData(data, tokens, 3 + n);
    NumbersOfLengths(tokens[3..], p.infos);
    HeadParts(tokens, n);
    assert EncodedAs(data, p, tokens[2], tokens[3..][..n]);
  }

  lemma HeadParts(tokens: seq<string>, n: nat)
    requires |tokens| >= 3 + n
    ensures tokens[..3 + n] == [tokens[0], tokens[1], tokens[2]] + tokens[3..][..n]
  {
  }

  lemma HeaderThenData(data: string, tokens: seq<string>, k: nat)
    requires tokens != [] && data == Join(tokens, ':') && k <= |tokens| && Span(tokens[..k]) <= |data|
    ensures data == Colons(tokens[..k]) + data[Span(tokens[..k])..]
  {
    TokensLeft(data, tokens, k);
    ColonsMeasure(tokens[..k]);
    assert tokens == tokens[..k] + tokens[k..];
    JoinColons(tokens[..k], tokens[k..]);
  }

  /** A header that runs to the end of the data is longer than the data. */
  lemma TokensLeft(data: string, tokens: seq<string>, k: nat)
    requires tokens != [] && data == Join(tokens, ':') && k <= |tokens| && Span(tokens[..k]) <= |data|
    ensures k < |tokens|
  {
    assert k == |tokens| ==> tokens[..k] == tokens;
    JoinMeasure(tokens);
  }

  lemma {:induction false} JoinMeasure(tokens: seq<string>)
    requires tokens != []
    ensures |Join(tokens, ':')| + 1 == Span(tokens)
  {
    if |tokens| > 1 {
      JoinMeasure(tokens[1..]);
    } else {
      assert tokens[1..] == [];
    }
  }

  /** Parsing succeeds exactly on encodings, and gives the packet encoded. */
  lemma ParsesExactlyEncodings(data: string, p: Packet)
    ensures Parse(data) == Parsed(p) <==> Encodes(data, p)
  {
    if Parse(data) == Parsed(p) {
      ParsedIsEncoded(data);
    }
    if Encodes(data, p) {
      var count: string, sizes: seq<string> :| EncodedAs(data, p, count, sizes);
      ParseEncoded(data, p, count, sizes);
    }
  }

  /** A header that announces more items than it has sizes for: one too many is read past the last token,
      more than that is refused. */
  lemma TooFewSizes(data: string, n: nat)
    requires var tokens := Split(data, ':');
             && |tokens| >= 3 && Number(tokens[2], n) && n > |tokens| - 3
             && forall i | 3 <= i < |tokens| :: Number(tokens[i], FromDecimalOr0(tokens[i]))
    ensures Parse(data) == if n == |Split(data, ':')| - 2 then Fault else Rejected
  {
    var tokens := Split(data, ':');
    if n == |tokens| - 2 {
      RunsOut(tokens[3..], n);
    }
  }

  function FromDecimalOr0(token: string): nat {
    if OnlyDigits(token) then FromDecimal(token) else 0
  }

  lemma {:induction false} RunsOut(tokens: seq<string>, n: nat)
    requires n > |tokens| && forall i | 0 <= i < |tokens| :: Number(tokens[i], FromDecimalOr0(tokens[i]))
    ensures LengthsOf(tokens, n) == NoReturn
    decreases n
  {
    if tokens != [] {
      RunsOut(tokens[1..], n - 1);
    }
  }

  // ---------- round trip of what is sent ----------

  lemma {:induction false} SizeHeaderColons(infos: seq<string>)
    ensures SizeHeader(infos) == Colons(SizeTokens(infos))
  {
    if infos != [] {
      SizeHeaderColons(infos[1..]);
      assert SizeTokens(infos)[1..] == SizeTokens(infos[1..]);
    }
  }

  lemma {:induction false} SizeTokensAreNumbers(infos: seq<string>)
    requires |Concat(infos)| <= INT_MAX
    ensures Numbers(SizeTokens(infos), infos)
  {
    if infos != [] {
      DecimalRoundTrip(|infos[0]|);
      SizeTokensAreNumbers(infos[1..]);
    }
  }

  lemma {:induction false} SizesTakeRoom(infos: seq<string>)
    ensures |infos| <= |SizeHeader(infos)|
  {
    if infos != [] {
      SizesTakeRoom(infos[1..]);
    }
  }

  lemma PayloadIsEncoded(p: Packet)
    requires ColonFree(p) && |Payload(p)| <= INT_MAX
    ensures EncodedAs(Payload(p), p, ToDecimal(|p.infos|), SizeTokens(p.infos))
  {
    var n, sizes := ToDecimal(|p.infos|), SizeTokens(p.infos);
    SizesTakeRoom(p.infos);
    DecimalRoundTrip(|p.infos|);
    SizeTokensAreNumbers(p.infos);
    SizeHeaderColons(p.infos);
    ColonsAppend([p.session, p.cmd, n], sizes);
    assert [p.session, p.cmd, n][1..] == [p.cmd, n] && [p.cmd, n][1..] == [n] && [n][1..] == [];
    assert Colons([n]) == n + ":" && Colons([p.cmd, n]) == p.cmd + ":" + Colons([n]);
    assert Header(p) == Colons([p.session, p.cmd, n]) + Colons(sizes);
  }

  lemma ParsePayload(p: Packet)
    requires ColonFree(p) && |Payload(p)| <= INT_MAX
    ensures Parse(Payload(p)) == Parsed(p)
  {
    PayloadIsEncoded(p);
    ParseEncoded(Payload(p), p, ToDecimal(|p.infos|), SizeTokens(p.infos));
  }

  lemma ParsedIsColonFree(data: string)
    ensures Parse(data).Parsed? ==> ColonFree(Parse(data).packet)
  {
  }

  /** A packet comes back exactly when its session id and command hold no colon; its data may. */
  lemma ParseInvertsPayload(p: Packet)
    requires |Payload(p)| <= INT_MAX
    ensures Parse(Payload(p)) == Parsed(p) <==> ColonFree(p)
  {
    if ColonFree(p) {
      ParsePayload(p);
    }
  }

  // ---------- framing ----------

  function Byte(n: nat): (c: char)
    requires n < 0x100
    ensures c as int == n
  {
    n as char
  }

  /** A `uint32_t` in memory, least significant byte first; larger numbers are cut to 32 bits. */
  function LittleEndian(n: nat): (s: string)
    ensures |s| == 4
  {
    [Byte(n % 0x100), Byte(n / 0x100 % 0x100), Byte(n / 0x1_0000 % 0x100), Byte(n / 0x100_0000 % 0x100)]
  }

  function FromLittleEndian(s: string): nat
    requires |s| == 4
  {
    s[0] as int + 0x100 * s[1] as int + 0x1_0000 * s[2] as int + 0x100_0000 * s[3] as int
  }

  lemma LittleEndianRoundTrip(n: nat)
    requires n < 0x1_0000_0000
    ensures FromLittleEndian(LittleEndian(n)) == n
  {
    var a, b, c := n / 0x100, n / 0x1_0000, n / 0x100_0000;
    assert n == 0x100 * a + n % 0x100;
    assert a == 0x100 * b + a % 0x100;
    assert b == 0x100 * c + b % 0x100;
    assert c == c % 0x100;
  }

  /** What goes over the wire for one packet. */
  function Frame(p: Packet): string {
    LittleEndian(|Payload(p)|) + Payload(p)
  }

  predicate Sendable(p: Packet) {
    ColonFree(p) && |Payload(p)| < MAX_PAYLOAD_LENGTH
  }

  /** `WritePayload`. */
  method WritePayload(d: Stream, p: Packet) returns (ok: bool)
    modifies d
    ensures ok ==> d.contents == old(d.contents) + Frame(p)
    ensures d.Flows() ==> ok
  {
    var payload := ToPayload(p);
    var header := LittleEndian(|payload|);
    var written := d.WriteAll(header);
    if written != |header| {
      return false;
    }
    assert header[..|header|] == header;
    written := d.WriteAll(payload);
    if written != |payload| {
      return false;
    }
    assert payload[..|payload|] == payload;
    return true;
  }

  /** What `ReadRawData` makes of the bytes waiting, and the bytes it leaves. */
  function Unframe(c: string): (Option<string>, string) {
    if |c| < 4 then (None, [])
    else
      var length, rest := FromLittleEndian(c[..4]), c[4..];
      if length >= MAX_PAYLOAD_LENGTH then (None, rest)
      else if |rest| < length then (None, [])
      else (Some(rest[..length]), rest[length..])
  }

  /** `ReadRawData`: `None` is `nullopt`. */
  method ReadRawData(s: Stream) returns (r: Option<string>)
    modifies s
    ensures s.Flows() || r.Some? ==> (r, s.contents) == Unframe(old(s.contents))
  {
    ghost var all := s.contents;
    var n, header := s.ReadExact(4);
    if n != 4 {
      return None;
    }
    assert all[..4] == header && all[4..] == s.contents;
    var length := FromLittleEndian(header);
    if length == 0 {
      return Some([]);
    }
    if length >= MAX_PAYLOAD_LENGTH {
      return None;
    }
    ghost var rest := s.contents;
    var data;
    n, data := s.ReadExact(length);
    if n != length {
      return None;
    }
    assert rest[..length] == data && rest[length..] == s.contents;
    return Some(data);
  }

  lemma UnframeFrame(p: Packet, rest: string)
    requires |Payload(p)| < MAX_PAYLOAD_LENGTH
    ensures Unframe(Frame(p) + rest) == (Some(Payload(p)), rest)
  {
    var c := Frame(p) + rest;
    LittleEndianRoundTrip(|Payload(p)|);
    assert c[..4] == LittleEndian(|Payload(p)|) && c[4..] == Payload(p) + rest;
  }

  function Received(raw: Option<string>): Outcome {
    if raw == None then Rejected else Parse(raw.value)
  }

  /** `ReadPayload`. */
  method ReadPayload(s: Stream) returns (o: Outcome)
    modifies s
    ensures s.Flows() || o != Rejected ==>
              (o, s.contents) == (Received(Unframe(old(s.contents)).0), Unframe(old(s.contents)).1)
  {
    var raw := ReadRawData(s);
    if raw == None {
      return Rejected;
    }
    o := ParseRawData(raw.value);
  }

  /** One packet off the front of the stream, whatever follows it. */
  lemma ReadsBack(p: Packet, rest: string)
    requires Sendable(p)
    ensures var (raw, left) := Unframe(Frame(p) + rest);
            Received(raw) == Parsed(p) && left == rest
  {
    UnframeFrame(p, rest);
    ParsePayload(p);
  }

  function Frames(ps: seq<Packet>): string {
    if ps == [] then [] else Frame(ps[0]) + Frames(ps[1..])
  }

  method SendPackets(s: Stream, ps: seq<Packet>)
    requires s.Flows()
    modifies s
    ensures s.contents == old(s.contents) + Frames(ps)
  {
    for i := 0 to |ps|
      invariant s.contents + Frames(ps[i..]) == old(s.contents) + Frames(ps)
    {
      assert ps[i..][1..] == ps[i + 1..];
      Associative(s.contents, Frame(ps[i]), Frames(ps[i + 1..]));
      var _ := WritePayload(s, ps[i]);
    }
    assert ps[|ps|..] == [];
  }

  lemma Associative(a: string, b: string, c: string)
    ensures a + (b + c) == (a + b) + c
  {
  }

  lemma FramesStep(ps: seq<Packet>, i: nat, rest: string)
    requires i < |ps|
    ensures Frames(ps[i..]) + rest == Frame(ps[i]) + (Frames(ps[i + 1..]) + rest)
  {
    assert ps[i..][1..] == ps[i + 1..];
  }

  method ReceiveOne(s: Stream, ghost p: Packet, ghost rest: string) returns (received: Packet)
    requires s.Flows() && Sendable(p) && s.contents == Frame(p) + rest
    modifies s
    ensures received == p && s.contents == rest
  {
    ReadsBack(p, rest);
    var o := ReadPayload(s);
    received := o.packet;
  }

  /** Every one of the packets parses, and exactly their bytes are taken. */
  method ReceivePackets(s: Stream, count: nat, ghost ps: seq<Packet>, ghost rest: string)
    returns (received: seq<Packet>)
    requires s.Flows() && |ps| == count && s.contents == Frames(ps) + rest
    requires forall i | 0 <= i < |ps| :: Sendable(ps[i])
    modifies s
    ensures received == ps && s.contents == rest
  {
    received := [];
    for i := 0 to count
      invariant received == ps[..i]
      invariant s.contents == Frames(ps[i..]) + rest
    {
      FramesStep(ps, i, rest);
      var p := ReceiveOne(s, ps[i], Frames(ps[i + 1..]) + rest);
      received := received + [p];
    }
    assert ps[count..] == [];
  }

  /** Packets written one after another are read back as the same list, however short the system
      calls on either side. */
  method Exchange(s: Stream, ps: seq<Packet>) returns (received: seq<Packet>)
    requires s.contents == [] && s.Flows()
    requires forall i | 0 <= i < |ps| :: Sendable(ps[i])
    modifies s
    ensures received == ps && s.contents == []
  {
    SendPackets(s, ps);
    assert s.contents == Frames(ps) + [];
    received := ReceivePackets(s, |ps|, ps, []);
  }
}
