/** The messages of the confirmation UI protocol and their packets. */
module Protocol {
  import opened Wrappers
  import opened Text
  import opened SharedBuf
  import opened Packet

  datatype Cmd = CmdUnknown | CmdStart | CmdStop | CmdAck | CmdRespond | CmdAbort | CmdInput | CmdTouch

  /** One constructor per message class. */
  datatype Message =
    | Start(session: string, prompt: string, extra: string, locale: string, options: seq<int>)
    | Stop(session: string)
    | Ack(session: string, success: bool, status: string)
    | Response(session: string, response: string, sign: string, message: string)
    | Abort(session: string)
    | Selection(session: string, response: string)
    | Touch(session: string, x: int, y: int)

  function Type(m: Message): Cmd {
    match m
    case Start(_, _, _, _, _) => CmdStart
    case Stop(_) => CmdStop
    case Ack(_, _, _) => CmdAck
    case Response(_, _, _, _) => CmdRespond
    case Abort(_) => CmdAbort
    case Selection(_, _) => CmdInput
    case Touch(_, _, _) => CmdTouch
  }

  /** The printed name of a command.  The table lists the input event twice and the touch event never,
      so a touch event prints as unknown. */
  function CmdName(c: Cmd): string {
    match c
    case CmdStart => "kStart"
    case CmdStop => "kStop"
    case CmdAck => "kCliAck"
    case CmdRespond => "kCliRespond"
    case CmdAbort => "kAbort"
    case CmdInput => "kUserInputEvent"
    case CmdTouch => "kUnknown"
    case CmdUnknown => "kUnknown"
  }

  function ToCmd(name: string): Cmd {
    if name == "kStart" then CmdStart
    else if name == "kStop" then CmdStop
    else if name == "kCliAck" then CmdAck
    else if name == "kCliRespond" then CmdRespond
    else if name == "kAbort" then CmdAbort
    else if name == "kUserInputEvent" then CmdInput
    else if name == "kUserTouchEvent" then CmdTouch
    else CmdUnknown
  }

  /** `ToCmd` inverts the printed names of every command but the touch event. */
  lemma CmdRoundTrip(c: Cmd)
    ensures ToCmd(CmdName(c)) == c <==> c != CmdTouch
    ensures ':' !in CmdName(c)
  {
  }

  // ---------- numbers ----------

  /** `std::to_string(int)`. */
  function IntToString(n: int): string {
    if n >= 0 then ToDecimal(n) else "-" + ToDecimal(-n)
  }

  predicate IsInt(n: int) {
    -INT_MAX - 1 <= n <= INT_MAX
  }

  function SkipSpaces(s: string): string {
    if s != [] && (s[0] == ' ' || 9 <= s[0] as int <= 13) then SkipSpaces(s[1..]) else s
  }

  /** The longest run of digits at the front. */
  function DigitRun(s: string): (d: string)
    ensures OnlyDigits(d)
    ensures OnlyDigits(s) ==> d == s
  {
    if s != [] && IsDigit(s[0]) then [s[0]] + DigitRun(s[1..]) else []
  }

  /** `std::stoi` on any string; `None` is an exception. */
  function Stoi(text: string): Option<int> {
    var s := SkipSpaces(text);
    var negative := s != [] && s[0] == '-';
    var signed := negative || (s != [] && s[0] == '+');
    var digits := DigitRun(if signed then s[1..] else s);
    var value: int := FromDecimal(digits);
    var n := if negative then -value else value;
    if digits == [] || !IsInt(n) then None else Some(n)
  }

  /** `text` is white space, perhaps a sign, then at least one digit up to the first character that is none, and
      the number so written is `n`. */
  predicate Writes(text: string, blanks: string, sign: string, digits: string, rest: string, n: int) {
    && text == blanks + (sign + (digits + rest))
    && (forall c | c in blanks :: c in " \t\n\r" || c as int == 11 || c as int == 12)
    && (sign == "" || sign == "+" || sign == "-")
    && digits != [] && OnlyDigits(digits) && (rest == [] || !IsDigit(rest[0]))
    && (if sign == "-" then -n else n) == FromDecimal(digits)
  }

  lemma {:induction false} SkipBlanks(blanks: string, rest: string)
    requires forall c | c in blanks :: c in " \t\n\r" || c as int == 11 || c as int == 12
    ensures SkipSpaces(blanks + rest) == SkipSpaces(rest)
  {
    if blanks == [] {
      assert blanks + rest == rest;
    } else {
      assert blanks[0] in blanks && (blanks + rest)[1..] == blanks[1..] + rest;
      SkipBlanks(blanks[1..], rest);
    }
  }

  lemma {:induction false} Skipped(text: string) returns (blanks: string)
    ensures text == blanks + SkipSpaces(text)
    ensures forall c | c in blanks :: c in " \t\n\r" || c as int == 11 || c as int == 12
  {
    blanks := "";
    if SkipSpaces(text) != text {
      var more := Skipped(text[1..]);
      blanks := [text[0]] + more;
    }
  }

  lemma {:induction false} DigitRunTakes(digits: string, rest: string)
    requires OnlyDigits(digits) && (rest == [] || !IsDigit(rest[0]))
    ensures DigitRun(digits + rest) == digits
  {
    if digits == [] {
      assert digits + rest == rest;
    } else {
      assert (digits + rest)[1..] == digits[1..] + rest;
      DigitRunTakes(digits[1..], rest);
    }
  }

  lemma {:induction false} DigitRunStops(s: string) returns (rest: string)
    ensures s == DigitRun(s) + rest && (rest == [] || !IsDigit(rest[0]))
  {
    rest := s;
    if s != [] && IsDigit(s[0]) {
      rest := DigitRunStops(s[1..]);
    }
  }

  lemma StoiWritten(text: string, blanks: string, sign: string, digits: string, rest: string, n: int)
    requires Writes(text, blanks, sign, digits, rest, n)
    ensures Stoi(text) == if -0x8000_0000 <= n < 0x8000_0000 then Some(n) else None
  {
    var number := sign + (digits + rest);
    SkipBlanks(blanks, number);
    assert (digits + rest)[0] == digits[0];
    if sign == "" {
      assert number == digits + rest;
    } else {
      assert number[0] == sign[0] && number[1..] == digits + rest;
    }
    DigitRunTakes(digits, rest);
  }

  lemma StoiTaken(text: string) returns (blanks: string, sign: string, digits: string, rest: string)
    requires Stoi(text).Some?
    ensures Writes(text, blanks, sign, digits, rest, Stoi(text).value)
  {
    blanks := Skipped(text);
    var s := SkipSpaces(text);
    var unsigned;
    sign, unsigned := SignTaken(s);
    digits := DigitRun(unsigned);
    rest := DigitRunStops(unsigned);
  }

  lemma SignTaken(s: string) returns (sign: string, unsigned: string)
    ensures s == sign + unsigned && (sign == "" || sign == "+" || sign == "-")
    ensures sign == "-" <==> s != [] && s[0] == '-'
    ensures unsigned == if s != [] && (s[0] == '-' || s[0] == '+') then s[1..] else s
  {
    if s != [] && (s[0] == '-' || s[0] == '+') {
      sign, unsigned := [s[0]], s[1..];
    } else {
      sign, unsigned := "", s;
    }
  }

  /** Exactly the texts that start with a number in range read as that number. */
  lemma StoiReads(text: string, n: int)
    ensures Stoi(text) == Some(n)
            <==> -0x8000_0000 <= n < 0x8000_0000
                 && exists blanks: string, sign: string, digits: string, rest: string ::
                      Writes(text, blanks, sign, digits, rest, n)
  {
    if Stoi(text) == Some(n) {
      var blanks, sign, digits, rest := StoiTaken(text);
    }
    forall blanks: string, sign: string, digits: string, rest: string | Writes(text, blanks, sign, digits, rest, n)
      ensures -0x8000_0000 <= n < 0x8000_0000 ==> Stoi(text) == Some(n)
    {
      StoiWritten(text, blanks, sign, digits, rest, n);
    }
  }

  lemma StoiOfDigits(s: string)
    requires OnlyDigits(s)
    ensures Stoi(s) == DigitsToInt(s)
  {
    assert s != [] ==> IsDigit(s[0]);
  }

  lemma IntRoundTrip(n: int)
    requires IsInt(n)
    ensures Stoi(IntToString(n)) == Some(n)
  {
    DecimalRoundTrip(if n >= 0 then n else -n);
    if n >= 0 {
      StoiOfDigits(ToDecimal(n));
    } else {
      var s := IntToString(n);
      assert s[0] == '-' && s[1..] == ToDecimal(-n);
    }
  }

  /** `UiOptsToString`: each option and a comma, then the last comma taken off. */
  method UiOptsToString(options: seq<int>) returns (s: string)
    ensures s == OptionsText(options)
  {
    s := "";
    for i := 0 to |options|
      invariant s == WithCommas(options[..i])
    {
      assert options[..i + 1] == options[..i] + [options[i]];
      WithCommasSnoc(options[..i], options[i]);
      s := s + IntToString(options[i]) + ",";
    }
    assert options[..|options|] == options;
    CommasAreJoin(options);
    if s != "" {
      s := s[..|s| - 1];
    }
  }

  function WithCommas(options: seq<int>): string {
    if options == [] then [] else IntToString(options[0]) + "," + WithCommas(options[1..])
  }

  lemma {:induction false} WithCommasSnoc(options: seq<int>, option: int)
    ensures WithCommas(options + [option]) == WithCommas(options) + IntToString(option) + ","
  {
    if options == [] {
      assert options + [option] == [option] && [option][1..] == [];
    } else {
      assert (options + [option])[1..] == options[1..] + [option];
      WithCommasSnoc(options[1..], option);
    }
  }

  function OptionTokens(options: seq<int>): (tokens: seq<string>)
    ensures |tokens| == |options|
  {
    if options == [] then [] else [IntToString(options[0])] + OptionTokens(options[1..])
  }

  function OptionsText(options: seq<int>): string {
    Join(OptionTokens(options), ',')
  }

  lemma {:induction false} CommasAreJoin(options: seq<int>)
    ensures options == [] ==> WithCommas(options) == "" == OptionsText(options)
    ensures options != [] ==> WithCommas(options) == OptionsText(options) + ","
  {
    if options != [] {
      CommasAreJoin(options[1..]);
      assert OptionTokens(options)[1..] == OptionTokens(options[1..]);
    }
  }

  // ---------- encoding ----------

  function ToPacket(m: Message): Packet {
    Packet(m.session, CmdName(Type(m)),
      match m
      case Start(_, prompt, extra, locale, options) => [prompt, extra, locale, OptionsText(options)]
      case Stop(_) => []
      case Ack(_, success, status) => [if success then "success" else "fail", status]
      case Response(_, response, sign, message) => [response, sign, message]
      case Abort(_) => []
      case Selection(_, response) => [response]
      case Touch(_, x, y) => [IntToString(x), IntToString(y)])
  }

  /** `SendOver`. */
  method SendOver(d: Stream, m: Message) returns (ok: bool)
    modifies d
    ensures ok ==> d.contents == old(d.contents) + Frame(ToPacket(m))
    ensures d.Flows() ==> ok
  {
    var packet := ToPacket(m);
    if m.Start? {
      var options := UiOptsToString(m.options);
      packet := Packet(m.session, CmdName(CmdStart), [m.prompt, m.extra, m.locale, options]);
    }
    ok := WritePayload(d, packet);
  }

  // ---------- decoding ----------

  /** `Null` is a null pointer; `Throws` an exception from `std::stoi` or a packet that faults. */
  datatype Decoded = Decoded(message: Message) | Null | Throws

  datatype Options = Options(values: seq<int>) | BadOption | OptionThrows

  function OptionsOf(tokens: seq<string>): Options {
    if tokens == [] then Options([])
    else if !OnlyDigits(tokens[0]) then BadOption
    else if DigitsToInt(tokens[0]) == None then OptionThrows
    else After([DigitsToInt(tokens[0]).value], OptionsOf(tokens[1..]))
  }

  /** The decoder of a start message. */
  method DecodeStart(p: Packet) returns (d: Decoded)
    ensures d == StartOf(p)
  {
    if |p.infos| < 3 {
      return Null;
    }
    var options := Options([]);
    if |p.infos| == 4 && p.infos[3] != [] {
      options := DecodeOptions(Split(p.infos[3], ','));
    }
    if !options.Options? {
      return if options == BadOption then Null else Throws;
    }
    d := Decoded(Start(p.session, p.infos[0], p.infos[1], p.infos[2], options.values));
  }

  method DecodeOptions(tokens: seq<string>) returns (o: Options)
    ensures o == OptionsOf(tokens)
  {
    var values: seq<int> := [];
    for i := 0 to |tokens|
      invariant After(values, OptionsOf(tokens[i..])) == OptionsOf(tokens)
    {
      assert tokens[i..][1..] == tokens[i + 1..];
      if !OnlyDigits(tokens[i]) {
        return BadOption;
      }
      if DigitsToInt(tokens[i]) == None {
        return OptionThrows;
      }
      AfterSnoc(values, DigitsToInt(tokens[i]).value, OptionsOf(tokens[i + 1..]));
      values := values + [DigitsToInt(tokens[i]).value];
    }
    assert tokens[|tokens|..] == [] && values + [] == values;
    o := Options(values);
  }

  function After(values: seq<int>, o: Options): Options {
    if o.Options? then Options(values + o.values) else o
  }

  lemma AfterSnoc(values: seq<int>, value: int, o: Options)
    ensures After(values, After([value], o)) == After(values + [value], o)
  {
    if o.Options? {
      assert values + ([value] + o.values) == (values + [value]) + o.values;
    }
  }

  function StartOf(p: Packet): Decoded {
    if |p.infos| < 3 then Null
    else
      var options := if |p.infos| == 4 && p.infos[3] != [] then OptionsOf(Split(p.infos[3], ',')) else Options([]);
      match options
      case BadOption => Null
      case OptionThrows => Throws
      case Options(values) => Decoded(Start(p.session, p.infos[0], p.infos[1], p.infos[2], values))
  }

  function TouchOf(p: Packet): Decoded {
    if |p.infos| < 2 then Null
    else if Stoi(p.infos[0]) == None || Stoi(p.infos[1]) == None then Throws
    else Decoded(Touch(p.session, Stoi(p.infos[0]).value, Stoi(p.infos[1]).value))
  }

  /** `ToConfUiMessage`. */
  function ToMessage(p: Packet): (d: Decoded)
    ensures d.Decoded? ==> d.message.session == p.session && Type(d.message) == ToCmd(p.cmd)
  {
    match ToCmd(p.cmd)
    case CmdStart => StartOf(p)
    case CmdAck => if |p.infos| != 2 then Null else Decoded(Ack(p.session, p.infos[0] == "success", p.infos[1]))
    case CmdRespond => if |p.infos| < 3 then Null else Decoded(Response(p.session, p.infos[0], p.infos[1], p.infos[2]))
    case CmdInput => if |p.infos| < 1 then Null else Decoded(Selection(p.session, p.infos[0]))
    case CmdTouch => TouchOf(p)
    case CmdAbort => Decoded(Abort(p.session))
    case CmdStop => Decoded(Stop(p.session))
    case CmdUnknown => Null
  }

  /** How many items a message of each kind needs at least. */
  function ItemsNeeded(c: Cmd): nat {
    match c
    case CmdStart => 3
    case CmdAck => 2
    case CmdRespond => 3
    case CmdInput => 1
    case CmdTouch => 2
    case _ => 0
  }

  /** Any packet, well formed or not: too few items decode to nothing; enough items of a kind that holds
      no numbers decode, except that an ack must have exactly two; an unknown kind never does. */
  lemma DecodesWhenEnough(p: Packet)
    ensures var c, d := ToCmd(p.cmd), ToMessage(p);
            && (|p.infos| < ItemsNeeded(c) || c == CmdUnknown ==> d == Null)
            && (|p.infos| >= ItemsNeeded(c) && (c == CmdRespond || c == CmdInput || c == CmdStop || c == CmdAbort)
                ==> d.Decoded?)
            && (c == CmdAck ==> (d.Decoded? <==> |p.infos| == 2))
            && (c == CmdStart && |p.infos| >= 3 && (|p.infos| != 4 || p.infos[3] == []) ==> d.Decoded?)
  {
  }

  /** A token that reads as a number in range. */
  predicate GoodOption(token: string) {
    token != [] && OnlyDigits(token) && FromDecimal(token) < 0x8000_0000
  }

  predicate AllGood(tokens: seq<string>) {
    forall i | 0 <= i < |tokens| :: GoodOption(tokens[i])
  }

  lemma {:induction false} FirstBadDecides(good: seq<string>, bad: string, rest: seq<string>)
    requires AllGood(good) && !GoodOption(bad)
    ensures OptionsOf(good + ([bad] + rest)) == if OnlyDigits(bad) then OptionThrows else BadOption
  {
    var tokens := good + ([bad] + rest);
    if good == [] {
      assert tokens == [bad] + rest;
    } else {
      assert tokens[0] == good[0] && tokens[1..] == good[1..] + ([bad] + rest);
      FirstBadDecides(good[1..], bad, rest);
    }
  }

  lemma {:induction false} GoodOptionsDecode(tokens: seq<string>)
    requires AllGood(tokens)
    ensures OptionsOf(tokens).Options?
  {
    if tokens != [] {
      GoodOptionsDecode(tokens[1..]);
    }
  }

  /** A start message with an option text decodes if every option is a number in range.  If not, the first one that
      is not decides: it is refused if it holds anything but digits, and throws if it is empty or too large. */
  lemma StartOptionsDecide(p: Packet, good: seq<string>, bad: string, rest: seq<string>)
    requires ToCmd(p.cmd) == CmdStart && |p.infos| == 4 && p.infos[3] != []
    ensures AllGood(Split(p.infos[3], ',')) ==> ToMessage(p).Decoded?
    ensures Split(p.infos[3], ',') == good + ([bad] + rest) && AllGood(good) && !GoodOption(bad) ==>
              ToMessage(p) == if OnlyDigits(bad) then Throws else Null
  {
    var tokens := Split(p.infos[3], ',');
    if AllGood(tokens) {
      GoodOptionsDecode(tokens);
    }
    if tokens == good + ([bad] + rest) && AllGood(good) && !GoodOption(bad) {
      FirstBadDecides(good, bad, rest);
    }
  }

  /** What decodes carries the packet's own items, in their places. */
  lemma DecodedCarriesItems(p: Packet)
    ensures var d := ToMessage(p);
            d.Decoded? ==>
              && d.message.session == p.session
              && match d.message
                 case Start(_, prompt, extra, locale, options) =>
                   && [prompt, extra, locale] <= p.infos
                   && (if |p.infos| == 4 && p.infos[3] != []
                       then |options| == |Split(p.infos[3], ',')|
                            && forall i | 0 <= i < |options| :: NumberIs(Split(p.infos[3], ',')[i], options[i])
                       else options == [])
                 case Ack(_, success, status) =>
                   p.infos == [p.infos[0], status] && (success <==> p.infos[0] == "success")
                 case Response(_, response, sign, message) => [response, sign, message] <= p.infos
                 case Selection(_, response) => [response] <= p.infos
                 case Touch(_, x, y) => Stoi(p.infos[0]) == Some(x) && Stoi(p.infos[1]) == Some(y)
                 case _ => true
  {
    if ToCmd(p.cmd) == CmdStart && |p.infos| == 4 && p.infos[3] != [] {
      OptionsAreNumbers(Split(p.infos[3], ','));
    }
  }

  predicate NumberIs(token: string, n: int) {
    n >= 0 && Number(token, n)
  }

  lemma {:induction false} OptionsAreNumbers(tokens: seq<string>)
    ensures var o := OptionsOf(tokens);
            o.Options? ==> |o.values| == |tokens| && forall i | 0 <= i < |tokens| :: NumberIs(tokens[i], o.values[i])
  {
    if tokens != [] {
      OptionsAreNumbers(tokens[1..]);
    }
  }

  function MessageOf(o: Outcome): Decoded {
    match o
    case Parsed(p) => ToMessage(p)
    case Rejected => Null
    case Fault => Throws
  }

  /** `RecvConfUiMsg`. */
  method RecvConfUiMsg(s: Stream) returns (d: Decoded)
    modifies s
    ensures s.Flows() || d != Null ==> d == MessageOf(Received(Unframe(old(s.contents)).0))
    ensures s.Flows() || d != Null ==> s.contents == Unframe(old(s.contents)).1
  {
    var o := ReadPayload(s);
    if o.Parsed? && ToCmd(o.packet.cmd) == CmdStart {
      d := DecodeStart(o.packet);
    } else {
      d := MessageOf(o);
    }
  }

  // ---------- round trips ----------

  predicate AllNatural(options: seq<int>) {
    forall i | 0 <= i < |options| :: options[i] >= 0
  }

  predicate AllInt(options: seq<int>) {
    forall i | 0 <= i < |options| :: IsInt(options[i])
  }

  lemma IntTextHasNoComma(n: int)
    ensures ',' !in IntToString(n) && IntToString(n) != []
    ensures OnlyDigits(IntToString(n)) <==> n >= 0
  {
    var s := ToDecimal(if n >= 0 then n else -n);
    assert forall i | 0 <= i < |s| :: IsDigit(s[i]);
    assert n < 0 ==> IntToString(n)[0] == '-';
  }

  lemma {:induction false} OptionsOfTokens(options: seq<int>)
    requires AllInt(options)
    ensures OptionsOf(OptionTokens(options)) == if AllNatural(options) then Options(options) else BadOption
    ensures forall i | 0 <= i < |options| :: ',' !in OptionTokens(options)[i]
  {
    if options != [] {
      IntTextHasNoComma(options[0]);
      OptionsOfTokens(options[1..]);
      assert OptionTokens(options)[1..] == OptionTokens(options[1..]);
      if options[0] >= 0 {
        DecimalRoundTrip(options[0]);
        assert [options[0]] + options[1..] == options;
        assert AllNatural(options) <==> AllNatural(options[1..]);
      }
    }
  }

  /** A list of options of any length comes back exactly when none is negative. */
  lemma OptionsRoundTrip(options: seq<int>)
    requires AllInt(options) && options != []
    ensures OptionsText(options) != []
    ensures OptionsOf(Split(OptionsText(options), ',')) == if AllNatural(options) then Options(options) else BadOption
  {
    OptionsOfTokens(options);
    SplitJoin(OptionTokens(options), ',');
    IntTextHasNoComma(options[0]);
  }

  lemma StartRoundTrip(m: Message)
    requires m.Start? && AllInt(m.options)
    ensures StartOf(ToPacket(m)) == if AllNatural(m.options) then Decoded(m) else Null
  {
    if m.options != [] {
      OptionsRoundTrip(m.options);
    }
  }

  /** The message survives: it is no touch event, and a start message has no negative option. */
  predicate Faithful(m: Message) {
    !m.Touch? && (m.Start? ==> AllNatural(m.options))
  }

  predicate WellTyped(m: Message) {
    (m.Start? ==> AllInt(m.options)) && (m.Touch? ==> IsInt(m.x) && IsInt(m.y))
  }

  lemma DecodeInvertsEncode(m: Message)
    requires WellTyped(m)
    ensures ToMessage(ToPacket(m)) == if Faithful(m) then Decoded(m) else Null
  {
    CmdRoundTrip(Type(m));
    if m.Start? {
      StartRoundTrip(m);
    } else if m.Ack? {
      assert "success"[0] != "fail"[0];
    } else if m.Touch? {
      assert CmdName(CmdTouch) == CmdName(CmdUnknown);
      CmdRoundTrip(CmdUnknown);
    }
  }

  /** Only the name is in the way: the touch decoder itself gives every touch event back. */
  lemma TouchDecoderInverts(m: Message)
    requires m.Touch? && WellTyped(m)
    ensures TouchOf(ToPacket(m)) == Decoded(m)
  {
    IntRoundTrip(m.x);
    IntRoundTrip(m.y);
  }

  /** Over the wire, a message that fits comes back exactly when it is faithful and its session id holds
      no colon. */
  lemma MessageRoundTrip(m: Message)
    requires WellTyped(m) && |Payload(ToPacket(m))| < MAX_PAYLOAD_LENGTH
    ensures MessageOf(Parse(Payload(ToPacket(m)))) == Decoded(m) <==> Faithful(m) && ':' !in m.session
  {
    CmdRoundTrip(Type(m));
    ParseInvertsPayload(ToPacket(m));
    DecodeInvertsEncode(m);
    if ':' in m.session {
      ParsedIsColonFree(Payload(ToPacket(m)));
    }
  }

  function MessageFrames(ms: seq<Message>): string {
    if ms == [] then [] else Frame(ToPacket(ms[0])) + MessageFrames(ms[1..])
  }

  predicate Deliverable(m: Message) {
    WellTyped(m) && Faithful(m) && ':' !in m.session && |Payload(ToPacket(m))| < MAX_PAYLOAD_LENGTH
  }

  lemma ReadsMessageBack(m: Message, rest: string)
    requires Deliverable(m)
    ensures var (raw, left) := Unframe(Frame(ToPacket(m)) + rest);
            MessageOf(Received(raw)) == Decoded(m) && left == rest
  {
    MessageRoundTrip(m);
    UnframeFrame(ToPacket(m), rest);
  }

  method SendMessages(s: Stream, ms: seq<Message>)
    requires s.Flows()
    modifies s
    ensures s.contents == old(s.contents) + MessageFrames(ms)
  {
    for i := 0 to |ms|
      invariant s.contents + MessageFrames(ms[i..]) == old(s.contents) + MessageFrames(ms)
    {
      assert ms[i..][1..] == ms[i + 1..];
      Associative(s.contents, Frame(ToPacket(ms[i])), MessageFrames(ms[i + 1..]));
      var _ := SendOver(s, ms[i]);
    }
    assert ms[|ms|..] == [];
  }

  lemma FramesStep(ms: seq<Message>, i: nat, rest: string)
    requires i < |ms|
    ensures MessageFrames(ms[i..]) + rest == Frame(ToPacket(ms[i])) + (MessageFrames(ms[i + 1..]) + rest)
  {
    assert ms[i..][1..] == ms[i + 1..];
  }

  method ReceiveOne(s: Stream, ghost m: Message, ghost rest: string) returns (received: Message)
    requires s.Flows() && Deliverable(m) && s.contents == Frame(ToPacket(m)) + rest
    modifies s
    ensures received == m && s.contents == rest
  {
    ReadsMessageBack(m, rest);
    var d := RecvConfUiMsg(s);
    received := d.message;
  }

  method ReceiveMessages(s: Stream, count: nat, ghost ms: seq<Message>, ghost rest: string)
    returns (received: seq<Message>)
    requires s.Flows() && |ms| == count && s.contents == MessageFrames(ms) + rest
    requires forall i | 0 <= i < |ms| :: Deliverable(ms[i])
    modifies s
    ensures received == ms && s.contents == rest
  {
    received := [];
    for i := 0 to count
      invariant received == ms[..i]
      invariant s.contents == MessageFrames(ms[i..]) + rest
    {
      FramesStep(ms, i, rest);
      var m := ReceiveOne(s, ms[i], MessageFrames(ms[i + 1..]) + rest);
      received := received + [m];
    }
    assert ms[count..] == [];
  }

  /** A conversation of messages arrives as it was sent, however short the system calls. */
  method Converse(s: Stream, ms: seq<Message>) returns (received: seq<Message>)
    requires s.contents == [] && s.Flows()
    requires forall i | 0 <= i < |ms| :: Deliverable(ms[i])
    modifies s
    ensures received == ms && s.contents == []
  {
    SendMessages(s, ms);
    assert s.contents == MessageFrames(ms) + [];
    received := ReceiveMessages(s, |ms|, ms, []);
  }
}
