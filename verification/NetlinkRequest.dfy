/** The netlink request builder: attributes are printed into one flat buffer, and the length of a
    nested list is patched in when the list closes.  Pointers into the buffer become offsets; they
    are only good while the buffer stays within the 512 bytes reserved for it. */
module NetlinkRequest {
  import opened Wrappers

  type Byte = x: int | 0 <= x < 256

  const RESERVED: nat := 512
  const HEADER_SIZE: nat := 16

  // ---------- bytes ----------

  function U16(x: nat): (b: seq<Byte>)
    ensures |b| == 2
  {
    [x % 256, x / 256 % 256]
  }

  function U32(x: nat): (b: seq<Byte>)
    ensures |b| == 4
  {
    U16(x) + U16(x / 65536)
  }

  function ReadU16(b: seq<Byte>): nat
    requires |b| >= 2
  {
    var low: int, high: int := b[0], b[1];
    low + 256 * high
  }

  /** The two bytes at `at` are `n`, least significant first. */
  predicate Holds16(b: seq<Byte>, at: nat, n: nat) {
    at + 2 <= |b| && var low: int, high: int := b[at], b[at + 1]; low + 256 * high == n
  }

  /** The four bytes at `at` are `n`, least significant first. */
  predicate Holds32(b: seq<Byte>, at: nat, n: nat) {
    && at + 4 <= |b|
    && var b0: int, b1: int, b2: int, b3: int := b[at], b[at + 1], b[at + 2], b[at + 3];
       b0 + 256 * b1 + 65536 * b2 + 16777216 * b3 == n
  }

  lemma U16Holds(before: seq<Byte>, n: nat, after: seq<Byte>)
    ensures Holds16(before + U16(n) + after, |before|, n % 65536)
  {
    TwoBytes(n);
    var b := before + U16(n) + after;
    assert b[|before|] == n % 256 && b[|before| + 1] == n / 256 % 256;
  }

  lemma U32Holds(before: seq<Byte>, n: nat, after: seq<Byte>)
    ensures Holds32(before + U32(n) + after, |before|, n % 0x1_0000_0000)
  {
    FourBytes(n);
    var b := before + U32(n) + after;
    assert b[|before|] == n % 256 && b[|before| + 1] == n / 256 % 256;
    assert b[|before| + 2] == n / 65536 % 256 && b[|before| + 3] == n / 65536 / 256 % 256;
  }

  lemma TwoBytes(n: nat)
    ensures n % 65536 == n % 256 + 256 * (n / 256 % 256)
  {
    var high := n / 256;
    Remainder16(n, high / 256, n % 256 + 256 * (high % 256));
  }

  lemma Remainder16(n: nat, k: nat, r: nat)
    requires n == 65536 * k + r && r < 65536
    ensures n % 65536 == r
  {
  }

  lemma FourBytes(n: nat)
    ensures n % 0x1_0000_0000 ==
            n % 256 + 256 * (n / 256 % 256) + 65536 * (n / 65536 % 256) + 16777216 * (n / 65536 / 256 % 256)
  {
    var high := n / 65536;
    TwoBytes(n);
    TwoBytes(high);
    Remainder32(n, high / 65536, n % 65536 + 65536 * (high % 65536));
  }

  lemma Remainder32(n: nat, k: nat, r: nat)
    requires n == 0x1_0000_0000 * k + r && r < 0x1_0000_0000
    ensures n % 0x1_0000_0000 == r
  {
  }

  function Zeros(n: nat): (b: seq<Byte>)
    ensures |b| == n
  {
    seq(n, _ => 0)
  }

  /** RTA_ALIGN */
  function Align(n: nat): (a: nat)
    ensures a % 4 == 0 && n <= a < n + 4
  {
    (n + 3) / 4 * 4
  }

  function Padded(data: seq<Byte>): (b: seq<Byte>)
    ensures |b| == Align(|data|) && b[..|data|] == data
  {
    data + Zeros(Align(|data|) - |data|)
  }

  /** What is left of the data when its length is passed as a `uint16_t`. */
  function Short(data: seq<Byte>): (b: seq<Byte>)
    ensures |b| == |data| % 65536 && b <= data
  {
    data[..|data| % 65536]
  }

  // ---------- what the calls describe ----------

  /** An attribute, a list of attributes, or a fixed structure such as `ifinfomsg`. */
  datatype Item =
    | Attr(kind: nat, data: seq<Byte>)
    | Nest(kind: nat, children: seq<Item>)
    | Raw(data: seq<Byte>)

  /** A list that is still open. */
  datatype Frame = Frame(kind: nat, done: seq<Item>)

  /** The items written at top level and the open lists, outermost first. */
  datatype Draft = Draft(root: seq<Item>, open: seq<Frame>) {

    function Add(item: Item): Draft {
      if open == [] then this.(root := root + [item])
      else
        var last := |open| - 1;
        this.(open := open[last := open[last].(done := open[last].done + [item])])
    }

    function Push(kind: nat): Draft {
      this.(open := open + [Frame(kind, [])])
    }

    /** Closing a list that was never opened is logged and ignored. */
    function Pop(): Draft {
      if open == [] then this
      else
        var last := |open| - 1;
        this.(open := open[..last]).Add(Nest(open[last].kind, open[last].done))
    }
  }

  // ---------- how it is printed ----------

  function AttrHeader(length: nat, kind: nat): (b: seq<Byte>)
    ensures |b| == 4
  {
    U16(length) + U16(kind)
  }

  function Print(item: Item): seq<Byte>
    decreases item, 1
  {
    match item
    case Attr(kind, data) => AttrHeader(4 + |data|, kind) + Padded(data)
    case Nest(kind, children) =>
      var body := PrintAll(children);
      AttrHeader(4 + |body|, kind) + body
    case Raw(data) => Padded(data)
  }

  function PrintAll(items: seq<Item>): seq<Byte>
    decreases items, 0
  {
    if items == [] then [] else Print(items[0]) + PrintAll(items[1..])
  }

  /** An open list carries the length of an empty one until it is closed. */
  function PrintOpen(open: seq<Frame>): seq<Byte> {
    if open == [] then []
    else
      var last := |open| - 1;
      PrintOpen(open[..last]) + AttrHeader(4, open[last].kind) + PrintAll(open[last].done)
  }

  function PrintDraft(d: Draft): seq<Byte> {
    PrintAll(d.root) + PrintOpen(d.open)
  }

  /** Where open list number `k` starts. */
  function ListOffset(d: Draft, k: nat): nat
    requires k <= |d.open|
  {
    HEADER_SIZE + |PrintAll(d.root)| + |PrintOpen(d.open[..k])|
  }

  // ---------- sizes are multiples of 4 ----------

  /** An attribute's bytes: its length, its kind, its data, and zeros up to a multiple of 4. */
  lemma AttrLayout(kind: nat, data: seq<Byte>)
    requires kind < 65536 && 4 + |data| < 65536
    ensures var b := Print(Attr(kind, data));
            && |b| == Align(4 + |data|) && Holds16(b, 0, 4 + |data|) && Holds16(b, 2, kind)
            && b[4..4 + |data|] == data
            && forall i | 4 + |data| <= i < |b| :: b[i] == 0
  {
    var rest := Padded(data);
    U16Holds([], 4 + |data|, U16(kind) + rest);
    U16Holds(U16(4 + |data|), kind, rest);
    var b := Print(Attr(kind, data));
    assert b == [] + U16(4 + |data|) + (U16(kind) + rest);
    assert b == U16(4 + |data|) + U16(kind) + rest;
    assert b[4..] == rest;
    forall i | 4 + |data| <= i < |b|
      ensures b[i] == 0
    {
      assert b[i] == rest[i - 4] == Zeros(Align(|data|) - |data|)[i - 4 - |data|];
    }
  }

  lemma JoinAligned(a: seq<Byte>, b: seq<Byte>)
    requires |a| % 4 == 0 && |b| % 4 == 0
    ensures |a + b| % 4 == 0
  {
  }

  lemma {:induction false} PrintAligned(item: Item)
    ensures |Print(item)| % 4 == 0
    decreases item, 1
  {
    match item
    case Attr(kind, data) => JoinAligned(AttrHeader(4 + |data|, kind), Padded(data));
    case Nest(kind, children) =>
      PrintAllAligned(children);
      JoinAligned(AttrHeader(4 + |PrintAll(children)|, kind), PrintAll(children));
    case Raw(_) =>
  }

  lemma {:induction false} PrintAllAligned(items: seq<Item>)
    ensures |PrintAll(items)| % 4 == 0
    decreases items, 0
  {
    if items != [] {
      PrintAligned(items[0]);
      PrintAllAligned(items[1..]);
      JoinAligned(Print(items[0]), PrintAll(items[1..]));
    }
  }

  lemma {:induction false} PrintOpenAligned(open: seq<Frame>)
    ensures |PrintOpen(open)| % 4 == 0
  {
    if open != [] {
      var last := |open| - 1;
      PrintOpenAligned(open[..last]);
      PrintAllAligned(open[last].done);
      var outer, header := PrintOpen(open[..last]), AttrHeader(4, open[last].kind);
      JoinAligned(outer, header);
      JoinAligned(outer + header, PrintAll(open[last].done));
    }
  }

  lemma PrintDraftAligned(d: Draft)
    ensures |PrintDraft(d)| % 4 == 0
  {
    PrintAllAligned(d.root);
    PrintOpenAligned(d.open);
    JoinAligned(PrintAll(d.root), PrintOpen(d.open));
  }

  // ---------- how printing follows the calls ----------

  lemma {:induction false} PrintAllConcat(a: seq<Item>, b: seq<Item>)
    ensures PrintAll(a + b) == PrintAll(a) + PrintAll(b)
    decreases |a|
  {
    if a == [] {
      assert a + b == b;
    } else {
      assert (a + b)[1..] == a[1..] + b;
      PrintAllConcat(a[1..], b);
    }
  }

  lemma PrintAllSnoc(a: seq<Item>, item: Item)
    ensures PrintAll(a + [item]) == PrintAll(a) + Print(item)
  {
    PrintAllConcat(a, [item]);
    assert [item][1..] == [];
    assert PrintAll([item]) == Print(item) + [];
  }

  /** Adding an item appends its print; no open list moves. */
  lemma AddPrints(d: Draft, item: Item)
    ensures PrintDraft(d.Add(item)) == PrintDraft(d) + Print(item)
    ensures |d.Add(item).open| == |d.open|
    ensures forall k | 0 <= k < |d.open| :: ListOffset(d.Add(item), k) == ListOffset(d, k)
  {
    if d.open == [] {
      PrintAllSnoc(d.root, item);
      assert PrintOpen(d.open) == [];
    } else {
      var last := |d.open| - 1;
      assert d.Add(item).open[..last] == d.open[..last];
      PrintAllSnoc(d.open[last].done, item);
      AddKeepsOffsets(d, item);
    }
  }

  lemma AddKeepsOffsets(d: Draft, item: Item)
    requires d.open != []
    ensures |d.Add(item).open| == |d.open|
    ensures forall k | 0 <= k < |d.open| :: ListOffset(d.Add(item), k) == ListOffset(d, k)
  {
    assert forall k | 0 <= k < |d.open| :: d.Add(item).open[..k] == d.open[..k];
  }

  lemma PushPrints(d: Draft, kind: nat)
    ensures PrintDraft(d.Push(kind)) == PrintDraft(d) + AttrHeader(4, kind)
    ensures forall k | 0 <= k < |d.open| :: ListOffset(d.Push(kind), k) == ListOffset(d, k)
    ensures ListOffset(d.Push(kind), |d.open|) == HEADER_SIZE + |PrintDraft(d)|
  {
    var e := d.Push(kind);
    var n := |d.open|;
    assert e.open[..n] == d.open;
    assert forall k | 0 <= k < n :: e.open[..k] == d.open[..k];
    LastOpenPrints(e);
    assert e.(open := e.open[..n]) == d && PrintAll([]) == [];
  }

  lemma PatchLength(before: seq<Byte>, kind: nat, body: seq<Byte>, b: seq<Byte>)
    requires b == before + AttrHeader(4, kind) + body
    ensures |b| - |before| == 4 + |body|
    ensures before + (AttrHeader(4 + |body|, kind) + body) == b[..|before|] + U16(4 + |body|) + b[|before| + 2..]
  {
  }

  /** Closing a list changes only the length in its header. */
  lemma PopPrints(d: Draft)
    requires d.open != []
    ensures var at := ListOffset(d, |d.open| - 1) - HEADER_SIZE;
            var b := PrintDraft(d);
            at + 4 <= |b| && PrintDraft(d.Pop()) == b[..at] + U16(|b| - at) + b[at + 2..]
  {
    var f := d.open[|d.open| - 1];
    var outer := d.(open := d.open[..|d.open| - 1]);
    AddPrints(outer, Nest(f.kind, f.done));
    LastOpenPrints(d);
    PatchLength(PrintDraft(outer), f.kind, PrintAll(f.done), PrintDraft(d));
    assert d.Pop() == outer.Add(Nest(f.kind, f.done));
  }

  lemma LastOpenPrints(d: Draft)
    requires d.open != []
    ensures var last := |d.open| - 1;
            PrintDraft(d) == PrintDraft(d.(open := d.open[..last]))
                             + AttrHeader(4, d.open[last].kind) + PrintAll(d.open[last].done)
  {
    var last := |d.open| - 1;
    Regroup(PrintAll(d.root), PrintOpen(d.open[..last]), AttrHeader(4, d.open[last].kind), PrintAll(d.open[last].done));
  }

  lemma Regroup(a: seq<Byte>, b: seq<Byte>, c: seq<Byte>, e: seq<Byte>)
    ensures a + (b + c + e) == (a + b) + c + e
  {
  }

  /** The lists that stay open do not move when one closes. */
  lemma PopKeepsOffsets(d: Draft)
    requires d.open != []
    ensures |d.Pop().open| == |d.open| - 1
    ensures forall k | 0 <= k < |d.open| - 1 :: ListOffset(d.Pop(), k) == ListOffset(d, k)
  {
    var last := |d.open| - 1;
    var outer := d.(open := d.open[..last]);
    AddPrints(outer, Nest(d.open[last].kind, d.open[last].done));
    forall k | 0 <= k < last
      ensures ListOffset(outer, k) == ListOffset(d, k)
    {
      assert d.open[..last][..k] == d.open[..k];
    }
  }

  lemma AppendBeyondHeader(r: seq<Byte>, a: seq<Byte>, b: seq<Byte>)
    requires HEADER_SIZE <= |r|
    ensures r + a + b == r + (a + b) && (r + (a + b))[HEADER_SIZE..] == r[HEADER_SIZE..] + (a + b)
  {
  }

  lemma PatchBeyondHeader(r: seq<Byte>, b: seq<Byte>, k: nat, two: seq<Byte>)
    requires HEADER_SIZE <= |r| && r[HEADER_SIZE..] == b && k + 2 <= |b| && |two| == 2
    ensures (r[..HEADER_SIZE + k] + two + r[HEADER_SIZE + k + 2..])[HEADER_SIZE..] == b[..k] + two + b[k + 2..]
  {
    assert r[HEADER_SIZE + k + 2..] == b[k + 2..] && r[..HEADER_SIZE + k][HEADER_SIZE..] == b[..k];
  }

  /** What patching the length of the innermost open list leaves in the request. */
  lemma PatchedRequest(r: seq<Byte>, d: Draft)
    requires HEADER_SIZE <= |r| && r[HEADER_SIZE..] == PrintDraft(d) && d.open != []
    ensures var at := ListOffset(d, |d.open| - 1);
            && at + 2 <= |r|
            && (r[..at] + U16(|r| - at) + r[at + 2..])[HEADER_SIZE..] == PrintDraft(d.Pop())
  {
    var b, k := PrintDraft(d), ListOffset(d, |d.open| - 1) - HEADER_SIZE;
    PopPrints(d);
    PatchBeyondHeader(r, b, k, U16(|b| - k));
  }

  // ---------- the builder ----------

  /** A pointer to a list's `nlattr`: the block of memory it points into and the offset there.  Growing
      past the reserved size moves the bytes to a new block and leaves such pointers behind. */
  datatype ListMark = ListMark(block: nat, at: nat, start: nat)

  /** Every open list has a mark, at the list's place in this block or an earlier one. */
  predicate Marked(lists: seq<ListMark>, d: Draft, block: nat) {
    && |lists| == |d.open|
    && forall k | 0 <= k < |lists| :: lists[k].at == lists[k].start == ListOffset(d, k) && lists[k].block <= block
  }

  lemma MarkedAfterAdd(lists: seq<ListMark>, d: Draft, item: Item, block: nat, later: nat)
    requires Marked(lists, d, block) && block <= later
    ensures Marked(lists, d.Add(item), later)
  {
    AddPrints(d, item);
  }

  lemma MarkedAfterPush(lists: seq<ListMark>, d: Draft, kind: nat, block: nat, later: nat, at: nat)
    requires Marked(lists, d, block) && block <= later && at == HEADER_SIZE + |PrintDraft(d)|
    ensures Marked(lists + [ListMark(later, at, at)], d.Push(kind), later)
  {
    PushPrints(d, kind);
  }

  lemma MarkedAfterPop(lists: seq<ListMark>, d: Draft, block: nat)
    requires Marked(lists, d, block) && lists != []
    ensures Marked(lists[..|lists| - 1], d.Pop(), block)
  {
    PopKeepsOffsets(d);
  }

  lemma HeaderHolds(command: nat, flags: nat, sequenceNumber: nat, pid: nat)
    requires flags < 65536
    ensures var b := U32(0) + U16(command) + U16(flags) + U32(sequenceNumber) + U32(pid);
            && |b| == HEADER_SIZE && Holds32(b, 0, 0)
            && Holds16(b, 4, command % 65536) && Holds16(b, 6, flags)
            && Holds32(b, 8, sequenceNumber % 0x1_0000_0000) && Holds32(b, 12, pid % 0x1_0000_0000)
  {
    var a, c, f, s, p := U32(0), U16(command), U16(flags), U32(sequenceNumber), U32(pid);
    var b := a + c + f + s + p;
    U32Holds([], 0, c + f + s + p);
    assert [] + a + (c + f + s + p) == b;
    U16Holds(a, command, f + s + p);
    assert a + c + (f + s + p) == b;
    U16Holds(a + c, flags, s + p);
    assert a + c + f + (s + p) == b;
    U32Holds(a + c + f, sequenceNumber, p);
    U32Holds(a + c + f + s, pid, []);
    assert a + c + f + s + p + [] == b;
  }

  class Request {
    var request: seq<Byte>
    var lists: seq<ListMark>
    var capacity: nat
    var block: nat
    ghost var draft: Draft

    /** Pointers from the first block, the header's among them, are good exactly while the request
        fits the reserved size. */
    ghost predicate Valid()
      reads this
    {
      && HEADER_SIZE <= |request| <= capacity
      && (block == 0 ==> capacity == RESERVED) && (block == 0 <==> |request| <= RESERVED)
      && request[HEADER_SIZE..] == PrintDraft(draft)
      && Marked(lists, draft, block)
    }

    constructor (command: nat, flags: bv16, pid: nat, sequenceNumber: nat)
      ensures Valid() && draft == Draft([], [])
      ensures |request| == HEADER_SIZE && Holds32(request, 0, 0) && Holds16(request, 4, command % 65536)
      ensures Holds16(request, 6, (flags | 5) as nat)
      ensures Holds32(request, 8, sequenceNumber % 0x1_0000_0000) && Holds32(request, 12, pid % 0x1_0000_0000)
    {
      HeaderHolds(command, (flags | 5) as nat, sequenceNumber, pid);
      request := U32(0) + U16(command) + U16((flags | 5) as nat) + U32(sequenceNumber) + U32(pid);
      lists, capacity, block := [], RESERVED, 0;
      draft := Draft([], []);
    }

    /** Grows the buffer by `length` rounded up to 4, with zeros, into a new block if it must. */
    method ReserveRaw(length: nat) returns (at: nat)
      requires |request| <= capacity
      modifies this`request, this`capacity, this`block
      ensures at == |old(request)| && request == old(request) + Zeros(Align(length))
      ensures forall i | at <= i < |request| :: request[i] == 0
      ensures |request| <= capacity && old(block) <= block
      ensures |request| <= old(capacity) ==> block == old(block) && capacity == old(capacity)
      ensures |request| > old(capacity) ==> block > old(block)
    {
      at := |request|;
      request := request + Zeros(Align(length));
      if |request| > capacity {
        capacity, block := if 2 * capacity < |request| then |request| else 2 * capacity, block + 1;
      }
    }

    method WriteRaw(data: seq<Byte>)
      requires |request| <= capacity
      modifies this`request, this`capacity, this`block
      ensures request == old(request) + Padded(data)
      ensures |request| <= capacity && old(block) <= block
      ensures |request| <= old(capacity) ==> block == old(block) && capacity == old(capacity)
      ensures |request| > old(capacity) ==> block > old(block)
    {
      var at := ReserveRaw(|data|);
      request := request[..at] + data + request[at + |data|..];
    }

    method AppendRaw(data: seq<Byte>)
      requires Valid()
      modifies this
      ensures Valid() && draft == old(draft).Add(Raw(data))
      ensures request == old(request) + Padded(data) && lists == old(lists)
    {
      AddPrints(draft, Raw(data));
      WriteRaw(data);
      MarkedAfterAdd(lists, draft, Raw(data), old(block), block);
      draft := draft.Add(Raw(data));
    }

    /** Reserves the attribute header, fills it in, then appends the data.  The mark is the header's
        place in the block it was reserved in. */
    method WriteTag(kind: nat, data: seq<Byte>) returns (at: nat, home: nat)
      requires |request| <= capacity
      modifies this`request, this`capacity, this`block
      ensures at == |old(request)| && old(block) <= home <= block && (data == [] ==> home == block)
      ensures request == old(request) + AttrHeader(4 + |data|, kind) + Padded(data)
      ensures |request| <= capacity
      ensures |request| <= old(capacity) ==> block == old(block) && capacity == old(capacity)
      ensures |request| > old(capacity) ==> block > old(block)
    {
      at := ReserveRaw(4);
      home := block;
      request := request[..at + 2] + U16(kind) + request[at + 4..];
      request := request[..at] + U16(4 + |data|) + request[at + 2..];
      assert request == old(request) + AttrHeader(4 + |data|, kind);
      WriteRaw(data);
    }

    method AppendTag(kind: nat, data: seq<Byte>)
      requires Valid()
      modifies this
      ensures Valid() && draft == old(draft).Add(Attr(kind, Short(data)))
      ensures request == old(request) + Print(Attr(kind, Short(data))) && lists == old(lists)
    {
      var short := Short(data);
      AddPrints(draft, Attr(kind, short));
      AppendBeyondHeader(request, AttrHeader(4 + |short|, kind), Padded(short));
      var _, _ := WriteTag(kind, short);
      MarkedAfterAdd(lists, draft, Attr(kind, short), old(block), block);
      draft := draft.Add(Attr(kind, short));
    }

    method AddString(kind: nat, value: seq<Byte>)
      requires Valid()
      modifies this
      ensures Valid() && draft == old(draft).Add(Attr(kind, Short(value + [0])))
      ensures lists == old(lists)
    {
      AppendTag(kind, value + [0]);
    }

    method PushList(kind: nat)
      requires Valid()
      modifies this
      ensures Valid() && draft == old(draft).Push(kind)
      ensures request == old(request) + AttrHeader(4, kind)
      ensures |lists| == |old(lists)| + 1 && lists[..|old(lists)|] == old(lists)
      ensures lists[|old(lists)|].block == block
    {
      var length := |request|;
      PushPrints(draft, kind);
      var list, home := WriteTag(kind, []);
      assert Padded([]) == [];
      MarkedAfterPush(lists, draft, kind, old(block), block, length);
      lists := lists + [ListMark(home, list, length)];
      draft := draft.Push(kind);
    }

    /** Writes through the innermost list's pointer; undefined if growth has left that pointer behind. */
    method PopList() returns (defined: bool)
      requires Valid()
      modifies this
      ensures Valid() && |request| == |old(request)| && block == old(block)
      ensures defined <==> old(lists) == [] || old(lists)[|old(lists)| - 1].block == block
      ensures defined ==> draft == old(draft).Pop()
      ensures defined && old(lists) != [] ==> lists == old(lists)[..|old(lists)| - 1]
      ensures !defined ==> request == old(request) && |request| > RESERVED
    {
      if lists == [] {
        return true;
      }
      var list := lists[|lists| - 1];
      if list.block != block {
        return false;
      }
      PatchedRequest(request, draft);
      MarkedAfterPop(lists, draft, block);
      lists := lists[..|lists| - 1];
      request := request[..list.at] + U16(|request| - list.start) + request[list.at + 2..];
      draft := draft.Pop();
      defined := true;
    }

    /** Stores the request's length through the header pointer, which is good while the request fits
        the reserved size, before handing out the bytes. */
    method RequestData() returns (defined: bool, data: seq<Byte>)
      requires Valid()
      modifies this`request
      ensures Valid() && (defined <==> |old(request)| <= RESERVED)
      ensures defined ==> data == request && data[4..] == old(request)[4..] && Holds32(data, 0, |data|)
    {
      if block != 0 {
        return false, [];
      }
      U32Holds([], |request|, request[4..]);
      assert [] + U32(|request|) + request[4..] == U32(|request|) + request[4..];
      request := U32(|request|) + request[4..];
      return true, request;
    }
  }

  // ---------- reading it back ----------

  /** Which attributes are lists: a reader knows this from the attribute's path, not from its bytes. */
  type Schema = seq<nat> -> bool

  datatype Cut = Cut(kind: nat, payload: seq<Byte>, rest: seq<Byte>)

  /** The first attribute of a buffer, and what follows at its aligned length. */
  function FirstAttr(b: seq<Byte>): (c: Option<Cut>)
    ensures c.Some? ==> |c.value.payload| < |b| && |c.value.rest| < |b|
  {
    if |b| < 4 then None
    else
      var length := ReadU16(b);
      if length < 4 || Align(length) > |b| then None
      else Some(Cut(ReadU16(b[2..]), b[4..length], b[Align(length)..]))
  }

  /** Walks attributes by their aligned length, as a netlink receiver does, entering lists. */
  function Walk(b: seq<Byte>, schema: Schema, path: seq<nat>): Option<seq<Item>>
    decreases |b|
  {
    if b == [] then Some([])
    else
      match FirstAttr(b)
      case None => None
      case Some(Cut(kind, payload, rest)) =>
        var after := Walk(rest, schema, path);
        if after == None then None
        else if !schema(path + [kind]) then Some([Attr(kind, payload)] + after.value)
        else
          var inside := Walk(payload, schema, path + [kind]);
          if inside == None then None else Some([Nest(kind, inside.value)] + after.value)
  }

  /** Items made of attributes only, in 16-bit range, whose lists are the ones the schema expects. */
  predicate Conforms(items: seq<Item>, schema: Schema, path: seq<nat>)
    decreases items, 1
  {
    forall i | 0 <= i < |items| :: ItemConforms(items[i], schema, path)
  }

  predicate ItemConforms(item: Item, schema: Schema, path: seq<nat>)
    decreases item, 0
  {
    match item
    case Attr(kind, data) => kind < 65536 && 4 + |data| < 65536 && !schema(path + [kind])
    case Nest(kind, children) =>
      && kind < 65536 && 4 + |PrintAll(children)| < 65536 && schema(path + [kind])
      && Conforms(children, schema, path + [kind])
    case Raw(_) => false
  }

  lemma FirstAttrOfPrint(kind: nat, payload: seq<Byte>, rest: seq<Byte>)
    requires kind < 65536 && 4 + |payload| < 65536
    ensures FirstAttr(AttrHeader(4 + |payload|, kind) + Padded(payload) + rest) == Some(Cut(kind, payload, rest))
  {
    var length := 4 + |payload|;
    var b := AttrHeader(length, kind) + Padded(payload) + rest;
    assert b[..4] == AttrHeader(length, kind);
    assert ReadU16(b) == length && ReadU16(b[2..]) == kind;
    assert b[Align(length)..] == rest;
    assert b[4..length] == payload;
  }

  lemma PaddedAligned(b: seq<Byte>)
    requires |b| % 4 == 0
    ensures Padded(b) == b
  {
  }

  /** Walking the print of any conforming forest recovers it: every list is tiled exactly by its
      children, whatever they contain. */
  lemma {:induction false} WalkRecovers(items: seq<Item>, schema: Schema, path: seq<nat>)
    requires Conforms(items, schema, path)
    ensures Walk(PrintAll(items), schema, path) == Some(items)
    decreases items
  {
    if items != [] {
      var item, tail := items[0], items[1..];
      assert ItemConforms(item, schema, path);
      assert [item] + tail == items;
      WalkRecovers(tail, schema, path);
      if item.Nest? {
        WalkRecovers(item.children, schema, path + [item.kind]);
        PrintAllAligned(item.children);
        PaddedAligned(PrintAll(item.children));
        FirstAttrOfPrint(item.kind, PrintAll(item.children), PrintAll(tail));
      } else {
        FirstAttrOfPrint(item.kind, item.data, PrintAll(tail));
      }
    }
  }

  // ---------- whole sequences of calls ----------

  datatype Call = Add(kind: nat, data: seq<Byte>) | Push(kind: nat) | Pop

  function Apply(d: Draft, c: Call): Draft {
    match c
    case Add(kind, data) => d.Add(Attr(kind, Short(data)))
    case Push(kind) => d.Push(kind)
    case Pop => d.Pop()
  }

  function Replay(d: Draft, calls: seq<Call>): Draft
    decreases |calls|
  {
    if calls == [] then d else Replay(Apply(d, calls[0]), calls[1..])
  }

  function Cost(calls: seq<Call>): nat {
    if calls == [] then 0 else CallCost(calls[0]) + Cost(calls[1..])
  }

  function CallCost(c: Call): nat {
    match c
    case Add(_, data) => 4 + Align(|Short(data)|)
    case Push(_) => 4
    case Pop => 0
  }

  /** What a sequence of calls describes by itself. */
  function Described(calls: seq<Call>): Draft {
    Replay(Draft([], []), calls)
  }

  /** Items already at top level do not affect what later calls describe. */
  lemma {:induction false} ReplayAfterPrefix(prefix: seq<Item>, d: Draft, calls: seq<Call>)
    ensures var e := Replay(d, calls);
            Replay(Draft(prefix + d.root, d.open), calls) == Draft(prefix + e.root, e.open)
    decreases |calls|
  {
    if calls != [] {
      var e := Apply(d, calls[0]);
      var shifted := Apply(Draft(prefix + d.root, d.open), calls[0]);
      assert shifted.root == prefix + e.root && shifted.open == e.open;
      ReplayAfterPrefix(prefix, e, calls[1..]);
    }
  }

  method PerformOne(r: Request, c: Call) returns (defined: bool)
    requires r.Valid()
    modifies r
    ensures r.Valid() && |r.request| == |old(r.request)| + CallCost(c)
    ensures defined ==> r.draft == Apply(old(r.draft), c)
    ensures !defined ==> |r.request| > RESERVED
  {
    defined := true;
    match c {
      case Add(kind, data) => r.AppendTag(kind, data);
      case Push(kind) => r.PushList(kind);
      case Pop => defined := r.PopList();
    }
  }

  method PerformAll(r: Request, calls: seq<Call>) returns (defined: bool)
    requires r.Valid()
    modifies r
    ensures r.Valid()
    ensures defined ==> r.draft == Replay(old(r.draft), calls) && |r.request| == |old(r.request)| + Cost(calls)
    ensures !defined ==> |old(r.request)| + Cost(calls) > RESERVED
  {
    var i := 0;
    while i < |calls|
      invariant 0 <= i <= |calls|
      invariant r.Valid()
      invariant Replay(r.draft, calls[i..]) == Replay(old(r.draft), calls)
      invariant |r.request| + Cost(calls[i..]) == |old(r.request)| + Cost(calls)
    {
      assert calls[i..][0] == calls[i] && calls[i..][1..] == calls[i + 1..];
      var ok := PerformOne(r, calls[i]);
      if !ok {
        return false;
      }
      i := i + 1;
    }
    assert calls[i..] == [];
    defined := true;
  }

  /** Any calls followed by `RequestData`: defined exactly when the whole fits the reserved size.  Then the
      request holds what the calls describe, and if they close every list they open, a reader that knows
      the schema walks the added bytes back to exactly those items. */
  method Perform(r: Request, calls: seq<Call>) returns (defined: bool, data: seq<Byte>)
    requires r.Valid()
    modifies r
    ensures r.Valid() && (defined <==> |old(r.request)| + Cost(calls) <= RESERVED)
    ensures defined ==> r.draft == Replay(old(r.draft), calls)
    ensures defined ==> |data| == |old(r.request)| + Cost(calls) && |data| % 4 == 0 && Holds32(data, 0, |data|)
    ensures defined && old(r.draft.open) == [] && Described(calls).open == [] ==>
              forall schema: Schema | Conforms(Described(calls).root, schema, []) ::
                Walk(data[|old(r.request)|..], schema, []) == Some(Described(calls).root)
  {
    ghost var first, size := r.draft, |r.request|;
    defined := PerformAll(r, calls);
    if !defined {
      return false, [];
    }
    PrintDraftAligned(r.draft);
    defined, data := r.RequestData();
    if defined && first.open == [] && Described(calls).open == [] {
      AddedBytes(first, calls);
      TailOfPrints(r.request, size, PrintDraft(first), PrintAll(Described(calls).root));
      WalkAll(Described(calls).root);
    }
  }

  /** A list around one attribute of up to 500 bytes: with 488 bytes the request is just full, with any more
      the list's pointer is left behind by the time it is closed. */
  method OutgrownList(command: nat, pid: nat, sequenceNumber: nat, size: nat) returns (defined: bool)
    requires size <= 500
    ensures defined <==> size <= 488
  {
    var r := new Request(command, 0, pid, sequenceNumber);
    CostOfList(size);
    var ok, _ := Perform(r, [Push(1), Add(2, Zeros(size)), Pop]);
    defined := ok;
  }

  lemma CostOfList(size: nat)
    requires size <= 500
    ensures Cost([Push(1), Add(2, Zeros(size)), Pop]) == 8 + Align(size)
  {
    var calls := [Push(1), Add(2, Zeros(size)), Pop];
    assert calls[1..] == [Add(2, Zeros(size)), Pop] && calls[1..][1..] == [Pop];
    assert Cost([Pop]) == 0;
  }

  lemma TailOfPrints(r: seq<Byte>, size: nat, before: seq<Byte>, added: seq<Byte>)
    requires HEADER_SIZE <= size <= |r| && r[HEADER_SIZE..] == before + added && size == HEADER_SIZE + |before|
    ensures r[size..] == added
  {
    assert r[size..] == r[HEADER_SIZE..][|before|..];
  }

  lemma WalkAll(items: seq<Item>)
    ensures forall schema: Schema | Conforms(items, schema, []) :: Walk(PrintAll(items), schema, []) == Some(items)
  {
    forall schema: Schema | Conforms(items, schema, [])
      ensures Walk(PrintAll(items), schema, []) == Some(items)
    {
      WalkRecovers(items, schema, []);
    }
  }

  lemma ClosedPrints(d: Draft)
    requires d.open == []
    ensures PrintDraft(d) == PrintAll(d.root)
  {
    assert PrintOpen([]) == [];
  }

  lemma ReplayClosed(d: Draft, calls: seq<Call>)
    requires d.open == [] && Described(calls).open == []
    ensures Replay(d, calls) == Draft(d.root + Described(calls).root, [])
  {
    ReplayAfterPrefix(d.root, Draft([], []), calls);
    assert Draft(d.root + [], []) == d;
  }

  lemma AddedBytes(d: Draft, calls: seq<Call>)
    requires d.open == [] && Described(calls).open == []
    ensures PrintDraft(Replay(d, calls)) == PrintDraft(d) + PrintAll(Described(calls).root)
  {
    ReplayClosed(d, calls);
    ClosedPrints(d);
    ClosedPrints(Replay(d, calls));
    PrintAllConcat(d.root, Described(calls).root);
  }
}
