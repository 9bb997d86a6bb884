/** Copying a file by its data extents, and measuring them. */
module SparseCopy {
  import opened Wrappers

  const ZERO: char := 0 as char

  /** A file's bytes and, byte by byte, whether they lie in a data extent.  Holes read as zeros. */
  datatype Source = Source(bytes: string, isData: seq<bool>) {
    predicate Valid() {
      && |isData| == |bytes|
      && forall i | 0 <= i < |bytes| :: !isData[i] ==> bytes[i] == ZERO
    }

    /** `lseek` with `SEEK_HOLE` (`data` false) or `SEEK_DATA`; `None` is `ENXIO`.  The end of the file
        counts as a hole. */
    function Seek(offset: nat, data: bool): (r: Option<nat>)
      requires Valid()
      ensures r == None <==> offset >= |bytes| || (data && forall i | offset <= i < |bytes| :: !isData[i])
      ensures r.Some? ==> offset <= r.value <= |bytes|
      ensures r.Some? ==> forall i | offset <= i < r.value :: isData[i] != data
      ensures r.Some? && r.value < |bytes| ==> isData[r.value] == data
      decreases |bytes| - offset
    {
      if offset >= |bytes| then None
      else if isData[offset] == data then Some(offset)
      else if offset + 1 == |bytes| then (if data then None else Some(|bytes|))
      else Seek(offset + 1, data)
    }
  }

  function Max(a: int, b: int): int {
    if a < b then b else a
  }

  /** A file after writing `chunk` at `pos`; a gap is filled with zeros. */
  function Overwrite(before: string, pos: nat, chunk: string): string {
    if chunk == [] then before
    else
      var gap := if pos <= |before| then [] else seq(pos - |before|, _ => ZERO);
      (before + gap)[..pos] + chunk + (if pos + |chunk| < |before| then before[pos + |chunk|..] else [])
  }

  lemma OverwriteAt(before: string, pos: nat, chunk: string)
    ensures var r := Overwrite(before, pos, chunk);
            && |r| == (if chunk == [] then |before| else Max(|before|, pos + |chunk|))
            && forall i | 0 <= i < |r| ::
                 r[i] == if pos <= i < pos + |chunk| then chunk[i - pos] else if i < |before| then before[i] else ZERO
  {
  }

  lemma OverwriteTwice(before: string, pos: nat, a: string, b: string)
    ensures Overwrite(Overwrite(before, pos, a), pos + |a|, b) == Overwrite(before, pos, a + b)
  {
    if a == [] {
      assert a + b == b;
    } else if b == [] {
      assert a + b == a;
    } else {
      OverwriteAt(before, pos, a);
      OverwriteAt(Overwrite(before, pos, a), pos + |a|, b);
      OverwriteAt(before, pos, a + b);
      assert Overwrite(Overwrite(before, pos, a), pos + |a|, b) == Overwrite(before, pos, a + b);
    }
  }

  lemma SendMore(before: string, pos: nat, bytes: string, start: nat, mid: nat, end: nat)
    requires start <= mid <= end <= |bytes|
    ensures Overwrite(Overwrite(before, pos, bytes[start..mid]), pos + (mid - start), bytes[mid..end])
            == Overwrite(before, pos, bytes[start..end])
  {
    assert bytes[start..mid] + bytes[mid..end] == bytes[start..end];
    OverwriteTwice(before, pos, bytes[start..mid], bytes[mid..end]);
  }

  /** The descriptor written to.  `accept(k)` is how many bytes the k-th `sendfile` is willing to move;
      zero or less is a failure. */
  class Target {
    var data: string
    var pos: nat
    var calls: nat
    const accept: nat -> int

    constructor (accept: nat -> int)
      ensures data == [] && pos == 0 && calls == 0 && this.accept == accept
    {
      data, pos, calls, this.accept := [], 0, 0, accept;
    }

    /** `sendfile`. */
    method Sendfile(from: Source, offset: nat, count: nat) returns (moved: int)
      requires count > 0 && offset + count <= |from.bytes|
      modifies this
      ensures calls == old(calls) + 1
      ensures moved <= count && (moved > 0 <==> accept(old(calls)) > 0)
      ensures moved > 0 ==> data == Overwrite(old(data), old(pos), from.bytes[offset..offset + moved])
      ensures moved > 0 ==> pos == old(pos) + moved
      ensures moved <= 0 ==> data == old(data) && pos == old(pos)
    {
      moved := if accept(calls) < count then accept(calls) else count;
      calls := calls + 1;
      if moved > 0 {
        data := Overwrite(data, pos, from.bytes[offset..offset + moved]);
        pos := pos + moved;
      }
    }

    ghost predicate NeverRefuses() {
      forall k :: accept(k) > 0
    }

    /** `SendFile`: however the kernel chops the range up, all of it arrives or the call fails. */
    method SendFile(from: Source, start: nat, count: nat) returns (ok: bool, offset: nat)
      requires start + count <= |from.bytes|
      modifies this
      ensures start <= offset <= start + count
      ensures ok <==> offset == start + count
      ensures data == Overwrite(old(data), old(pos), from.bytes[start..offset])
      ensures NeverRefuses() ==> ok
    {
      offset := start;
      var left := count;
      while left > 0
        invariant 0 <= left <= count && offset == start + (count - left)
        invariant data == Overwrite(old(data), old(pos), from.bytes[start..offset])
        invariant pos == old(pos) + (offset - start)
      {
        var moved := Sendfile(from, offset, left);
        if moved <= 0 {
          return false, offset;
        }
        SendMore(old(data), old(pos), from.bytes, start, offset, offset + moved);
        offset, left := offset + moved, left - moved;
      }
      ok := true;
    }
  }

  // ---------- what the copy holds when it has come as far as an offset ----------

  /** Where the last data extent below the end of `layout` ends. */
  function DataEnd(layout: seq<bool>): (n: nat)
    ensures n <= |layout|
    ensures n > 0 ==> layout[n - 1]
    ensures forall i | n <= i < |layout| :: !layout[i]
  {
    if layout == [] then 0
    else if layout[|layout| - 1] then |layout|
    else DataEnd(layout[..|layout| - 1])
  }

  function CountData(layout: seq<bool>): (n: nat)
    ensures n <= |layout|
  {
    if layout == [] then 0
    else (if layout[|layout| - 1] then 1 else 0) + CountData(layout[..|layout| - 1])
  }

  /** Moving over a stretch that is all data or all hole. */
  lemma {:induction false} Stretch(layout: seq<bool>, a: nat, b: nat, data: bool)
    requires a <= b <= |layout|
    requires forall i | a <= i < b :: layout[i] == data
    ensures DataEnd(layout[..b]) == if data && a < b then b else DataEnd(layout[..a])
    ensures CountData(layout[..b]) == CountData(layout[..a]) + if data then b - a else 0
    decreases b
  {
    if a < b {
      Stretch(layout, a, b - 1, data);
      assert layout[..b][..b - 1] == layout[..b - 1];
    }
  }

  predicate CopiedTo(from: Source, offset: nat, data: string, sized: bool)
    requires from.Valid() && offset <= |from.bytes|
  {
    && |data| == (if sized then |from.bytes| else DataEnd(from.isData[..offset]))
    && forall i | 0 <= i < |data| :: data[i] == if i < offset then from.bytes[i] else ZERO
  }

  lemma OverHole(from: Source, offset: nat, next: nat, data: string, sized: bool)
    requires from.Valid() && offset <= next <= |from.bytes|
    requires CopiedTo(from, offset, data, sized)
    requires forall i | offset <= i < next :: !from.isData[i]
    ensures CopiedTo(from, next, data, sized)
  {
    Stretch(from.isData, offset, next, false);
  }

  lemma OverData(from: Source, offset: nat, next: nat, data: string, sized: bool)
    requires from.Valid() && offset <= next <= |from.bytes|
    requires CopiedTo(from, offset, data, sized)
    requires forall i | offset <= i < next :: from.isData[i]
    ensures CopiedTo(from, next, Overwrite(data, offset, from.bytes[offset..next]), sized)
  {
    if offset < next {
      Stretch(from.isData, offset, next, true);
      var chunk := from.bytes[offset..next];
      var after := Overwrite(data, offset, chunk);
      OverwriteAt(data, offset, chunk);
      forall i | 0 <= i < |after|
        ensures after[i] == if i < next then from.bytes[i] else ZERO
      {
        if offset <= i < next {
          assert chunk[i - offset] == from.bytes[i];
        } else if |data| <= i < offset {
          assert !from.isData[..offset][i];
        }
      }
    }
  }

  /** The result of a copy that reported success. */
  function Copied(from: Source, sized: bool): string
    requires from.Valid()
  {
    if sized then from.bytes else from.bytes[..DataEnd(from.isData)]
  }

  lemma CopiedAll(from: Source, data: string, sized: bool)
    requires from.Valid() && CopiedTo(from, |from.bytes|, data, sized)
    ensures data == Copied(from, sized)
  {
    assert from.isData[..|from.bytes|] == from.isData;
  }

  /** `Copy`.  A seek may fail with something other than `ENXIO`; a truncate that fails is only logged.
      `from` is `None` when it cannot be opened. */
  method Copy(from: Option<Source>, to: Target, toOpens: bool, sizes: bool, seekWorks: nat -> bool)
    returns (ok: bool)
    requires from.Some? ==> from.value.Valid()
    modifies to
    ensures ok ==> toOpens && from.Some? && to.data == Copied(from.value, sizes)
    ensures toOpens && from.Some? && to.NeverRefuses() && (forall k :: seekWorks(k)) ==> ok
    ensures !toOpens ==> to.data == old(to.data)
  {
    if toOpens {
      to.data, to.pos := [], 0;
    }
    if from.None? || !toOpens {
      return false;
    }
    var src := from.value;
    var size, seeks := |src.bytes|, 1;
    if !seekWorks(0) {
      return false;
    }
    if sizes {
      to.data := seq(size, _ => ZERO);
    }
    var offset := 0;
    while offset < size
      invariant offset <= size
      invariant CopiedTo(src, offset, to.data, sizes)
    {
      var hole := src.Seek(offset, false);
      if !seekWorks(seeks) {
        return false;
      }
      to.pos := offset;
      if !seekWorks(seeks + 1) {
        return false;
      }
      OverData(src, offset, hole.value, to.data, sizes);
      var sent, sentTo := to.SendFile(src, offset, hole.value - offset);
      if !sent {
        return false;
      }
      offset := sentTo;
      assert offset == hole.value;
      if offset >= size {
        break;
      }
      var data := src.Seek(offset, true);
      if !seekWorks(seeks + 2) {
        return false;
      }
      var next := if data.Some? then data.value else size;
      OverHole(src, offset, next, to.data, sizes);
      if data == None {
        CopiedAll(src, to.data, sizes);
        return true;
      }
      offset, seeks := next, seeks + 3;
    }
    CopiedAll(src, to.data, sizes);
    ok := true;
  }

  /** A successful copy equals its source exactly when the target was sized up front or the source does
      not end in a hole. */
  lemma CopyIsFaithful(from: Source, sized: bool)
    requires from.Valid()
    ensures Copied(from, sized) == from.bytes
            <==> sized || from.bytes == [] || from.isData[|from.bytes| - 1]
  {
    if DataEnd(from.isData) == |from.bytes| {
      assert from.bytes[..|from.bytes|] == from.bytes;
    } else if !sized {
      assert |Copied(from, sized)| == DataEnd(from.isData);
    }
  }

  datatype FileSizes = FileSizes(sparseSize: nat, diskSize: nat)

  /** `SparseFileSizes`: every zero when the file cannot be opened or a seek fails. */
  method SparseFileSizes(from: Option<Source>, seekWorks: nat -> bool) returns (sizes: FileSizes)
    requires from.Some? ==> from.value.Valid()
    ensures from.Some? && (forall k :: seekWorks(k)) ==>
              sizes == FileSizes(|from.value.bytes|, CountData(from.value.isData))
    ensures sizes == FileSizes(0, 0)
         || (from.Some? && sizes == FileSizes(|from.value.bytes|, CountData(from.value.isData)))
  {
    if from == None || !seekWorks(0) {
      return FileSizes(0, 0);
    }
    var src := from.value;
    var size, seeks := |src.bytes|, 1;
    var dataBytes, offset := 0, 0;
    while offset < size
      invariant offset <= size
      invariant dataBytes == CountData(src.isData[..offset])
    {
      var hole := src.Seek(offset, false);
      if !seekWorks(seeks) {
        return FileSizes(0, 0);
      }
      Stretch(src.isData, offset, hole.value, true);
      dataBytes := dataBytes + (hole.value - offset);
      offset := hole.value;
      if offset >= size {
        break;
      }
      var data := src.Seek(offset, true);
      if !seekWorks(seeks + 1) {
        return FileSizes(0, 0);
      }
      var next := if data.Some? then data.value else size;
      Stretch(src.isData, offset, next, false);
      offset, seeks := next, seeks + 2;
    }
    assert src.isData[..size] == src.isData;
    sizes := FileSizes(size, dataBytes);
  }
}
