/** The IPv4 header checksum and the ones'-complement sum it stands for. */
module IpChecksum {
  type Word = x: int | 0 <= x < 0x1_0000

  const MODULUS32 := 0x1_0000_0000

  // ---------- the code ----------

  /** `ip_checksum`: the accumulator is 32 bits wide and is folded twice. */
  method IpChecksum(buf: array<Word>) returns (r: Word)
    ensures r == Checksum(buf[..])
  {
    var sum: int := 0;
    for i := 0 to buf.Length
      invariant 0 <= sum < MODULUS32
      invariant sum == Total(buf[..i]) % MODULUS32
    {
      assert buf[..i + 1] == buf[..i] + [buf[i]];
      TotalSnoc(buf[..i], buf[i]);
      WrappedAdd(Total(buf[..i]), buf[i]);
      sum := (sum + buf[i]) % MODULUS32;
    }
    assert buf[..buf.Length] == buf[..];
    FoldedTwice(sum);
    sum := sum / 0x1_0000 + sum % 0x1_0000;
    sum := (sum + sum / 0x1_0000) % MODULUS32;
    r := (MODULUS32 - 1 - sum) % 0x1_0000;
  }

  function Checksum(ws: seq<Word>): Word {
    0xFFFF - Residue(Total(ws) % MODULUS32)
  }

  function Total(ws: seq<Word>): (n: nat)
    ensures n <= 0xFFFF * |ws|
  {
    if ws == [] then 0 else ws[0] + Total(ws[1..])
  }

  lemma {:induction false} TotalSnoc(ws: seq<Word>, w: Word)
    ensures Total(ws + [w]) == Total(ws) + w
  {
    if ws == [] {
      assert Total([w]) == w + Total([w][1..]);
    } else {
      assert (ws + [w])[1..] == ws[1..] + [w];
      TotalSnoc(ws[1..], w);
    }
  }

  lemma WrappedAdd(n: nat, w: Word)
    ensures (n % MODULUS32 + w) % MODULUS32 == (n + w) % MODULUS32
  {
    assert n + w == MODULUS32 * (n / MODULUS32) + (n % MODULUS32 + w);
  }

  /** The value 1..65535 congruent to `n` modulo 65535, and 0 only for 0. */
  function Residue(n: nat): (r: Word)
    ensures r == 0 <==> n == 0
  {
    if n == 0 then 0 else (n - 1) % 0xFFFF + 1
  }

  lemma ResidueIs(n: nat, k: nat, r: Word)
    requires n == 0xFFFF * k + r && r > 0
    ensures Residue(n) == r
  {
    assert n - 1 == 0xFFFF * k + (r - 1);
  }

  /** Residue's quotient, so that `ResidueIs` can be used backwards. */
  function Laps(n: nat): (k: nat)
    ensures n == 0xFFFF * k + Residue(n)
  {
    if n == 0 then 0 else (n - 1) / 0xFFFF
  }

  lemma FoldedTwice(sum: nat)
    requires sum < MODULUS32
    ensures var once := sum / 0x1_0000 + sum % 0x1_0000;
            (MODULUS32 - 1 - (once + once / 0x1_0000) % MODULUS32) % 0x1_0000 == 0xFFFF - Residue(sum)
  {
    var high, once := sum / 0x1_0000, sum / 0x1_0000 + sum % 0x1_0000;
    assert sum == 0xFFFF * high + once && once <= 0x1_FFFE;
    if 0 < once <= 0xFFFF {
      ResidueIs(sum, high, once);
    } else if once > 0xFFFF {
      ResidueIs(sum, high + 1, once - 0xFFFF);
    }
  }

  // ---------- section 1 of RFC 1071 ----------

  /** Addition with end-around carry. */
  function OnesAdd(a: Word, b: Word): Word {
    if a + b >= 0x1_0000 then a + b - 0xFFFF else a + b
  }

  function OnesSum(ws: seq<Word>): Word {
    if ws == [] then 0 else OnesAdd(ws[0], OnesSum(ws[1..]))
  }

  lemma {:induction false} OnesSumIsResidue(ws: seq<Word>)
    ensures OnesSum(ws) == Residue(Total(ws))
  {
    if ws != [] {
      OnesSumIsResidue(ws[1..]);
      var n, k := Total(ws[1..]), Laps(Total(ws[1..]));
      if n > 0 && ws[0] + Residue(n) >= 0x1_0000 {
        ResidueIs(n + ws[0], k + 1, ws[0] + Residue(n) - 0xFFFF);
      } else if n + ws[0] > 0 {
        ResidueIs(n + ws[0], k, ws[0] + Residue(n));
      }
    }
  }

  /** What is lost when the accumulator wraps: nothing exactly when the wraps are a multiple of 65535
      that leave something behind, or there were none. */
  predicate WrapsHarmlessly(ws: seq<Word>) {
    var n := Total(ws);
    n < MODULUS32 || (n / MODULUS32 % 0xFFFF == 0 && n % MODULUS32 != 0)
  }

  lemma ChecksumIsOnesComplement(ws: seq<Word>)
    ensures Checksum(ws) == 0xFFFF - OnesSum(ws) <==> WrapsHarmlessly(ws)
  {
    OnesSumIsResidue(ws);
    WrapLaw(Total(ws));
  }

  lemma ShortBuffersAreExact(ws: seq<Word>)
    requires |ws| <= 65537
    ensures Checksum(ws) == 0xFFFF - OnesSum(ws)
  {
    ChecksumIsOnesComplement(ws);
  }

  lemma WrapLaw(n: nat)
    ensures Residue(n % MODULUS32) == Residue(n)
            <==> n < MODULUS32 || (n / MODULUS32 % 0xFFFF == 0 && n % MODULUS32 != 0)
  {
    if n >= MODULUS32 {
      var q, r := n / MODULUS32, n % MODULUS32;
      if Residue(n) == Residue(r) {
        WrapsMultiple(n, q, r, Laps(n), Laps(r), Residue(n));
      }
      if q % 0xFFFF == 0 && r != 0 {
        WrapsAway(n, q, q / 0xFFFF, r, Laps(r), Residue(r));
        ResidueIs(n, 65537 * q + q / 0xFFFF + Laps(r), Residue(r));
      }
    }
  }

  lemma WrapsMultiple(n: nat, q: nat, r: nat, j: nat, k: nat, x: nat)
    requires n == MODULUS32 * q + r && n == 0xFFFF * j + x && r == 0xFFFF * k + x
    ensures q % 0xFFFF == 0
  {
    assert q == 0xFFFF * (j - 65537 * q - k);
  }

  lemma WrapsAway(n: nat, q: nat, m: nat, r: nat, k: nat, x: nat)
    requires n == MODULUS32 * q + r && q == 0xFFFF * m && r == 0xFFFF * k + x
    ensures n == 0xFFFF * (65537 * q + m + k) + x
  {
  }

  lemma {:induction false} TotalOfEqualWords(ws: seq<Word>, w: Word)
    requires forall i | 0 <= i < |ws| :: ws[i] == w
    ensures Total(ws) == w * |ws|
  {
    if ws != [] {
      TotalOfEqualWords(ws[1..], w);
    }
  }

  /** One word over the limit is enough for the wrap to show. */
  lemma LimitIsSharp(ws: seq<Word>)
    requires |ws| == 65538 && forall i | 0 <= i < |ws| :: ws[i] == 0xFFFF
    ensures Checksum(ws) != 0xFFFF - OnesSum(ws)
  {
    TotalOfEqualWords(ws, 0xFFFF);
    ChecksumIsOnesComplement(ws);
  }

  // ---------- section 3.1 of RFC 791 ----------

  lemma {:induction false} TotalUpdate(ws: seq<Word>, i: nat, w: Word)
    requires i < |ws|
    ensures Total(ws[i := w]) == Total(ws) - ws[i] + w
  {
    if i > 0 {
      assert ws[i := w][1..] == ws[1..][i - 1 := w];
      TotalUpdate(ws[1..], i - 1, w);
    } else {
      assert ws[i := w][1..] == ws[1..];
    }
  }

  /** A header whose checksum field was zero while summing verifies once the result is stored there. */
  lemma StoredChecksumVerifies(ws: seq<Word>, field: nat)
    requires |ws| <= 65537 && field < |ws| && ws[field] == 0
    ensures Checksum(ws[field := Checksum(ws)]) == 0
  {
    var n := Total(ws);
    TotalUpdate(ws, field, Checksum(ws));
    var m := Total(ws[field := Checksum(ws)]);
    assert m == 0xFFFF * Laps(n) + 0xFFFF;
    ResidueIs(m, Laps(n), 0xFFFF);
  }

  // ---------- section 2(B) of RFC 1071 ----------

  function Swap(w: Word): Word {
    w % 0x100 * 0x100 + w / 0x100
  }

  function SwapAll(ws: seq<Word>): (r: seq<Word>)
    ensures |r| == |ws|
  {
    if ws == [] then [] else [Swap(ws[0])] + SwapAll(ws[1..])
  }

  /** Swapping multiplies by 256, less some laps of 65535. */
  function Carried(ws: seq<Word>): int {
    if ws == [] then 0 else ws[0] / 0x100 + Carried(ws[1..])
  }

  lemma {:induction false} TotalSwapped(ws: seq<Word>)
    ensures Total(SwapAll(ws)) == 0x100 * Total(ws) - 0xFFFF * Carried(ws)
    ensures Total(ws) > 0 ==> Total(SwapAll(ws)) > 0
  {
    if ws != [] {
      TotalSwapped(ws[1..]);
      assert SwapAll(ws)[1..] == SwapAll(ws[1..]);
      SwapIsTimes256(ws[0]);
    }
  }

  lemma SwapIsTimes256(w: Word)
    ensures Swap(w) == 0x100 * w - 0xFFFF * (w / 0x100)
    ensures w > 0 ==> Swap(w) > 0
  {
  }

  lemma SwappedResidue(ws: seq<Word>)
    ensures Residue(Total(SwapAll(ws))) == Swap(Residue(Total(ws)))
  {
    var n, m := Total(ws), Total(SwapAll(ws));
    TotalSwapped(ws);
    if n > 0 {
      var r, laps := Residue(n), 0x100 * Laps(n) - Carried(ws) + Residue(n) / 0x100;
      SwapIsTimes256(r);
      SwappedLaps(n, m, Carried(ws), Laps(n), r);
      ResidueIs(m, laps, Swap(r));
    }
  }

  lemma SwappedLaps(n: nat, m: nat, carried: int, k: nat, r: Word)
    requires m == 0x100 * n - 0xFFFF * carried && n == 0xFFFF * k + r && m > 0
    requires Swap(r) == 0x100 * r - 0xFFFF * (r / 0x100)
    ensures var laps := 0x100 * k - carried + r / 0x100;
            laps >= 0 && m == 0xFFFF * laps + Swap(r)
  {
  }

  /** The sum does not depend on the byte order of the machine that takes it. */
  lemma ByteOrderIndependent(ws: seq<Word>)
    requires |ws| <= 65537
    ensures Checksum(SwapAll(ws)) == Swap(Checksum(ws))
  {
    SwappedResidue(ws);
    ShortChecksum(ws);
    ShortChecksum(SwapAll(ws));
    SwapComplement(Checksum(ws), Residue(Total(ws)));
  }

  lemma ShortChecksum(ws: seq<Word>)
    requires |ws| <= 65537
    ensures Checksum(ws) + Residue(Total(ws)) == 0xFFFF
  {
    NoWrap(|ws|, Total(ws));
  }

  lemma NoWrap(size: nat, n: nat)
    requires size <= 65537 && n <= 0xFFFF * size
    ensures n % MODULUS32 == n
  {
  }

  lemma SwapComplement(v: Word, w: Word)
    requires v + w == 0xFFFF
    ensures Swap(v) + Swap(w) == 0xFFFF
  {
    assert v / 0x100 == 0xFF - w / 0x100;
  }
}
