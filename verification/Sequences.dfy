/** Sequences with some elements left out. */
module Sequences {

  /** `a` is `b` with some elements left out, order kept. */
  predicate Subsequence<T(==)>(a: seq<T>, b: seq<T>)
    decreases |b|
  {
    if a == [] then true
    else if b == [] then false
    else if a[0] == b[0] && Subsequence(a[1..], b[1..]) then true
    else Subsequence(a, b[1..])
  }

  lemma SubsequenceSkip<T>(a: seq<T>, x: T, b: seq<T>)
    requires Subsequence(a, b)
    ensures Subsequence(a, [x] + b)
  {
    assert ([x] + b)[1..] == b;
  }

  lemma SubsequenceKeep<T>(a: seq<T>, x: T, b: seq<T>)
    requires Subsequence(a, b)
    ensures Subsequence([x] + a, [x] + b)
  {
    assert ([x] + b)[1..] == b && ([x] + a)[1..] == a;
  }

  lemma SubsequenceDropSecond<T>(a: seq<T>, x: T, y: T, b: seq<T>)
    requires Subsequence(a, [x] + b)
    ensures Subsequence(a, [x] + ([y] + b))
  {
    assert ([x] + b)[1..] == b && ([x] + ([y] + b))[1..] == [y] + b;
    if a != [] && a[0] == x && Subsequence(a[1..], b) {
      SubsequenceSkip(a[1..], y, b);
    } else if a != [] {
      SubsequenceSkip(a, y, b);
    }
  }

  lemma {:induction false} SubsequenceTransitive<T>(a: seq<T>, b: seq<T>, c: seq<T>)
    requires Subsequence(a, b) && Subsequence(b, c)
    ensures Subsequence(a, c)
    decreases |c|
  {
    if a != [] && b != [] && c != [] {
      if b[0] == c[0] && Subsequence(b[1..], c[1..]) {
        if a[0] == b[0] && Subsequence(a[1..], b[1..]) {
          SubsequenceTransitive(a[1..], b[1..], c[1..]);
        } else {
          SubsequenceTransitive(a, b[1..], c[1..]);
        }
      } else {
        SubsequenceTransitive(a, b, c[1..]);
      }
    }
  }

  lemma {:induction false} SubsequenceMember<T>(a: seq<T>, b: seq<T>, i: nat)
    requires Subsequence(a, b) && i < |a|
    ensures a[i] in b
    decreases |b|
  {
    if a[0] == b[0] && Subsequence(a[1..], b[1..]) {
      if i > 0 {
        SubsequenceMember(a[1..], b[1..], i - 1);
      }
    } else {
      SubsequenceMember(a, b[1..], i);
    }
  }

  lemma {:induction false} SubsequenceReflexive<T>(a: seq<T>)
    ensures Subsequence(a, a)
  {
    if a != [] {
      SubsequenceReflexive(a[1..]);
    }
  }

  lemma {:induction false} SubsequenceSnoc<T>(a: seq<T>, b: seq<T>, x: T)
    requires Subsequence(a, b)
    ensures Subsequence(a, b + [x]) && Subsequence(a + [x], b + [x])
    decreases |b|
  {
    if b == [] {
      assert a == [] && b + [x] == [x] && a + [x] == [x] && [x][1..] == [];
    } else {
      var tail := b[1..];
      assert (b + [x])[1..] == tail + [x] && (b + [x])[0] == b[0];
      if a != [] && a[0] == b[0] && Subsequence(a[1..], tail) {
        SubsequenceSnoc(a[1..], tail, x);
        assert (a + [x])[1..] == a[1..] + [x];
      } else {
        SubsequenceLater(a, b);
        SubsequenceSnoc(a, tail, x);
      }
    }
  }

  lemma SubsequenceLater<T>(a: seq<T>, b: seq<T>)
    requires Subsequence(a, b) && b != [] && !(a != [] && a[0] == b[0] && Subsequence(a[1..], b[1..]))
    ensures Subsequence(a, b[1..])
  {
  }

  lemma {:induction false} SubsequencePrepend<T>(x: seq<T>, a: seq<T>, b: seq<T>)
    requires Subsequence(a, b)
    ensures Subsequence(x + a, x + b)
  {
    if x == [] {
      assert x + a == a && x + b == b;
    } else {
      SubsequencePrepend(x[1..], a, b);
      SubsequenceKeep(x[1..] + a, x[0], x[1..] + b);
      assert [x[0]] + (x[1..] + a) == x + a && [x[0]] + (x[1..] + b) == x + b;
    }
  }

  lemma {:induction false} SubsequenceSuffix<T>(a: seq<T>, b: seq<T>)
    ensures Subsequence(b, a + b)
  {
    if a == [] {
      assert a + b == b;
      SubsequenceReflexive(b);
    } else {
      SubsequenceSuffix(a[1..], b);
      SubsequenceSkip(b, a[0], a[1..] + b);
      assert [a[0]] + (a[1..] + b) == a + b;
    }
  }

  lemma SubsequencePrefix<T>(a: seq<T>, b: seq<T>)
    ensures Subsequence(a, a + b)
  {
    SubsequencePrepend(a, [], b);
    assert a + [] == a;
  }

  lemma {:induction false} SubsequenceOne<T>(x: T, b: seq<T>)
    requires x in b
    ensures Subsequence([x], b)
  {
    if x != b[0] {
      SubsequenceOne(x, b[1..]);
    }
  }

  lemma {:induction false} SubsequenceAppend<T>(a: seq<T>, b: seq<T>, x: seq<T>)
    requires Subsequence(a, b)
    ensures Subsequence(a + x, b + x)
    decreases |x|
  {
    if x == [] {
      assert a + x == a && b + x == b;
    } else {
      SubsequenceSnoc(a, b, x[0]);
      SubsequenceAppend(a + [x[0]], b + [x[0]], x[1..]);
      assert a + [x[0]] + x[1..] == a + x && b + [x[0]] + x[1..] == b + x;
    }
  }
}
