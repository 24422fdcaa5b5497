/** Object keys and the byte-wise order in which every listing is sorted. */
module Keys {

  type Key = string

  /** Go's `<` on strings: lexicographic, a proper prefix sorts first. */
  predicate Less(a: Key, b: Key)
  {
    |b| > 0 && (|a| == 0 || a[0] < b[0] || (a[0] == b[0] && Less(a[1..], b[1..])))
  }

  predicate AtMost(a: Key, b: Key) {
    a == b || Less(a, b)
  }

  /** One key is less than another exactly if, at the first place where they differ, it ends or has the smaller
      character. */
  lemma {:induction false} LessIff(a: Key, b: Key)
    ensures Less(a, b) <==>
            exists n: nat :: n <= |a| && n < |b| && a[..n] == b[..n] && (n < |a| ==> a[n] < b[n])
  {
    if |a| > 0 && |b| > 0 && a[0] == b[0] {
      LessIff(a[1..], b[1..]);
      if n: nat :| n <= |a| && n < |b| && a[..n] == b[..n] && (n < |a| ==> a[n] < b[n]) {
        assert n > 0 && a[..n][1..] == a[1..][..n - 1] && b[..n][1..] == b[1..][..n - 1];
      }
      var x, y := a[1..], b[1..];
      if n: nat :| n <= |x| && n < |y| && x[..n] == y[..n] && (n < |x| ==> x[n] < y[n]) {
        assert a[..n + 1] == [a[0]] + x[..n] && b[..n + 1] == [b[0]] + y[..n];
      }
    } else {
      if n: nat :| n <= |a| && n < |b| && a[..n] == b[..n] && (n < |a| ==> a[n] < b[n]) {
        SameStart(a, b, n);
      }
      if Less(a, b) { assert a[..0] == b[..0]; }
    }
  }

  lemma SameStart(a: Key, b: Key, n: nat)
    requires n <= |a| && n <= |b| && a[..n] == b[..n]
    ensures n > 0 ==> a[0] == b[0]
  {
    if n > 0 { assert a[..n][0] == b[..n][0]; }
  }

  lemma {:induction false} LessIrreflexive(a: Key)
    ensures !Less(a, a)
  {
    if |a| > 0 { LessIrreflexive(a[1..]); }
  }

  lemma {:induction false} LessTransitive(a: Key, b: Key, c: Key)
    requires Less(a, b) && Less(b, c)
    ensures Less(a, c)
  {
    if |a| > 0 && a[0] == b[0] == c[0] { LessTransitive(a[1..], b[1..], c[1..]); }
  }

  lemma {:induction false} LessTotal(a: Key, b: Key)
    ensures Less(a, b) || a == b || Less(b, a)
  {
    if |a| > 0 && |b| > 0 && a[0] == b[0] {
      LessTotal(a[1..], b[1..]);
      assert a == [a[0]] + a[1..] && b == [b[0]] + b[1..];
    }
  }

  lemma {:induction false} LessAsymmetric(a: Key, b: Key)
    requires Less(a, b)
    ensures !Less(b, a) && a != b
  {
    if Less(b, a) { LessTransitive(a, b, a); }
    LessIrreflexive(a);
  }

  /** A key sorts no earlier than any of its own prefixes. */
  lemma {:induction false} PrefixAtMost(p: Key, k: Key)
    requires p <= k
    ensures AtMost(p, k)
  {
    if |p| > 0 {
      assert p[1..] <= k[1..];
      PrefixAtMost(p[1..], k[1..]);
      assert p == [p[0]] + p[1..] && k == [k[0]] + k[1..];
    }
  }

  /** The keys that share a prefix are contiguous in the order. */
  lemma {:induction false} PrefixConvex(p: Key, a: Key, m: Key, b: Key)
    requires p <= a && p <= b && AtMost(a, m) && AtMost(m, b)
    ensures p <= m
  {
    if |p| > 0 {
      if a != m && m != b {
        assert a[0] == p[0] == b[0] && m[0] == p[0];
        assert p[1..] <= a[1..] && p[1..] <= b[1..];
        PrefixConvex(p[1..], a[1..], m[1..], b[1..]);
        assert p == [p[0]] + p[1..] && m == [m[0]] + m[1..];
      }
    }
  }

  /** Two keys on either side of a prefix block are ordered with the whole block. */
  lemma {:induction false} PrefixBlockBefore(p: Key, k: Key, q: Key)
    requires p <= k && Less(p, q) && !(p <= q)
    ensures Less(k, q)
  {
    if |p| > 0 {
      if p[0] == q[0] {
        assert p[1..] <= k[1..];
        PrefixBlockBefore(p[1..], k[1..], q[1..]);
      }
    }
  }
}
