/** Small building blocks shared by the whole model: options, the order Go uses on strings,
    least elements of finite sets, and upper bounds. */
module Base {
  datatype Option<+T> = None | Some(value: T)

  /** Go's `a < b` on strings: byte by byte, a proper prefix first. */
  predicate Before(a: string, b: string) {
    b != [] && (a == [] || a[0] < b[0] || (a[0] == b[0] && Before(a[1..], b[1..])))
  }

  /** The first difference decides; where there is none, the shorter string goes first. */
  lemma {:induction false} BeforeMeans(a: string, b: string)
    ensures Before(a, b) <==> exists n :: 0 <= n <= |a| && n < |b| && a[..n] == b[..n] && (n < |a| ==> a[n] < b[n])
  {
    if b != [] && a != [] && a[0] == b[0] {
      BeforeMeans(a[1..], b[1..]);
      if n :|
        && 0 <= n <= |a[1..]| && n < |b[1..]| && a[1..][..n] == b[1..][..n]
        && (n < |a[1..]| ==> a[1..][n] < b[1..][n]) {
        assert a[..n + 1] == [a[0]] + a[1..][..n] == b[..n + 1];
      }
      if n :| 0 <= n <= |a| && n < |b| && a[..n] == b[..n] && (n < |a| ==> a[n] < b[n]) {
        assert n > 0;
        assert a[1..][..n - 1] == a[..n][1..] == b[1..][..n - 1];
      }
    } else if b != [] {
      assert a[..0] == b[..0];
      if n :| 0 <= n <= |a| && n < |b| && a[..n] == b[..n] && (n < |a| ==> a[n] < b[n]) {
        if n > 0 { assert a[..n][0] == b[..n][0]; }
      }
    }
  }

  lemma {:induction false} BeforeTotal(a: string, b: string)
    ensures a == b || Before(a, b) || Before(b, a)
  {
    if a != [] && b != [] && a[0] == b[0] {
      BeforeTotal(a[1..], b[1..]);
      if a[1..] == b[1..] {
        assert a == [a[0]] + a[1..] == b;
      }
    }
  }

  lemma {:induction false} BeforeAsymmetric(a: string, b: string)
    requires Before(a, b)
    ensures !Before(b, a)
  {
    if a != [] && a[0] == b[0] {
      BeforeAsymmetric(a[1..], b[1..]);
    }
  }

  lemma {:induction false} BeforeTransitive(a: string, b: string, c: string)
    requires Before(a, b) && Before(b, c)
    ensures Before(a, c)
  {
    if a != [] && a[0] == b[0] == c[0] {
      BeforeTransitive(a[1..], b[1..], c[1..]);
    }
  }

  /** `less` decides every pair of distinct elements of `s`, one way only, and is transitive there. */
  ghost predicate Orders<T(!new)>(less: (T, T) -> bool, s: set<T>) {
    && (forall x, y :: x in s && y in s && x != y ==> less(x, y) || less(y, x))
    && (forall x, y :: x in s && y in s && less(x, y) ==> !less(y, x))
    && (forall x, y, z :: x in s && y in s && z in s && less(x, y) && less(y, z) ==> less(x, z))
  }

  ghost predicate IsLeast<T(!new)>(less: (T, T) -> bool, s: set<T>, x: T) {
    x in s && forall y :: y in s && y != x ==> less(x, y)
  }

  lemma {:induction false} LeastExists<T(!new)>(less: (T, T) -> bool, s: set<T>)
    requires s != {} && Orders(less, s)
    ensures exists x :: IsLeast(less, s, x)
    decreases s
  {
    var x :| x in s;
    if s == {x} {
      assert IsLeast(less, s, x);
    } else {
      LeastExists(less, s - {x});
      var y :| IsLeast(less, s - {x}, y);
      assert IsLeast(less, s, if less(x, y) then x else y);
    }
  }

  /** The entries of `m` with the given keys. */
  function Picked<K, V>(m: map<K, V>, ks: set<K>): map<K, V>
    requires ks <= m.Keys
  {
    map k | k in ks :: m[k]
  }

  /** A number no value of `m` reaches. */
  ghost function Above<K>(m: map<K, nat>): (n: nat)
    ensures forall k :: k in m ==> m[k] < n
    decreases m.Keys
  {
    if m.Keys == {} then 0
    else
      var k :| k in m.Keys;
      var n := Above(m - {k});
      assert forall x :: x in m ==> x == k || x in m - {k};
      if m[k] < n then n else m[k] + 1
  }
}
