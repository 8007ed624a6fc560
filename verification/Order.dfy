/** Sorting texts: lexicographic order over any strict total order, and the
    least element of a set of texts. */
module Order {

  ghost predicate StrictTotal<T(!new)>(less: (T, T) -> bool) {
    && (forall a, b :: less(a, b) ==> a != b && !less(b, a))
    && (forall a, b :: a != b ==> less(a, b) || less(b, a))
    && (forall a, b, c :: less(a, b) && less(b, c) ==> less(a, c))
  }

  predicate Below<T(==)>(less: (T, T) -> bool, a: seq<T>, b: seq<T>) {
    b != [] && (a == [] || less(a[0], b[0]) || (a[0] == b[0] && Below(less, a[1..], b[1..])))
  }

  lemma {:induction false} BelowIsTotal<T(!new)>(less: (T, T) -> bool, a: seq<T>, b: seq<T>)
    requires StrictTotal(less)
    ensures a == b || Below(less, a, b) || Below(less, b, a)
    ensures !(Below(less, a, b) && Below(less, b, a)) && !Below(less, a, a)
  {
    if a != [] && b != [] && a[0] == b[0] {
      BelowIsTotal(less, a[1..], b[1..]);
      assert a == [a[0]] + a[1..] && b == [b[0]] + b[1..];
    }
    if a != [] { BelowIsTotal(less, a[1..], a[1..]); }
  }

  lemma {:induction false} BelowTransitive<T(!new)>(less: (T, T) -> bool, a: seq<T>, b: seq<T>, c: seq<T>)
    requires StrictTotal(less) && Below(less, a, b) && Below(less, b, c)
    ensures Below(less, a, c)
  {
    if a != [] && a[0] == b[0] == c[0] { BelowTransitive(less, a[1..], b[1..], c[1..]); }
  }

  predicate IsLeast<T(==)>(less: (T, T) -> bool, n: seq<T>, names: set<seq<T>>) {
    n in names && forall m :: m in names && m != n ==> Below(less, n, m)
  }

  lemma LeastUnique<T(!new)>(less: (T, T) -> bool, a: seq<T>, b: seq<T>, names: set<seq<T>>)
    requires StrictTotal(less) && IsLeast(less, a, names) && IsLeast(less, b, names)
    ensures a == b
  {
    BelowIsTotal(less, a, b);
  }

  /** A loop over the set that keeps the least text seen so far. */
  method PickLeast<T(!new, ==)>(less: (T, T) -> bool, names: set<seq<T>>) returns (least: seq<T>)
    requires StrictTotal(less) && names != {}
    ensures IsLeast(less, least, names)
  {
    least :| least in names;
    var pending := names - {least};
    while pending != {}
      invariant pending <= names && least in names - pending
      invariant forall m :: m in names - pending && m != least ==> Below(less, least, m)
    {
      var n :| n in pending;
      BelowIsTotal(less, n, least);
      if Below(less, n, least) {
        forall m | m in names - pending && m != n ensures Below(less, n, m) {
          if m != least { BelowTransitive(less, n, least, m); }
        }
        least := n;
      }
      pending := pending - {n};
    }
  }

  lemma {:induction false} LeastExists<T(!new)>(less: (T, T) -> bool, names: set<seq<T>>)
    requires StrictTotal(less) && names != {}
    ensures exists n :: IsLeast(less, n, names)
    decreases |names|
  {
    var m :| m in names;
    var rest := names - {m};
    assert names == rest + {m};
    if rest == {} {
      assert IsLeast(less, m, names);
    } else {
      LeastExists(less, rest);
      var n :| IsLeast(less, n, rest);
      BelowIsTotal(less, m, n);
      if Below(less, m, n) {
        forall k | k in names && k != m ensures Below(less, m, k) {
          if k != n { BelowTransitive(less, m, n, k); }
        }
        assert IsLeast(less, m, names);
      } else {
        assert IsLeast(less, n, names);
      }
    }
  }

  ghost function Least<T(!new)>(less: (T, T) -> bool, names: set<seq<T>>): (n: seq<T>)
    requires StrictTotal(less) && names != {}
    ensures IsLeast(less, n, names)
  {
    LeastExists(less, names);
    var n :| IsLeast(less, n, names);
    n
  }
}
