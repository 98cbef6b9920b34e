/** Small vocabulary shared by every component. */
module Basics {

  datatype Option<+T> = None | Some(value: T)

  function Max(a: nat, b: nat): (m: nat)
    ensures a <= m && b <= m && (m == a || m == b)
  {
    if a < b then b else a
  }

  function Min(a: nat, b: nat): (m: nat)
    ensures m <= a && m <= b && (m == a || m == b)
  {
    if a < b then a else b
  }

  /** `a` sorts before `b`, character by character. */
  predicate Precedes(a: string, b: string) {
    b != "" && (a == "" || a[0] < b[0] || (a[0] == b[0] && Precedes(a[1..], b[1..])))
  }

  lemma {:induction false} PrecedesIsTransitive(a: string, b: string, c: string)
    requires Precedes(a, b) && Precedes(b, c)
    ensures Precedes(a, c)
  {
    if a != "" && a[0] == b[0] == c[0] {
      PrecedesIsTransitive(a[1..], b[1..], c[1..]);
    }
  }

  lemma {:induction false} PrecedesIsIrreflexive(a: string)
    ensures !Precedes(a, a)
  {
    if a != "" {
      PrecedesIsIrreflexive(a[1..]);
    }
  }

  /** Every value of the map, changed by `f` under its key. */
  ghost function Mapped<K, V, W>(m: map<K, V>, f: V -> W): (r: map<K, W>)
    ensures r.Keys == m.Keys && forall k | k in m :: r[k] == f(m[k])
    decreases |m|
  {
    if m == map[] then map[]
    else
      var k :| k in m;
      Mapped(m - {k}, f)[k := f(m[k])]
  }
}
