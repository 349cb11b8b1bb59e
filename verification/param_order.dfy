/**
 * Python's `sorted(params.items())` for a dictionary of query parameters:
 * the pairs ordered by key, keys compared code point by code point. Since a
 * dictionary's keys are distinct, the result depends only on the pairs and
 * not on the order they were inserted in.
 */
module ParamOrder {
  /** Python's `a < b` on strings. */
  predicate StrLt(a: string, b: string)
    decreases |a|
  {
    if |a| == 0 then |b| > 0
    else if |b| == 0 then false
    else if a[0] == b[0] then StrLt(a[1..], b[1..])
    else a[0] < b[0]
  }

  lemma {:induction false} StrLtIrreflexive(a: string)
    ensures !StrLt(a, a)
    decreases |a|
  {
    if |a| > 0 {
      StrLtIrreflexive(a[1..]);
    }
  }

  lemma {:induction false} StrLtAsymmetric(a: string, b: string)
    requires StrLt(a, b)
    ensures !StrLt(b, a)
    decreases |a|
  {
    if |a| > 0 && |b| > 0 && a[0] == b[0] {
      StrLtAsymmetric(a[1..], b[1..]);
    }
  }

  lemma {:induction false} StrLtTransitive(a: string, b: string, c: string)
    requires StrLt(a, b) && StrLt(b, c)
    ensures StrLt(a, c)
    decreases |a|
  {
    if |a| > 0 && a[0] == b[0] && b[0] == c[0] {
      StrLtTransitive(a[1..], b[1..], c[1..]);
    }
  }

  lemma {:induction false} StrLtTotal(a: string, b: string)
    requires a != b
    ensures StrLt(a, b) || StrLt(b, a)
    decreases |a|
  {
    if |a| > 0 && |b| > 0 && a[0] == b[0] {
      assert a == [a[0]] + a[1..] && b == [b[0]] + b[1..];
      StrLtTotal(a[1..], b[1..]);
    }
  }

  /** A query-parameter value: the views pass strings and integers. */
  datatype Value = Text(s: string) | Number(n: int)

  type Param = (string, Value)

  /** No key occurs twice, as in a dictionary. */
  predicate DistinctKeys(ps: seq<Param>)
  {
    forall i, j :: 0 <= i < j < |ps| ==> ps[i].0 != ps[j].0
  }

  /** Keys strictly increasing. */
  predicate Ascending(ps: seq<Param>)
  {
    forall i, j :: 0 <= i < j < |ps| ==> StrLt(ps[i].0, ps[j].0)
  }

  /** Places `p` among the pairs of an ascending list whose keys differ from its own. */
  function Insert(p: Param, ps: seq<Param>): (r: seq<Param>)
    requires Ascending(ps)
    requires forall i :: 0 <= i < |ps| ==> ps[i].0 != p.0
    ensures multiset(r) == multiset(ps) + multiset{p}
    ensures Ascending(r)
  {
    if ps == [] then [p]
    else if StrLt(p.0, ps[0].0) then
      forall j | 0 < j < |ps| ensures StrLt(p.0, ps[j].0) {
        StrLtTransitive(p.0, ps[0].0, ps[j].0);
      }
      [p] + ps
    else
      StrLtTotal(p.0, ps[0].0);
      var rest := Insert(p, ps[1..]);
      assert ps == [ps[0]] + ps[1..];
      forall j | 0 <= j < |rest| ensures StrLt(ps[0].0, rest[j].0) {
        assert rest[j] in multiset(ps[1..]) + multiset{p};
        if rest[j] != p {
          assert rest[j] in ps[1..];
        }
      }
      [ps[0]] + rest
  }

  /** `sorted(params.items())` (insertion sort). */
  function Sort(ps: seq<Param>): (r: seq<Param>)
    requires DistinctKeys(ps)
    ensures multiset(r) == multiset(ps)
    ensures Ascending(r)
  {
    if ps == [] then []
    else
      var front := Sort(ps[..|ps| - 1]);
      var last := ps[|ps| - 1];
      forall i | 0 <= i < |front| ensures front[i].0 != last.0 {
        assert front[i] in multiset(ps[..|ps| - 1]);
      }
      assert ps == ps[..|ps| - 1] + [last];
      Insert(last, front)
  }

  /** Two ascending lists with the same pairs are the same list. */
  lemma {:induction false} AscendingUnique(xs: seq<Param>, ys: seq<Param>)
    requires Ascending(xs) && Ascending(ys)
    requires multiset(xs) == multiset(ys)
    ensures xs == ys
  {
    if xs != [] {
      assert xs[0] in multiset(ys);
      assert ys != [];
      assert ys[0] in multiset(xs);
      if xs[0] != ys[0] {
        var j :| 0 <= j < |ys| && ys[j] == xs[0];
        var i :| 0 <= i < |xs| && xs[i] == ys[0];
        assert j > 0 && i > 0;
        StrLtAsymmetric(ys[0].0, ys[j].0);
        assert false;
      }
      assert xs == [xs[0]] + xs[1..] && ys == [ys[0]] + ys[1..];
      assert multiset(xs) == multiset{xs[0]} + multiset(xs[1..]);
      assert multiset(ys) == multiset{ys[0]} + multiset(ys[1..]);
      assert multiset(xs[1..]) == multiset(xs) - multiset{xs[0]};
      AscendingUnique(xs[1..], ys[1..]);
    } else {
      assert |ys| == |multiset(ys)|;
    }
  }

  /** Sorting forgets the order the pairs were inserted in. */
  lemma SortOrderFree(ps: seq<Param>, qs: seq<Param>)
    requires DistinctKeys(ps) && DistinctKeys(qs)
    requires multiset(ps) == multiset(qs)
    ensures Sort(ps) == Sort(qs)
  {
    AscendingUnique(Sort(ps), Sort(qs));
  }
}
