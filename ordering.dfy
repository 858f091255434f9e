/** The collection operations the engines apply to the resolver list: `filter`
    and lodash's `orderBy(collection, priority, 'desc')`, a stable sort,
    highest priority first. Elements are resolvers' positions in the list, so
    the results say which resolvers are kept and which comes first. */
module Ordering {
  import opened Wrappers

  datatype Ranked = Ranked(priority: int, index: nat)

  /** Puts `x`, which came before every element of `ys`, in front of the first
      element whose priority does not exceed its own. */
  function Insert(x: Ranked, ys: seq<Ranked>): seq<Ranked>
  {
    if ys == [] || x.priority >= ys[0].priority then [x] + ys
    else [ys[0]] + Insert(x, ys[1..])
  }

  function OrderByPriority(xs: seq<Ranked>): seq<Ranked>
  {
    if xs == [] then [] else Insert(xs[0], OrderByPriority(xs[1..]))
  }

  predicate SortedDesc(r: seq<Ranked>)
  {
    forall i, j :: 0 <= i < j < |r| ==> r[i].priority >= r[j].priority
  }

  lemma {:induction false} InsertPermutes(x: Ranked, ys: seq<Ranked>)
    ensures multiset(Insert(x, ys)) == multiset{x} + multiset(ys)
  {
    if ys != [] && x.priority < ys[0].priority {
      InsertPermutes(x, ys[1..]);
      assert ys == [ys[0]] + ys[1..];
    }
  }

  /** The ordering is a permutation of its input. */
  lemma {:induction false} OrderByPriorityPermutes(xs: seq<Ranked>)
    ensures multiset(OrderByPriority(xs)) == multiset(xs)
  {
    if xs != [] {
      OrderByPriorityPermutes(xs[1..]);
      InsertPermutes(xs[0], OrderByPriority(xs[1..]));
      assert xs == [xs[0]] + xs[1..];
    }
  }

  lemma {:induction false} InsertSorted(x: Ranked, ys: seq<Ranked>)
    requires SortedDesc(ys)
    ensures SortedDesc(Insert(x, ys))
    ensures |Insert(x, ys)| == |ys| + 1
    ensures Insert(x, ys)[0] == (if ys == [] || x.priority >= ys[0].priority then x else ys[0])
  {
    if ys != [] && x.priority < ys[0].priority {
      InsertSorted(x, ys[1..]);
      var t := Insert(x, ys[1..]);
      forall z | z in t ensures z.priority <= ys[0].priority {
        InsertMember(x, ys[1..], z);
        if z in ys[1..] {
          var k :| 0 <= k < |ys[1..]| && ys[1..][k] == z;
          assert ys[1..][k] == ys[k + 1];
        }
      }
      SortedCons(ys[0], t);
    }
  }

  lemma SortedCons(h: Ranked, t: seq<Ranked>)
    requires SortedDesc(t) && forall z :: z in t ==> z.priority <= h.priority
    ensures SortedDesc([h] + t)
  {
    var r := [h] + t;
    forall i, j | 0 <= i < j < |r| ensures r[i].priority >= r[j].priority {
      assert r[j] == t[j - 1] && r[j] in t;
      if i > 0 {
        assert r[i] == t[i - 1];
      }
    }
  }

  /** The ordering puts higher priorities first. */
  lemma {:induction false} OrderByPrioritySorted(xs: seq<Ranked>)
    ensures SortedDesc(OrderByPriority(xs)) && |OrderByPriority(xs)| == |xs|
  {
    if xs != [] {
      OrderByPrioritySorted(xs[1..]);
      InsertSorted(xs[0], OrderByPriority(xs[1..]));
    }
  }

  /** Position of the first element of greatest priority. */
  function FirstMax(xs: seq<Ranked>): (k: nat)
    requires xs != []
    ensures k < |xs|
    ensures forall j :: 0 <= j < |xs| ==> xs[j].priority <= xs[k].priority
    ensures forall j :: 0 <= j < k ==> xs[j].priority < xs[k].priority
  {
    if |xs| == 1 then 0
    else
      var k := FirstMax(xs[1..]);
      assert forall j :: 1 <= j < |xs| ==> xs[j] == xs[1..][j - 1];
      if xs[0].priority >= xs[1 + k].priority then 0 else 1 + k
  }

  /** Stability where it matters: the first of the ordering is the earliest
      element among those of greatest priority. */
  lemma {:induction false} OrderByPriorityHead(xs: seq<Ranked>)
    requires xs != []
    ensures OrderByPriority(xs) != [] && OrderByPriority(xs)[0] == xs[FirstMax(xs)]
  {
    var rest := OrderByPriority(xs[1..]);
    OrderByPrioritySorted(xs[1..]);
    InsertSorted(xs[0], rest);
    if |xs| > 1 {
      OrderByPriorityHead(xs[1..]);
      assert xs[1..][FirstMax(xs[1..])] == xs[1 + FirstMax(xs[1..])];
    }
  }

  /** The index carried by the first element of the ordering: by stability, the
      earliest of the elements of greatest priority. */
  function Top(xs: seq<Ranked>): (k: nat)
    requires xs != []
    ensures k == xs[FirstMax(xs)].index
  {
    OrderByPriorityHead(xs);
    OrderByPriority(xs)[0].index
  }

  /** The positions `filter` keeps, in order. */
  function Positions(keep: seq<bool>): seq<nat>
    decreases |keep|
  {
    if keep == [] then []
    else
      var n := |keep| - 1;
      Positions(keep[..n]) + (if keep[n] then [n] else [])
  }

  predicate Increasing(ps: seq<nat>)
  {
    forall k, l :: 0 <= k < l < |ps| ==> ps[k] < ps[l]
  }

  /** `filter` keeps exactly the marked positions, in increasing order. */
  lemma {:induction false} PositionsSpec(keep: seq<bool>)
    ensures forall k :: 0 <= k < |Positions(keep)| ==> Positions(keep)[k] < |keep|
    ensures Increasing(Positions(keep))
    ensures forall i :: 0 <= i < |keep| ==> (i in Positions(keep) <==> keep[i])
    decreases |keep|
  {
    if keep != [] {
      var n := |keep| - 1;
      PositionsSpec(keep[..n]);
      assert forall i :: 0 <= i < n ==> keep[..n][i] == keep[i];
    }
  }

  /** The kept elements with their priorities: the collection `orderBy` sorts. */
  function Rank(priorities: seq<int>, ps: seq<nat>): seq<Ranked>
    requires forall k :: 0 <= k < |ps| ==> ps[k] < |priorities|
  {
    seq(|ps|, k requires 0 <= k < |ps| => Ranked(priorities[ps[k]], ps[k]))
  }

  /** The head of the ranking of increasing positions `ps`: a position of
      greatest priority, and no earlier position has as great a priority. */
  lemma RankTop(priorities: seq<int>, ps: seq<nat>)
    requires ps != [] && Increasing(ps)
    requires forall k :: 0 <= k < |ps| ==> ps[k] < |priorities|
    ensures var t := Top(Rank(priorities, ps));
      && t in ps
      && (forall k :: 0 <= k < |ps| ==> priorities[ps[k]] <= priorities[t])
      && (forall k :: 0 <= k < |ps| && ps[k] < t ==> priorities[ps[k]] < priorities[t])
  {
    var xs := Rank(priorities, ps);
    var m := FirstMax(xs);
    assert Top(xs) == ps[m];
    forall k | 0 <= k < |ps| && ps[k] < ps[m] ensures priorities[ps[k]] < priorities[ps[m]] {
      assert xs[k].priority == priorities[ps[k]];
    }
    forall k | 0 <= k < |ps| ensures priorities[ps[k]] <= priorities[ps[m]] {
      assert xs[k].priority == priorities[ps[k]];
    }
  }

  /** `_(xs).filter(keep).orderBy(priority, 'desc')[0]`, by position: a kept
      position of greatest priority among the kept ones, and the earliest
      such. There is one exactly when some position is kept. */
  lemma TopOfFilter(priorities: seq<int>, keep: seq<bool>)
    requires |keep| == |priorities|
    ensures PositionsBound(keep) && (Positions(keep) != [] <==> exists i :: 0 <= i < |keep| && keep[i])
    ensures Positions(keep) != [] ==>
      var t := Top(Rank(priorities, Positions(keep)));
      && t < |priorities| && keep[t]
      && (forall i :: 0 <= i < |priorities| && keep[i] ==> priorities[i] <= priorities[t])
      && (forall i :: 0 <= i < t && keep[i] ==> priorities[i] < priorities[t])
  {
    var ps := Positions(keep);
    PositionsSpec(keep);
    if exists i :: 0 <= i < |keep| && keep[i] {
      var i :| 0 <= i < |keep| && keep[i];
      assert i in ps;
    }
    if ps != [] {
      TopOfPositions(priorities, keep);
    }
  }

  lemma TopOfPositions(priorities: seq<int>, keep: seq<bool>)
    requires |keep| == |priorities| && Positions(keep) != []
    ensures PositionsBound(keep)
    ensures var t := Top(Rank(priorities, Positions(keep)));
      && t < |priorities| && keep[t]
      && (forall i :: 0 <= i < |priorities| && keep[i] ==> priorities[i] <= priorities[t])
      && (forall i :: 0 <= i < t && keep[i] ==> priorities[i] < priorities[t])
  {
    var ps := Positions(keep);
    PositionsSpec(keep);
    RankTop(priorities, ps);
    var t := Top(Rank(priorities, ps));
    forall i | 0 <= i < |priorities| && keep[i] ensures priorities[i] <= priorities[t] {
      var k :| 0 <= k < |ps| && ps[k] == i;
    }
    forall i | 0 <= i < t && keep[i] ensures priorities[i] < priorities[t] {
      var k :| 0 <= k < |ps| && ps[k] == i;
    }
  }

  predicate PositionsBound(keep: seq<bool>)
  {
    forall k :: 0 <= k < |Positions(keep)| ==> Positions(keep)[k] < |keep|
  }

  /** `filter` with a test that may throw, given each element's answer: the
      kept positions, or the failure of the first test that throws. */
  function FilterOrFail<E>(answers: seq<Result<bool, E>>): Result<seq<nat>, E>
    decreases |answers|
  {
    if answers == [] then Ok([])
    else
      var n := |answers| - 1;
      match FilterOrFail(answers[..n])
      case Err(e) => Err(e)
      case Ok(ps) =>
        match answers[n]
        case Err(e) => Err(e)
        case Ok(b) => Ok(if b then ps + [n] else ps)
  }

  /** The filter succeeds exactly when no test throws, and then keeps the
      positions answered `true`; otherwise it fails as the first test that
      throws. */
  lemma {:induction false} FilterOrFailSpec<E>(answers: seq<Result<bool, E>>)
    ensures FilterOrFail(answers).Ok? <==> forall i :: 0 <= i < |answers| ==> answers[i].Ok?
    ensures FilterOrFail(answers).Ok? ==>
      FilterOrFail(answers).value == Positions(seq(|answers|, i requires 0 <= i < |answers| => answers[i] == Ok(true)))
    ensures FilterOrFail(answers).Err? ==>
      exists i :: 0 <= i < |answers| && answers[i] == Err(FilterOrFail(answers).error)
        && forall j :: 0 <= j < i ==> answers[j].Ok?
    decreases |answers|
  {
    if answers != [] {
      var n := |answers| - 1;
      var front := answers[..n];
      FilterOrFailSpec(front);
      assert forall i :: 0 <= i < n ==> front[i] == answers[i];
      var keep := seq(|answers|, i requires 0 <= i < |answers| => answers[i] == Ok(true));
      var keep' := seq(|front|, i requires 0 <= i < |front| => front[i] == Ok(true));
      assert keep[..n] == keep';
    }
  }

  // ---------------------------------------------------------------------------
  // Ordering the whole list

  /** `a` comes before `b` in a stable descending sort of elements whose
      indices are their original positions. */
  predicate Before(a: Ranked, b: Ranked)
  {
    a.priority > b.priority || (a.priority == b.priority && a.index < b.index)
  }

  predicate Lex(r: seq<Ranked>)
  {
    forall i, j :: 0 <= i < j < |r| ==> Before(r[i], r[j])
  }

  lemma {:induction false} InsertMember(x: Ranked, ys: seq<Ranked>, z: Ranked)
    requires z in Insert(x, ys)
    ensures z == x || z in ys
  {
    InsertPermutes(x, ys);
    assert z in multiset(Insert(x, ys));
  }

  lemma {:induction false} InsertLex(x: Ranked, ys: seq<Ranked>)
    requires Lex(ys) && forall y :: y in ys ==> x.index < y.index
    ensures Lex(Insert(x, ys))
  {
    var r := Insert(x, ys);
    if ys == [] || x.priority >= ys[0].priority {
      forall i, j | 0 <= i < j < |r| ensures Before(r[i], r[j]) {
        if i == 0 {
          assert r[j] == ys[j - 1] && ys[j - 1] in ys;
          if j > 1 { assert Before(ys[0], ys[j - 1]); }
        } else {
          assert r[i] == ys[i - 1] && r[j] == ys[j - 1];
        }
      }
    } else {
      var t := Insert(x, ys[1..]);
      InsertLex(x, ys[1..]);
      assert r == [ys[0]] + t;
      forall i, j | 0 <= i < j < |r| ensures Before(r[i], r[j]) {
        if i == 0 {
          assert r[j] == t[j - 1] && t[j - 1] in t;
          InsertMember(x, ys[1..], t[j - 1]);
          if t[j - 1] != x {
            var k :| 0 <= k < |ys[1..]| && ys[1..][k] == t[j - 1];
            assert ys[1..][k] == ys[k + 1];
          }
        } else {
          assert r[i] == t[i - 1] && r[j] == t[j - 1];
        }
      }
    }
  }

  /** Sorting elements listed by increasing index keeps equal priorities in
      index order: the sort is stable. */
  lemma {:induction false} OrderByPriorityLex(xs: seq<Ranked>)
    requires forall i, j :: 0 <= i < j < |xs| ==> xs[i].index < xs[j].index
    ensures Lex(OrderByPriority(xs))
  {
    if xs != [] {
      var rest := OrderByPriority(xs[1..]);
      OrderByPriorityLex(xs[1..]);
      OrderByPriorityPermutes(xs[1..]);
      forall y | y in rest ensures xs[0].index < y.index {
        assert y in multiset(rest);
        var k :| 0 <= k < |xs[1..]| && xs[1..][k] == y;
        assert xs[1..][k] == xs[k + 1];
      }
      InsertLex(xs[0], rest);
    }
  }

  /** Position `i` comes before position `j` when sorting by `priorities`,
      highest first, keeping list order among equals. */
  predicate Precedes(priorities: seq<int>, i: nat, j: nat)
    requires i < |priorities| && j < |priorities|
  {
    priorities[i] > priorities[j] || (priorities[i] == priorities[j] && i < j)
  }

  function Indices(n: nat): seq<nat>
  {
    seq(n, k => k)
  }

  /** `_(list).orderBy(priority, ['desc'])`, by position. */
  function ByPriority(priorities: seq<int>): seq<nat>
  {
    var r := OrderByPriority(Rank(priorities, Indices(|priorities|)));
    seq(|r|, k requires 0 <= k < |r| => r[k].index)
  }

  /** Each element of the sorted ranking is a position with its own
      priority. */
  lemma SortedRanksFrom(priorities: seq<int>)
    ensures var r := OrderByPriority(Rank(priorities, Indices(|priorities|)));
      && |r| == |priorities|
      && forall k :: 0 <= k < |r| ==> r[k].index < |priorities| && r[k].priority == priorities[r[k].index]
  {
    var xs := Rank(priorities, Indices(|priorities|));
    var r := OrderByPriority(xs);
    OrderByPrioritySorted(xs);
    OrderByPriorityPermutes(xs);
    forall k | 0 <= k < |r| ensures r[k].index < |priorities| && r[k].priority == priorities[r[k].index] {
      assert r[k] in multiset(xs);
    }
  }

  /** Every position is in the sorted ranking. */
  lemma SortedRanksAll(priorities: seq<int>)
    ensures var r := OrderByPriority(Rank(priorities, Indices(|priorities|)));
      forall i :: 0 <= i < |priorities| ==> Ranked(priorities[i], i) in r
  {
    var xs := Rank(priorities, Indices(|priorities|));
    OrderByPriorityPermutes(xs);
    forall i | 0 <= i < |priorities| ensures Ranked(priorities[i], i) in OrderByPriority(xs) {
      assert xs[i] in multiset(xs);
    }
  }

  /** The sorted list holds every position once, highest priority first and
      in list order among equal priorities. */
  lemma ByPrioritySpec(priorities: seq<int>)
    ensures var o := ByPriority(priorities);
      && |o| == |priorities|
      && (forall k :: 0 <= k < |o| ==> o[k] < |priorities|)
      && (forall i :: 0 <= i < |priorities| ==> i in o)
      && (forall a, b :: 0 <= a < b < |o| ==> Precedes(priorities, o[a], o[b]))
  {
    var n := |priorities|;
    var xs := Rank(priorities, Indices(n));
    var r := OrderByPriority(xs);
    var o := ByPriority(priorities);
    SortedRanksFrom(priorities);
    SortedRanksAll(priorities);
    OrderByPriorityLex(xs);
    forall i | 0 <= i < n ensures i in o {
      var k :| 0 <= k < n && r[k] == Ranked(priorities[i], i);
      assert o[k] == i;
    }
    forall a, b | 0 <= a < b < n ensures Precedes(priorities, o[a], o[b]) {
      assert Before(r[a], r[b]);
    }
  }
}
