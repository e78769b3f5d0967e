/** The list transforms the handlers apply to component state after a write
    succeeds: `map` replace-by-id, `filter` remove-by-id, `find`, and the
    comparator sorts done at load and render time. */
module Lists {
  import opened Wrappers
  import opened Records

  /** `xs.filter(keep)` */
  function Filter<T(!new)>(xs: seq<T>, keep: T -> bool): (r: seq<T>)
    ensures |r| <= |xs|
    ensures forall x :: multiset(r)[x] == if keep(x) then multiset(xs)[x] else 0
    ensures forall x :: x in r <==> x in xs && keep(x)
  {
    if xs == [] then []
    else
      assert xs == [xs[0]] + xs[1..];
      if keep(xs[0]) then [xs[0]] + Filter(xs[1..], keep)
    else Filter(xs[1..], keep)
  }

  /** `a` is `b` with some elements left out, the rest in their order. */
  predicate IsSubsequence<T(==)>(a: seq<T>, b: seq<T>)
    decreases |b|
  {
    a == [] || (b != [] && if a[0] == b[0] then IsSubsequence(a[1..], b[1..]) else IsSubsequence(a, b[1..]))
  }

  lemma {:induction false} FilterKeepsOrder<T(!new)>(xs: seq<T>, keep: T -> bool)
    ensures IsSubsequence(Filter(xs, keep), xs)
  {
    if xs != [] {
      FilterKeepsOrder(xs[1..], keep);
      if keep(xs[0]) {
        assert ([xs[0]] + Filter(xs[1..], keep))[1..] == Filter(xs[1..], keep);
      } else {
        SubsequenceSkip(Filter(xs[1..], keep), xs);
      }
    }
  }

  lemma {:induction false} SubsequenceSkip<T>(a: seq<T>, b: seq<T>)
    requires b != [] && IsSubsequence(a, b[1..])
    ensures IsSubsequence(a, b)
    decreases |b|, 0
  {
    if a != [] && a[0] == b[0] {
      SubsequenceTail(a, b[1..]);
    }
  }

  lemma {:induction false} SubsequenceTail<T>(a: seq<T>, c: seq<T>)
    requires a != [] && IsSubsequence(a, c)
    ensures IsSubsequence(a[1..], c)
    decreases |c|, 1
  {
    if a[0] == c[0] {
      SubsequenceSkip(a[1..], c);
    } else {
      SubsequenceTail(a, c[1..]);
      SubsequenceSkip(a[1..], c);
    }
  }

  /** Two filters in a row are one filter by the conjunction. */
  lemma {:induction false} FilterFilter<T(!new)>(xs: seq<T>, p: T -> bool, q: T -> bool, both: T -> bool)
    requires forall x :: both(x) == (p(x) && q(x))
    ensures Filter(Filter(xs, p), q) == Filter(xs, both)
  {
    if xs != [] {
      FilterFilter(xs[1..], p, q, both);
    }
  }

  lemma {:induction false} FilterAll<T(!new)>(xs: seq<T>, keep: T -> bool)
    requires forall x :: x in xs ==> keep(x)
    ensures Filter(xs, keep) == xs
  {
    if xs != [] {
      FilterAll(xs[1..], keep);
    }
  }

  /** `xs.find(p)` */
  function Find<T>(xs: seq<T>, p: T -> bool): Option<T> {
    if xs == [] then None
    else if p(xs[0]) then Some(xs[0])
    else Find(xs[1..], p)
  }

  /** `find` answers the first element satisfying `p`, and only fails when
      there is none. */
  lemma {:induction false} FindFirst<T>(xs: seq<T>, p: T -> bool)
    ensures Find(xs, p).Some? <==> exists i :: 0 <= i < |xs| && p(xs[i])
    ensures Find(xs, p).Some? ==> exists i :: 0 <= i < |xs| && xs[i] == Find(xs, p).value && p(xs[i])
                                             && forall j :: 0 <= j < i ==> !p(xs[j])
  {
    if xs != [] && !p(xs[0]) {
      FindFirst(xs[1..], p);
      if Find(xs[1..], p).Some? {
        var i :| 0 <= i < |xs| - 1 && xs[1..][i] == Find(xs, p).value && p(xs[1..][i])
                 && forall j :: 0 <= j < i ==> !p(xs[1..][j]);
        assert xs[i + 1] == Find(xs, p).value;
      }
      assert (exists i :: 0 <= i < |xs| && p(xs[i])) ==> exists i :: 0 <= i < |xs| - 1 && p(xs[1..][i]);
    }
  }

  /** `xs.map(d => d.id === id ? { ...d, ...patch } : d)`: the field-level
      update of every record carrying `id`. */
  function Merge(xs: seq<Doc>, id: string, patch: Fields): (r: seq<Doc>)
    ensures |r| == |xs|
    ensures forall i :: 0 <= i < |xs| ==> r[i].id == xs[i].id
    ensures forall i :: 0 <= i < |xs| && xs[i].id != id ==> r[i] == xs[i]
    ensures forall i :: 0 <= i < |xs| && xs[i].id == id ==> r[i].fields == xs[i].fields + patch
  {
    if xs == [] then []
    else [if xs[0].id == id then Doc(id, xs[0].fields + patch) else xs[0]] + Merge(xs[1..], id, patch)
  }

  /** Applying the same field update twice is applying it once. */
  lemma {:induction false} MergeIdempotent(xs: seq<Doc>, id: string, patch: Fields)
    ensures Merge(Merge(xs, id, patch), id, patch) == Merge(xs, id, patch)
  {
    if xs != [] {
      MergeIdempotent(xs[1..], id, patch);
      assert Merge(xs, id, patch)[1..] == Merge(xs[1..], id, patch);
      if xs[0].id == id {
        assert xs[0].fields + patch + patch == xs[0].fields + patch;
      }
    }
  }

  /** `xs.map(d => d.id === id ? { ...d, [key]: (d[key] || 0) + 1 } : d)` */
  function BumpCounter(xs: seq<Doc>, id: string, key: string): (r: seq<Doc>)
    ensures |r| == |xs|
    ensures forall i :: 0 <= i < |xs| ==> r[i].id == xs[i].id
    ensures forall i :: 0 <= i < |xs| && xs[i].id != id ==> r[i] == xs[i]
    ensures forall i :: 0 <= i < |xs| && xs[i].id == id ==>
              CounterOf(r[i].fields, key) == CounterOf(xs[i].fields, key) + 1
              && r[i].fields.Keys == xs[i].fields.Keys + {key}
              && forall k :: k in xs[i].fields && k != key ==> r[i].fields[k] == xs[i].fields[k]
  {
    if xs == [] then []
    else
      var d := xs[0];
      [if d.id == id then Doc(id, d.fields[key := Num(CounterOf(d.fields, key) + 1)]) else d]
      + BumpCounter(xs[1..], id, key)
  }

  /** `xs.filter(d => d.id !== id)` */
  function RemoveById(xs: seq<Doc>, id: string): (r: seq<Doc>)
    ensures forall d :: d in r <==> d in xs && d.id != id
    ensures IsSubsequence(r, xs)
    ensures forall d: Doc :: d.id != id ==> multiset(r)[d] == multiset(xs)[d]
  {
    FilterKeepsOrder(xs, (d: Doc) => d.id != id);
    Filter(xs, (d: Doc) => d.id != id)
  }

  lemma RemoveByIdIdempotent(xs: seq<Doc>, id: string)
    ensures RemoveById(RemoveById(xs, id), id) == RemoveById(xs, id)
  {
    FilterAll(RemoveById(xs, id), (d: Doc) => d.id != id);
  }

  ghost predicate SortedBy<T>(xs: seq<T>, le: (T, T) -> bool) {
    forall i, j :: 0 <= i < j < |xs| ==> le(xs[i], xs[j])
  }

  ghost predicate TotalPreorder<T(!new)>(le: (T, T) -> bool) {
    (forall a, b :: le(a, b) || le(b, a))
    && (forall a, b, c :: le(a, b) && le(b, c) ==> le(a, c))
  }

  /** Inserts `x` before the first element it is `le` to. */
  function InsertBy<T>(x: T, xs: seq<T>, le: (T, T) -> bool): (r: seq<T>)
    ensures multiset(r) == multiset(xs) + multiset{x}
  {
    if xs == [] then [x]
    else if le(x, xs[0]) then [x] + xs
    else
      assert xs == [xs[0]] + xs[1..];
      [xs[0]] + InsertBy(x, xs[1..], le)
  }

  lemma {:induction false} InsertBySorted<T(!new)>(x: T, xs: seq<T>, le: (T, T) -> bool)
    requires TotalPreorder(le) && SortedBy(xs, le)
    ensures SortedBy(InsertBy(x, xs, le), le)
  {
    if xs != [] && !le(x, xs[0]) {
      InsertBySorted(x, xs[1..], le);
      var r := InsertBy(x, xs[1..], le);
      assert le(xs[0], x);
      forall y | y in r ensures le(xs[0], y) {
        assert y in multiset(r);
        if y != x { assert y in xs[1..]; }
      }
    }
  }

  /** `xs.sort(cmp)` for a comparator whose "not after" relation is `le`. */
  function SortBy<T>(xs: seq<T>, le: (T, T) -> bool): (r: seq<T>)
    ensures multiset(r) == multiset(xs) && |r| == |xs|
  {
    if xs == [] then []
    else
      assert xs == [xs[0]] + xs[1..];
      InsertBy(xs[0], SortBy(xs[1..], le), le)
  }

  /** For a total preorder the sort really sorts. */
  lemma {:induction false} SortBySorted<T(!new)>(xs: seq<T>, le: (T, T) -> bool)
    requires TotalPreorder(le)
    ensures SortedBy(SortBy(xs, le), le)
  {
    if xs != [] {
      SortBySorted(xs[1..], le);
      InsertBySorted(xs[0], SortBy(xs[1..], le), le);
    }
  }
}
