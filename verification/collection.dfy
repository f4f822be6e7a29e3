/**
 * A MongoDB collection modelled as the sequence of its documents in natural
 * (insertion) order. Each function here is one driver call the handlers use:
 * `findOne` sees the first match, `find` keeps every match in order,
 * `updateOne`/`deleteOne` touch the first match, `updateMany` every match.
 */
module Collection {
  import opened Wrappers

  /** `findOne`: the index of the first document satisfying `p`. */
  function FindFirst<T>(docs: seq<T>, p: T -> bool): (r: Option<nat>)
    ensures r.Some? ==> r.value < |docs| && p(docs[r.value])
    ensures r.Some? ==> forall j :: 0 <= j < r.value ==> !p(docs[j])
    ensures r.None? <==> forall j :: 0 <= j < |docs| ==> !p(docs[j])
  {
    if |docs| == 0 then None
    else if p(docs[0]) then Some(0)
    else
      match FindFirst(docs[1..], p)
      case None => None
      case Some(k) => Some(k + 1)
  }

  /** `find(...).toArray()`: every document satisfying `p`, in order. */
  function Filter<T>(docs: seq<T>, p: T -> bool): (r: seq<T>)
    ensures |r| <= |docs|
    ensures forall i :: 0 <= i < |r| ==> p(r[i])
    ensures forall i :: 0 <= i < |r| ==> r[i] in docs
    ensures forall j :: 0 <= j < |docs| && p(docs[j]) ==> docs[j] in r
  {
    if |docs| == 0 then []
    else if p(docs[0]) then [docs[0]] + Filter(docs[1..], p)
    else Filter(docs[1..], p)
  }

  /** The number of documents satisfying `p` (a `matchedCount`). */
  function Count<T>(docs: seq<T>, p: T -> bool): (n: nat)
    ensures n <= |docs|
    ensures n == 0 <==> forall j :: 0 <= j < |docs| ==> !p(docs[j])
  {
    if |docs| == 0 then 0
    else (if p(docs[0]) then 1 else 0) + Count(docs[1..], p)
  }

  /** `updateMany`: apply `f` to every document satisfying `p`. */
  function UpdateAll<T>(docs: seq<T>, p: T -> bool, f: T -> T): (r: seq<T>)
    ensures |r| == |docs|
    ensures forall i :: 0 <= i < |docs| && p(docs[i]) ==> r[i] == f(docs[i])
    ensures forall i :: 0 <= i < |docs| && !p(docs[i]) ==> r[i] == docs[i]
  {
    seq(|docs|, i requires 0 <= i < |docs| => if p(docs[i]) then f(docs[i]) else docs[i])
  }

  /** `deleteOne` once the first match is known: drop the document at `i`. */
  function RemoveAt<T>(docs: seq<T>, i: nat): (r: seq<T>)
    requires i < |docs|
    ensures |r| == |docs| - 1
    ensures multiset(r) + multiset{docs[i]} == multiset(docs)
    ensures forall j :: 0 <= j < i ==> r[j] == docs[j]
    ensures forall j :: i <= j < |r| ==> r[j] == docs[j + 1]
  {
    assert docs == docs[..i] + [docs[i]] + docs[i + 1..];
    docs[..i] + docs[i + 1..]
  }

  /** `find` returns each stored document at most as often as it is stored. */
  lemma {:induction false} FilterSubMultiset<T>(docs: seq<T>, p: T -> bool)
    ensures multiset(Filter(docs, p)) <= multiset(docs)
  {
    if |docs| > 0 {
      FilterSubMultiset(docs[1..], p);
      assert docs == [docs[0]] + docs[1..];
    }
  }

  lemma {:induction false} FilterAppend<T>(a: seq<T>, b: seq<T>, p: T -> bool)
    ensures Filter(a + b, p) == Filter(a, p) + Filter(b, p)
  {
    if |a| == 0 {
      assert a + b == b;
    } else {
      assert (a + b)[1..] == a[1..] + b;
      FilterAppend(a[1..], b, p);
    }
  }

  /** `Count` agrees with the length of the matching documents. */
  lemma {:induction false} CountIsFilterLength<T>(docs: seq<T>, p: T -> bool)
    ensures Count(docs, p) == |Filter(docs, p)|
  {
    if |docs| > 0 {
      CountIsFilterLength(docs[1..], p);
    }
  }
}
