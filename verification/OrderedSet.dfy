/**
 The ordered container behind the timer queue: a `std::set` of (expiry, address) pairs,
 held as the strictly increasing sequence that iterating over it yields.
 */
module OrderedSet {

  datatype Entry = Entry(when: int, addr: nat)

  /** The lexicographic order of `std::pair`. */
  predicate Before(a: Entry, b: Entry) {
    a.when < b.when || (a.when == b.when && a.addr < b.addr)
  }

  ghost predicate Sorted(xs: seq<Entry>) {
    forall i, j :: 0 <= i < j < |xs| ==> Before(xs[i], xs[j])
  }

  /** The index of the first entry that is not before `e`. */
  function LowerBound(xs: seq<Entry>, e: Entry): (k: nat)
    requires Sorted(xs)
    ensures k <= |xs|
    ensures forall i :: 0 <= i < k ==> Before(xs[i], e)
    ensures forall i :: k <= i < |xs| ==> !Before(xs[i], e)
  {
    if xs == [] || !Before(xs[0], e) then 0 else 1 + LowerBound(xs[1..], e)
  }

  /**
   The index of the first entry that expires after `now`: `lower_bound` of a sentry that
   carries `now` and an address above every timer's.
   */
  function FirstAfter(xs: seq<Entry>, now: int): (k: nat)
    requires Sorted(xs)
    ensures k <= |xs|
    ensures forall i :: 0 <= i < k ==> xs[i].when <= now
    ensures forall i :: k <= i < |xs| ==> now < xs[i].when
  {
    if xs == [] || now < xs[0].when then 0 else 1 + FirstAfter(xs[1..], now)
  }

  lemma Member(a: seq<Entry>, e: Entry, b: seq<Entry>)
    ensures forall x :: x in a + [e] + b <==> x in a + b || x == e
  {
  }

  lemma Splice(a: seq<Entry>, e: Entry, b: seq<Entry>)
    requires Sorted(a + b)
    requires forall i :: 0 <= i < |a| ==> Before(a[i], e)
    requires forall i :: 0 <= i < |b| ==> Before(e, b[i])
    ensures Sorted(a + [e] + b)
  {
    var ys := a + [e] + b;
    forall i, j | 0 <= i < j < |ys| ensures Before(ys[i], ys[j]) {
      if i != |a| && j != |a| {
        var i', j' := if i < |a| then i else i - 1, if j < |a| then j else j - 1;
        assert (a + b)[i'] == ys[i] && (a + b)[j'] == ys[j];
      }
    }
  }

  /** An entry that is not in the set lies strictly between its neighbours there. */
  lemma Apart(xs: seq<Entry>, e: Entry)
    requires Sorted(xs) && e !in xs
    ensures forall i :: LowerBound(xs, e) <= i < |xs| ==> Before(e, xs[i])
  {
  }

  function Insert(xs: seq<Entry>, e: Entry): (ys: seq<Entry>)
    requires Sorted(xs) && e !in xs
    ensures Sorted(ys) && |ys| == |xs| + 1
    ensures forall x :: x in ys <==> x in xs || x == e
  {
    var k := LowerBound(xs, e);
    assert xs[..k] + xs[k..] == xs;
    Apart(xs, e);
    Splice(xs[..k], e, xs[k..]);
    Member(xs[..k], e, xs[k..]);
    xs[..k] + [e] + xs[k..]
  }

  function Erase(xs: seq<Entry>, e: Entry): (ys: seq<Entry>)
    requires Sorted(xs) && e in xs
    ensures Sorted(ys) && |ys| == |xs| - 1
    ensures forall x :: x in ys <==> x in xs && x != e
  {
    var k := LowerBound(xs, e);
    assert k < |xs| && xs[k] == e;
    assert xs == xs[..k] + [e] + xs[k + 1..];
    var ys := xs[..k] + xs[k + 1..];
    assert forall i :: 0 <= i < |ys| ==> ys[i] == xs[if i < k then i else i + 1];
    Member(xs[..k], e, xs[k + 1..]);
    ys
  }
}
