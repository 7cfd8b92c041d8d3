/** Filtering, and merging keyed lists. */
module Lists {
  import opened Outcomes

  function Filter<T(!new)>(s: seq<T>, keep: T -> bool): (r: seq<T>)
    ensures |r| <= |s|
    ensures forall x :: x in r <==> x in s && keep(x)
  {
    if s == [] then []
    else
      assert s == s[..|s| - 1] + [s[|s| - 1]];
      Filter(s[..|s| - 1], keep) + (if keep(s[|s| - 1]) then [s[|s| - 1]] else [])
  }

  lemma {:induction false} FilterAppend<T(!new)>(a: seq<T>, b: seq<T>, keep: T -> bool)
    ensures Filter(a + b, keep) == Filter(a, keep) + Filter(b, keep)
  {
    if b == [] {
      assert a + b == a;
    } else {
      var n := |b| - 1;
      var last := if keep(b[n]) then [b[n]] else [];
      FilterAppend(a, b[..n], keep);
      assert (a + b)[..|a + b| - 1] == a + b[..n] && (a + b)[|a + b| - 1] == b[n];
      assert Filter(a, keep) + Filter(b[..n], keep) + last == Filter(a, keep) + (Filter(b[..n], keep) + last);
    }
  }

  /** Position by position, what one list keeps the other keeps too. */
  lemma {:induction false} FilterAligned<T(!new)>(a: seq<T>, b: seq<T>, f: T -> bool, g: T -> bool)
    requires |a| == |b|
    requires forall i :: 0 <= i < |a| ==> f(a[i]) == g(b[i])
    requires forall i :: 0 <= i < |a| && f(a[i]) ==> a[i] == b[i]
    ensures Filter(a, f) == Filter(b, g)
  {
    if a != [] {
      var n := |a| - 1;
      FilterAligned(a[..n], b[..n], f, g);
    }
  }

  lemma {:induction false} FilterAll<T(!new)>(s: seq<T>, f: T -> bool)
    requires forall x :: x in s ==> f(x)
    ensures Filter(s, f) == s
  {
    if s != [] {
      assert s == s[..|s| - 1] + [s[|s| - 1]];
      FilterAll(s[..|s| - 1], f);
    }
  }

  lemma {:induction false} FilterNone<T(!new)>(s: seq<T>, f: T -> bool)
    requires forall x :: x in s ==> !f(x)
    ensures Filter(s, f) == []
  {
    if s != [] {
      assert s == s[..|s| - 1] + [s[|s| - 1]];
      FilterNone(s[..|s| - 1], f);
    }
  }

  lemma {:induction false} FilterTwice<T(!new)>(s: seq<T>, f: T -> bool, g: T -> bool, both: T -> bool)
    requires forall x :: x in s ==> both(x) == (f(x) && g(x))
    ensures Filter(Filter(s, f), g) == Filter(s, both)
  {
    if s != [] {
      var n := |s| - 1;
      assert s == s[..n] + [s[n]];
      FilterTwice(s[..n], f, g, both);
      FilterAppend(Filter(s[..n], f), if f(s[n]) then [s[n]] else [], g);
      assert [s[n]][..0] == [];
    }
  }

  /** When the first filter keeps a tail and the second drops everything before it, the tail is left. */
  lemma FilterToTail<T(!new)>(head: seq<T>, tail: seq<T>, f: T -> bool, g: T -> bool)
    requires forall x :: x in tail ==> f(x) && g(x)
    requires forall x :: x in head ==> !g(x)
    ensures Filter(Filter(head + tail, f), g) == tail
  {
    FilterAppend(head, tail, f);
    FilterAll(tail, f);
    FilterAppend(Filter(head, f), tail, g);
    FilterNone(Filter(head, f), g);
    FilterAll(tail, g);
  }

  // --- Keyed lists ------------------------------------------------------------------------------

  predicate HasKey<T>(s: seq<T>, key: T -> string, id: string) {
    exists i :: 0 <= i < |s| && key(s[i]) == id
  }

  predicate UniqueKeys<T>(s: seq<T>, key: T -> string) {
    forall i, j :: 0 <= i < j < |s| ==> key(s[i]) != key(s[j])
  }

  /** The first position with this key, or the length. */
  function Position<T>(s: seq<T>, key: T -> string, id: string): (p: nat)
    ensures p <= |s|
    ensures p < |s| ==> key(s[p]) == id
    ensures forall i :: 0 <= i < p ==> key(s[i]) != id
    ensures p < |s| <==> HasKey(s, key, id)
  {
    if s == [] || key(s[0]) == id then 0 else 1 + Position(s[1..], key, id)
  }

  function MergedWith<T>(x: T, news: seq<T>, key: T -> string, merge: (T, T) -> T): T {
    var p := Position(news, key, key(x));
    if p < |news| then merge(x, news[p]) else x
  }

  function Absent<T>(old_: seq<T>, key: T -> string): T -> bool {
    (x: T) => !HasKey(old_, key, key(x))
  }

  function Heads<T>(old_: seq<T>, news: seq<T>, key: T -> string, merge: (T, T) -> T): seq<T> {
    seq(|old_|, i requires 0 <= i < |old_| => MergedWith(old_[i], news, key, merge))
  }

  /** Every old item merged with the new one of its key, and then the new items of new keys. */
  function Upserted<T(!new)>(old_: seq<T>, news: seq<T>, key: T -> string, merge: (T, T) -> T): seq<T> {
    Heads(old_, news, key, merge) + Filter(news, Absent(old_, key))
  }

  ghost predicate KeepsKey<T(!new)>(key: T -> string, merge: (T, T) -> T) {
    forall x, y :: key(merge(x, y)) == key(x)
  }

  /** One new item at a time, replaced in place or pushed. */
  method UpsertAll<T(!new)>(old_: seq<T>, news: seq<T>, key: T -> string, merge: (T, T) -> T) returns (r: seq<T>)
    requires UniqueKeys(old_, key) && UniqueKeys(news, key) && KeepsKey(key, merge)
    ensures r == Upserted(old_, news, key, merge)
  {
    r := old_;
    NothingNew(old_, key, merge);
    for n := 0 to |news|
      invariant r == Upserted(old_, news[..n], key, merge)
    {
      NextKeyIsNew(news, key, n);
      UpsertStep(old_, news[..n], news[n], key, merge);
      r := UpsertOne(r, news[n], key, merge);
    }
    assert news[..|news|] == news;
  }

  function UpsertOne<T>(s: seq<T>, x: T, key: T -> string, merge: (T, T) -> T): seq<T> {
    var p := Position(s, key, key(x));
    if p < |s| then s[p := merge(s[p], x)] else s + [x]
  }

  lemma NextKeyIsNew<T>(news: seq<T>, key: T -> string, n: nat)
    requires UniqueKeys(news, key) && n < |news|
    ensures !HasKey(news[..n], key, key(news[n]))
    ensures news[..n + 1] == news[..n] + [news[n]]
  {
  }

  lemma UpsertedKeys<T(!new)>(old_: seq<T>, news: seq<T>, key: T -> string, merge: (T, T) -> T)
    requires KeepsKey(key, merge)
    ensures |Upserted(old_, news, key, merge)| >= |old_|
    ensures forall i :: 0 <= i < |old_| ==> key(Upserted(old_, news, key, merge)[i]) == key(old_[i])
    ensures Upserted(old_, news, key, merge)[|old_|..] == Filter(news, Absent(old_, key))
  {
  }

  lemma NothingNew<T(!new)>(old_: seq<T>, key: T -> string, merge: (T, T) -> T)
    ensures Upserted(old_, [], key, merge) == old_
  {
  }

  lemma UpsertPosition<T(!new)>(old_: seq<T>, news: seq<T>, x: T, key: T -> string, merge: (T, T) -> T)
    requires KeepsKey(key, merge) && !HasKey(news, key, key(x))
    ensures var r := Upserted(old_, news, key, merge); var p := Position(r, key, key(x));
      if p < |r| then p < |old_| && key(old_[p]) == key(x) else !HasKey(old_, key, key(x))
  {
    var r := Upserted(old_, news, key, merge);
    UpsertedKeys(old_, news, key, merge);
    forall i | |old_| <= i < |r|
      ensures key(r[i]) != key(x)
    {
      assert r[i] == r[|old_|..][i - |old_|];
      assert r[i] in Filter(news, Absent(old_, key));
    }
  }

  lemma UpsertStep<T(!new)>(old_: seq<T>, news: seq<T>, x: T, key: T -> string, merge: (T, T) -> T)
    requires UniqueKeys(old_, key) && KeepsKey(key, merge) && !HasKey(news, key, key(x))
    ensures Upserted(old_, news + [x], key, merge) == UpsertOne(Upserted(old_, news, key, merge), x, key, merge)
  {
    UpsertPosition(old_, news, x, key, merge);
    TailStep(old_, news, x, key);
    if HasKey(old_, key, key(x)) {
      UpsertInPlace(old_, news, x, key, merge);
    } else {
      HeadsSame(old_, news, x, key, merge);
    }
  }

  lemma UpsertInPlace<T(!new)>(old_: seq<T>, news: seq<T>, x: T, key: T -> string, merge: (T, T) -> T)
    requires UniqueKeys(old_, key) && !HasKey(news, key, key(x))
    requires Position(Upserted(old_, news, key, merge), key, key(x)) == Position(old_, key, key(x)) < |old_|
    requires Filter(news + [x], Absent(old_, key)) == Filter(news, Absent(old_, key))
    ensures Upserted(old_, news + [x], key, merge) == UpsertOne(Upserted(old_, news, key, merge), x, key, merge)
  {
    var p, heads := Position(old_, key, key(x)), Heads(old_, news, key, merge);
    HeadsAfter(old_, news, x, key, merge, p);
    UpdateFront(heads, Filter(news, Absent(old_, key)), p, merge(heads[p], x));
  }

  lemma UpdateFront<T>(a: seq<T>, b: seq<T>, p: nat, x: T)
    requires p < |a|
    ensures (a + b)[p] == a[p] && (a + b)[p := x] == a[p := x] + b
  {
  }

  lemma TailStep<T(!new)>(old_: seq<T>, news: seq<T>, x: T, key: T -> string)
    ensures Filter(news + [x], Absent(old_, key))
         == Filter(news, Absent(old_, key)) + (if HasKey(old_, key, key(x)) then [] else [x])
  {
    assert (news + [x])[..|news|] == news;
  }

  lemma HeadsAfter<T(!new)>(old_: seq<T>, news: seq<T>, x: T, key: T -> string, merge: (T, T) -> T, p: nat)
    requires UniqueKeys(old_, key) && !HasKey(news, key, key(x)) && p < |old_| && key(old_[p]) == key(x)
    ensures Heads(old_, news + [x], key, merge)
         == Heads(old_, news, key, merge)[p := merge(Heads(old_, news, key, merge)[p], x)]
  {
    HeadsStep(old_, news, x, key, merge);
  }

  lemma HeadsSame<T(!new)>(old_: seq<T>, news: seq<T>, x: T, key: T -> string, merge: (T, T) -> T)
    requires !HasKey(news, key, key(x)) && !HasKey(old_, key, key(x))
    ensures Heads(old_, news + [x], key, merge) == Heads(old_, news, key, merge)
  {
    HeadsStep(old_, news, x, key, merge);
  }

  lemma HeadsStep<T(!new)>(old_: seq<T>, news: seq<T>, x: T, key: T -> string, merge: (T, T) -> T)
    requires !HasKey(news, key, key(x))
    ensures forall i :: 0 <= i < |old_| ==>
      Heads(old_, news + [x], key, merge)[i]
        == if key(old_[i]) == key(x) then merge(old_[i], x) else Heads(old_, news, key, merge)[i]
    ensures forall i :: 0 <= i < |old_| && key(old_[i]) == key(x) ==> Heads(old_, news, key, merge)[i] == old_[i]
  {
    forall i | 0 <= i < |old_|
      ensures MergedWith(old_[i], news + [x], key, merge)
           == if key(old_[i]) == key(x) then merge(old_[i], x) else MergedWith(old_[i], news, key, merge)
      ensures key(old_[i]) == key(x) ==> MergedWith(old_[i], news, key, merge) == old_[i]
    {
      MergeStep(old_[i], news, x, key, merge);
    }
  }

  lemma MergeStep<T(!new)>(y: T, news: seq<T>, x: T, key: T -> string, merge: (T, T) -> T)
    requires !HasKey(news, key, key(x))
    ensures MergedWith(y, news + [x], key, merge)
         == if key(y) == key(x) then merge(y, x) else MergedWith(y, news, key, merge)
    ensures key(y) == key(x) ==> MergedWith(y, news, key, merge) == y
  {
    var p, q := Position(news, key, key(y)), Position(news + [x], key, key(y));
    assert (news + [x])[|news|] == x;
    assert forall i :: 0 <= i < |news| ==> (news + [x])[i] == news[i];
  }

  // --- What a merge holds -----------------------------------------------------------------------

  lemma {:induction false} FilterIsUnique<T(!new)>(s: seq<T>, key: T -> string, f: T -> bool)
    requires UniqueKeys(s, key)
    ensures UniqueKeys(Filter(s, f), key)
  {
    if s != [] {
      var n := |s| - 1;
      FilterIsUnique(s[..n], key, f);
      forall x | x in Filter(s[..n], f)
        ensures key(x) != key(s[n])
      {
        var i :| 0 <= i < n && s[..n][i] == x;
      }
    }
  }

  lemma MemberHasKey<T>(s: seq<T>, key: T -> string, x: T)
    requires x in s
    ensures HasKey(s, key, key(x))
  {
    var i :| 0 <= i < |s| && s[i] == x;
  }

  lemma UniqueItem<T>(s: seq<T>, key: T -> string, x: T)
    requires UniqueKeys(s, key) && x in s
    ensures Position(s, key, key(x)) < |s| && s[Position(s, key, key(x))] == x
  {
    var i :| 0 <= i < |s| && s[i] == x;
    assert HasKey(s, key, key(x));
  }

  lemma UpsertedHead<T(!new)>(old_: seq<T>, news: seq<T>, key: T -> string, merge: (T, T) -> T, i: nat)
    requires UniqueKeys(news, key) && i < |old_|
    ensures var r := Upserted(old_, news, key, merge)[i];
      && (!HasKey(news, key, key(old_[i])) ==> r == old_[i])
      && (forall x :: x in news && key(x) == key(old_[i]) ==> r == merge(old_[i], x))
  {
    forall x | x in news && key(x) == key(old_[i])
      ensures MergedWith(old_[i], news, key, merge) == merge(old_[i], x)
    {
      UniqueItem(news, key, x);
    }
  }

  lemma UpsertedTail<T(!new)>(old_: seq<T>, news: seq<T>, key: T -> string, merge: (T, T) -> T)
    requires KeepsKey(key, merge)
    ensures var r := Upserted(old_, news, key, merge);
      && |r| >= |old_|
      && (forall i :: |old_| <= i < |r| ==> r[i] in news && !HasKey(old_, key, key(r[i])))
      && (forall x :: x in news && !HasKey(old_, key, key(x)) ==> x in r)
  {
    var r, tail := Upserted(old_, news, key, merge), Filter(news, Absent(old_, key));
    assert forall i :: |old_| <= i < |r| ==> r[i] == tail[i - |old_|] && r[i] in tail;
    assert forall x :: x in tail ==> x in r;
  }

  lemma UpsertedUnique<T(!new)>(old_: seq<T>, news: seq<T>, key: T -> string, merge: (T, T) -> T)
    requires UniqueKeys(old_, key) && UniqueKeys(news, key) && KeepsKey(key, merge)
    ensures UniqueKeys(Upserted(old_, news, key, merge), key)
  {
    var r, tail := Upserted(old_, news, key, merge), Filter(news, Absent(old_, key));
    FilterIsUnique(news, key, Absent(old_, key));
    UpsertedKeys(old_, news, key, merge);
    UpsertedTail(old_, news, key, merge);
    assert forall i :: |old_| <= i < |r| ==> r[i] == tail[i - |old_|];
    assert forall i :: 0 <= i < |old_| ==> HasKey(old_, key, key(r[i]));
  }

  lemma UpsertedHas<T(!new)>(old_: seq<T>, news: seq<T>, key: T -> string, merge: (T, T) -> T, id: string)
    requires KeepsKey(key, merge)
    ensures HasKey(Upserted(old_, news, key, merge), key, id) <==> HasKey(old_, key, id) || HasKey(news, key, id)
  {
    var r := Upserted(old_, news, key, merge);
    UpsertedKeys(old_, news, key, merge);
    UpsertedTail(old_, news, key, merge);
    if HasKey(old_, key, id) {
      var i :| 0 <= i < |old_| && key(old_[i]) == id;
      assert key(r[i]) == id;
    } else if HasKey(news, key, id) {
      var i :| 0 <= i < |news| && key(news[i]) == id;
      assert news[i] in r;
      var j :| 0 <= j < |r| && r[j] == news[i];
      assert key(r[j]) == id;
    }
  }
}
