/** The TTL index: a tree of byte-string keys with a write time per key.

    The B-tree is its items in ascending key order.  Times of items are Unix seconds. */
module TtlTree {
  import opened Basics
  import opened Runs

  type Key = seq<Byte>

  datatype Item = Item(key: Key, value: seq<Byte>, stamp: int)

  /** bytes.Compare(a, b) < 0. */
  predicate Before(a: Key, b: Key) {
    b != [] && (a == [] || a[0] < b[0] || (a[0] == b[0] && Before(a[1..], b[1..])))
  }

  /** The first place where the keys differ, and where `a` has the smaller byte. */
  predicate SmallerAt(a: Key, b: Key, i: nat) {
    i < |a| && i < |b| && a[..i] == b[..i] && a[i] < b[i]
  }

  /** The order is that of the bytes: a proper prefix comes first, otherwise the first different
      byte decides. */
  lemma {:induction false} BeforeIsLexicographic(a: Key, b: Key)
    ensures Before(a, b) <==> a != b && (a <= b || exists i: nat :: SmallerAt(a, b, i))
  {
    if a == [] || b == [] {
    } else if a[0] == b[0] {
      BeforeIsLexicographic(a[1..], b[1..]);
      assert a == [a[0]] + a[1..] && b == [b[0]] + b[1..];
      if i: nat :| SmallerAt(a[1..], b[1..], i) {
        SmallerLater(a, b, i);
      }
      if i: nat :| SmallerAt(a, b, i) {
        assert SmallerAt(a[1..], b[1..], i - 1);
      }
    } else if a[0] < b[0] {
      assert SmallerAt(a, b, 0);
    } else {
      forall i: nat ensures !SmallerAt(a, b, i) {
        if 0 < i && i < |a| && i < |b| {
          assert a[..i][0] == a[0] && b[..i][0] == b[0];
        }
      }
    }
  }

  lemma SmallerLater(a: Key, b: Key, i: nat)
    requires a != [] && b != [] && a[0] == b[0] && SmallerAt(a[1..], b[1..], i)
    ensures SmallerAt(a, b, i + 1)
  {
    assert a[..i + 1] == [a[0]] + a[1..][..i];
    assert b[..i + 1] == [b[0]] + b[1..][..i];
  }

  lemma {:induction false} BeforeTransitive(a: Key, b: Key, c: Key)
    requires Before(a, b) && Before(b, c)
    ensures Before(a, c)
  {
    if a != [] && a[0] == b[0] == c[0] {
      BeforeTransitive(a[1..], b[1..], c[1..]);
    }
  }

  lemma {:induction false} BeforeIrreflexive(a: Key)
    ensures !Before(a, a)
  {
    if a == [] {
    } else {
      BeforeIrreflexive(a[1..]);
    }
  }

  lemma {:induction false} BeforeTotal(a: Key, b: Key)
    ensures Before(a, b) || a == b || Before(b, a)
  {
    if a != [] && b != [] && a[0] == b[0] {
      BeforeTotal(a[1..], b[1..]);
      assert a == [a[0]] + a[1..] && b == [b[0]] + b[1..];
    }
  }

  // ---- the tree ------------------------------------------------------------------------------

  ghost predicate Ascending(t: seq<Item>) {
    forall i, j :: 0 <= i < j < |t| ==> Before(t[i].key, t[j].key)
  }

  ghost predicate WellFormed(t: seq<Item>) {
    Ascending(t) && forall i :: 0 <= i < |t| ==> t[i].key != []
  }

  function Find(t: seq<Item>, k: Key): Option<Item> {
    if t == [] then None else if t[0].key == k then Some(t[0]) else Find(t[1..], k)
  }

  /** ReplaceOrInsert. */
  function Put(t: seq<Item>, x: Item): seq<Item> {
    if t == [] || Before(x.key, t[0].key) then [x] + t
    else if x.key == t[0].key then [x] + t[1..]
    else [t[0]] + Put(t[1..], x)
  }

  function Remove(t: seq<Item>, k: Key): seq<Item> {
    if t == [] then [] else if t[0].key == k then t[1..] else [t[0]] + Remove(t[1..], k)
  }

  lemma {:induction false} PutMembers(t: seq<Item>, x: Item, y: Item)
    ensures y in Put(t, x) ==> y == x || y in t
  {
    if t == [] || Before(x.key, t[0].key) || x.key == t[0].key {
    } else {
      PutMembers(t[1..], x, y);
    }
  }

  lemma {:induction false} PutWellFormed(t: seq<Item>, x: Item)
    requires WellFormed(t) && x.key != []
    ensures WellFormed(Put(t, x))
  {
    if t == [] {
    } else if Before(x.key, t[0].key) {
      forall j | 0 <= j < |t| ensures Before(x.key, t[j].key) {
        if j > 0 {
          BeforeTransitive(x.key, t[0].key, t[j].key);
        }
      }
    } else if x.key == t[0].key {
    } else {
      BeforeTotal(x.key, t[0].key);
      PutWellFormed(t[1..], x);
      var rest := Put(t[1..], x);
      forall j | 0 <= j < |rest| ensures Before(t[0].key, rest[j].key) {
        PutMembers(t[1..], x, rest[j]);
      }
    }
  }

  lemma {:induction false} FindAbsent(t: seq<Item>, k: Key)
    requires forall i :: 0 <= i < |t| ==> t[i].key != k
    ensures Find(t, k) == None
  {
    if t == [] {
    } else {
      FindAbsent(t[1..], k);
    }
  }

  /** Nothing in an ascending tree precedes its first key, or repeats it. */
  lemma NotBelow(t: seq<Item>, k: Key)
    requires Ascending(t) && t != [] && Before(k, t[0].key)
    ensures Find(t, k) == None
  {
    forall i | 0 <= i < |t| ensures t[i].key != k {
      if i > 0 {
        BeforeTransitive(k, t[0].key, t[i].key);
      }
      BeforeIrreflexive(k);
    }
    FindAbsent(t, k);
  }

  lemma HeadIsOnly(t: seq<Item>)
    requires Ascending(t) && t != []
    ensures Find(t[1..], t[0].key) == None
    ensures forall x :: x in t[1..] ==> x.key != t[0].key
  {
    forall i | 0 <= i < |t[1..]| ensures t[1..][i].key != t[0].key {
      BeforeIrreflexive(t[0].key);
    }
    FindAbsent(t[1..], t[0].key);
  }

  /** Put is map update: the new item under its key, every other key as before, and one more
      item exactly when the key was new. */
  lemma {:induction false} PutSpec(t: seq<Item>, x: Item, k: Key)
    requires WellFormed(t)
    ensures Find(Put(t, x), k) == if k == x.key then Some(x) else Find(t, k)
    ensures |Put(t, x)| == |t| + if Find(t, x.key).None? then 1 else 0
  {
    if t == [] {
    } else if Before(x.key, t[0].key) {
      NotBelow(t, x.key);
    } else if x.key == t[0].key {
    } else {
      PutSpec(t[1..], x, k);
    }
  }

  /** Remove is map removal. */
  lemma {:induction false} RemoveSpec(t: seq<Item>, d: Key, k: Key)
    requires WellFormed(t)
    ensures Find(Remove(t, d), k) == if k == d then None else Find(t, k)
    ensures |Remove(t, d)| == |t| - if Find(t, d).None? then 0 else 1
  {
    if t == [] {
    } else if t[0].key == d {
      HeadIsOnly(t);
    } else {
      RemoveSpec(t[1..], d, k);
    }
  }

  // ---- removing a set of keys ----------------------------------------------------------------

  /** The items whose keys are not in `ks`, in their order. */
  function Except(t: seq<Item>, ks: set<Key>): seq<Item> {
    if t == [] then []
    else if t[0].key in ks then Except(t[1..], ks)
    else [t[0]] + Except(t[1..], ks)
  }

  function Keys(xs: seq<Item>): set<Key> {
    set x | x in xs :: x.key
  }

  function RemoveAll(t: seq<Item>, xs: seq<Item>): seq<Item> {
    if xs == [] then t else Remove(RemoveAll(t, xs[..|xs| - 1]), xs[|xs| - 1].key)
  }

  lemma {:induction false} ExceptMembers(t: seq<Item>, ks: set<Key>)
    ensures forall x :: x in Except(t, ks) <==> x in t && x.key !in ks
  {
    if t == [] {
    } else {
      ExceptMembers(t[1..], ks);
    }
  }

  lemma {:induction false} ExceptWellFormed(t: seq<Item>, ks: set<Key>)
    requires WellFormed(t)
    ensures WellFormed(Except(t, ks))
  {
    if t == [] {
    } else {
      ExceptWellFormed(t[1..], ks);
      ExceptMembers(t[1..], ks);
      assert forall x :: x in t[1..] ==> Before(t[0].key, x.key);
    }
  }

  /** Keys that do not occur do not matter. */
  lemma {:induction false} ExceptAgree(t: seq<Item>, ks: set<Key>, ls: set<Key>)
    requires forall x :: x in t ==> (x.key in ks <==> x.key in ls)
    ensures Except(t, ks) == Except(t, ls)
  {
    if t == [] {
    } else {
      assert t[0] in t;
      ExceptAgree(t[1..], ks, ls);
    }
  }

  lemma {:induction false} ExceptTwice(t: seq<Item>, ks: set<Key>, ls: set<Key>)
    ensures Except(Except(t, ks), ls) == Except(t, ks + ls)
  {
    if t == [] {
    } else {
      ExceptTwice(t[1..], ks, ls);
    }
  }

  lemma {:induction false} ExceptNothing(t: seq<Item>)
    ensures Except(t, {}) == t
  {
    if t == [] {
    } else {
      ExceptNothing(t[1..]);
    }
  }

  lemma {:induction false} RemoveIsExcept(t: seq<Item>, k: Key)
    requires WellFormed(t)
    ensures Remove(t, k) == Except(t, {k})
  {
    if t == [] {
    } else if t[0].key == k {
      HeadIsOnly(t);
      ExceptAgree(t[1..], {k}, {});
      ExceptNothing(t[1..]);
    } else {
      RemoveIsExcept(t[1..], k);
    }
  }

  lemma {:induction false} RemoveAllIsExcept(t: seq<Item>, xs: seq<Item>)
    requires WellFormed(t)
    ensures RemoveAll(t, xs) == Except(t, Keys(xs))
    decreases |xs|
  {
    if xs == [] {
      ExceptNothing(t);
      assert Keys(xs) == {};
    } else {
      var front, x := xs[..|xs| - 1], xs[|xs| - 1];
      RemoveAllIsExcept(t, front);
      ExceptWellFormed(t, Keys(front));
      RemoveIsExcept(Except(t, Keys(front)), x.key);
      ExceptTwice(t, Keys(front), {x.key});
      assert xs == front + [x];
      assert Keys(xs) == Keys(front) + {x.key};
    }
  }

  lemma RemoveAllMembers(t: seq<Item>, xs: seq<Item>)
    requires WellFormed(t)
    ensures WellFormed(RemoveAll(t, xs))
    ensures forall x :: x in RemoveAll(t, xs) <==> x in t && x.key !in Keys(xs)
  {
    RemoveAllIsExcept(t, xs);
    ExceptWellFormed(t, Keys(xs));
    ExceptMembers(t, Keys(xs));
  }

  lemma {:induction false} FindExcept(t: seq<Item>, ks: set<Key>, k: Key)
    ensures Find(Except(t, ks), k) == if k in ks then None else Find(t, k)
  {
    if t == [] {
    } else {
      FindExcept(t[1..], ks, k);
    }
  }

  lemma {:induction false} FoundIsMember(t: seq<Item>, k: Key)
    ensures Find(t, k).Some? ==> Find(t, k).value in t && Find(t, k).value.key == k
  {
    if t == [] {
    } else {
      FoundIsMember(t[1..], k);
    }
  }

  /** An item of the tree is found under its key. */
  lemma FindMember(t: seq<Item>, x: Item)
    requires WellFormed(t) && x in t
    ensures Find(t, x.key) == Some(x)
  {
    FindPresent(t, x);
    FoundIsMember(t, x.key);
    SameKeySameItem(t, x, Find(t, x.key).value);
  }

  lemma {:induction false} FindPresent(t: seq<Item>, x: Item)
    requires x in t
    ensures Find(t, x.key).Some?
  {
    if x == t[0] {
    } else {
      FindPresent(t[1..], x);
    }
  }

  lemma RemoveAllOneMore(t: seq<Item>, xs: seq<Item>, x: Item)
    ensures RemoveAll(t, xs + [x]) == Remove(RemoveAll(t, xs), x.key)
  {
    assert (xs + [x])[..|xs|] == xs;
  }

  // ---- expiry --------------------------------------------------------------------------------

  /** All expired items in ascending key order. */
  function Expired(t: seq<Item>, cutoff: int): seq<Item> {
    if t == [] then []
    else if t[0].stamp <= cutoff then [t[0]] + Expired(t[1..], cutoff)
    else Expired(t[1..], cutoff)
  }

  function Unexpired(t: seq<Item>, cutoff: int): seq<Item> {
    if t == [] then []
    else if t[0].stamp <= cutoff then Unexpired(t[1..], cutoff)
    else [t[0]] + Unexpired(t[1..], cutoff)
  }

  /** The first `max` of them; a limit that is not positive is none. */
  function Limited(xs: seq<Item>, max: int): seq<Item> {
    if 0 < max < |xs| then xs[..max] else xs
  }

  /** The ascent at one more item. */
  lemma ExpiredFrom(t: seq<Item>, i: nat, cutoff: int)
    requires i < |t|
    ensures Expired(t[i..], cutoff) == (if t[i].stamp <= cutoff then [t[i]] else []) + Expired(t[i + 1..], cutoff)
  {
    assert t[i..][1..] == t[i + 1..];
  }

  /** The tree without its first `n` expired items. */
  function Swept(t: seq<Item>, cutoff: int, n: nat): seq<Item> {
    if t == [] || n == 0 then t
    else if t[0].stamp <= cutoff then Swept(t[1..], cutoff, n - 1)
    else [t[0]] + Swept(t[1..], cutoff, n)
  }

  lemma {:induction false} ExpiredMembers(t: seq<Item>, cutoff: int)
    ensures forall x :: x in Expired(t, cutoff) <==> x in t && x.stamp <= cutoff
  {
    if t == [] {
    } else {
      ExpiredMembers(t[1..], cutoff);
    }
  }

  lemma {:induction false} ExpiredAscending(t: seq<Item>, cutoff: int)
    requires WellFormed(t)
    ensures WellFormed(Expired(t, cutoff))
  {
    if t == [] {
    } else {
      ExpiredAscending(t[1..], cutoff);
      ExpiredMembers(t[1..], cutoff);
      assert forall x :: x in t[1..] ==> Before(t[0].key, x.key);
    }
  }

  /** What a list of expired items is: expired items of the tree in ascending order, all of them
      or, if there are more than a positive limit, the `max` with the smallest keys. */
  ghost predicate FirstExpired(t: seq<Item>, cutoff: int, max: int, out: seq<Item>) {
    && Ascending(out)
    && (forall x :: x in out ==> x in t && x.stamp <= cutoff)
    && (0 < max ==> |out| <= max)
    && (forall x :: x in t && x.stamp <= cutoff && x !in out ==>
          0 < max && |out| == max && forall y :: y in out ==> Before(y.key, x.key))
  }

  lemma LimitedIsFirst(t: seq<Item>, cutoff: int, max: int)
    requires WellFormed(t)
    ensures FirstExpired(t, cutoff, max, Limited(Expired(t, cutoff), max))
  {
    var all := Expired(t, cutoff);
    ExpiredMembers(t, cutoff);
    ExpiredAscending(t, cutoff);
    var out := Limited(all, max);
    forall x, y | x in t && x.stamp <= cutoff && x !in out && y in out ensures Before(y.key, x.key) {
      var i :| 0 <= i < |all| && all[i] == x;
      var j :| 0 <= j < |out| && out[j] == y;
      assert all[j] == y && j < i;
    }
  }

  lemma KeysOfMore(x: Item, xs: seq<Item>)
    ensures Keys([x] + xs) == {x.key} + Keys(xs)
  {
  }

  lemma FreshHeadNotListed(t: seq<Item>, cutoff: int, items: seq<Item>)
    requires WellFormed(t) && t != [] && t[0].stamp > cutoff && items <= Expired(t, cutoff)
    ensures t[0].key !in Keys(items)
  {
    HeadIsOnly(t);
    ExpiredMembers(t[1..], cutoff);
    forall x | x in items ensures x.key != t[0].key {
      assert x in Expired(t[1..], cutoff);
    }
  }

  lemma ExceptHeadGone(t: seq<Item>, more: set<Key>, ks: set<Key>)
    requires WellFormed(t) && t != [] && more == {t[0].key} + ks
    ensures Except(t, more) == Except(t[1..], ks)
  {
    HeadIsOnly(t);
    ExceptAgree(t[1..], more, ks);
  }

  lemma ListedHead(t: seq<Item>, cutoff: int, items: seq<Item>)
    requires t != [] && t[0].stamp <= cutoff && items != [] && items <= Expired(t, cutoff)
    ensures items[1..] <= Expired(t[1..], cutoff)
    ensures Keys(items) == {t[0].key} + Keys(items[1..])
  {
    assert items == [t[0]] + items[1..];
    KeysOfMore(t[0], items[1..]);
  }

  /** The two steps of the induction: the first item goes, or it stays. */
  lemma SweptHeadGoes(t: seq<Item>, cutoff: int, items: seq<Item>)
    requires WellFormed(t) && t != [] && t[0].stamp <= cutoff && items != [] && items <= Expired(t, cutoff)
    requires Swept(t[1..], cutoff, |items| - 1) == Except(t[1..], Keys(items[1..]))
    ensures Swept(t, cutoff, |items|) == Except(t, Keys(items))
  {
    ListedHead(t, cutoff, items);
    ExceptHeadGone(t, Keys(items), Keys(items[1..]));
  }

  lemma SweptHeadStays(t: seq<Item>, cutoff: int, items: seq<Item>)
    requires WellFormed(t) && t != [] && t[0].stamp > cutoff && items != [] && items <= Expired(t, cutoff)
    requires Swept(t[1..], cutoff, |items|) == Except(t[1..], Keys(items))
    ensures Swept(t, cutoff, |items|) == Except(t, Keys(items))
  {
    FreshHeadNotListed(t, cutoff, items);
  }

  /** Taking out the first expired items is taking out their keys. */
  lemma {:induction false} SweptIsExcept(t: seq<Item>, cutoff: int, items: seq<Item>)
    requires WellFormed(t) && items <= Expired(t, cutoff)
    ensures Swept(t, cutoff, |items|) == Except(t, Keys(items))
    decreases |t|
  {
    if items == [] {
      assert Keys(items) == {};
      ExceptNothing(t);
    } else if t[0].stamp <= cutoff {
      ListedHead(t, cutoff, items);
      SweptIsExcept(t[1..], cutoff, items[1..]);
      SweptHeadGoes(t, cutoff, items);
    } else {
      SweptIsExcept(t[1..], cutoff, items);
      SweptHeadStays(t, cutoff, items);
    }
  }

  lemma {:induction false} SweptAll(t: seq<Item>, cutoff: int, n: nat)
    requires |Expired(t, cutoff)| <= n
    ensures Swept(t, cutoff, n) == Unexpired(t, cutoff)
  {
    if t == [] {
    } else {
      if n == 0 {
        SweptAll(t[1..], cutoff, 0);
        assert t == [t[0]] + t[1..];
      } else if t[0].stamp <= cutoff {
        SweptAll(t[1..], cutoff, n - 1);
      } else {
        SweptAll(t[1..], cutoff, n);
      }
    }
  }

  lemma {:induction false} SweptTwice(t: seq<Item>, cutoff: int, m: nat, n: nat)
    ensures Swept(Swept(t, cutoff, m), cutoff, n) == Swept(t, cutoff, m + n)
  {
    if t == [] || m == 0 {
    } else {
      if t[0].stamp <= cutoff {
        SweptTwice(t[1..], cutoff, m - 1, n);
      } else {
        SweptTwice(t[1..], cutoff, m, n);
      }
    }
  }

  /** What one undisturbed purge makes of the tree. */
  function Purged(t: seq<Item>, cutoff: int, max: int): seq<Item> {
    RemoveAll(t, Limited(Expired(t, cutoff), max))
  }

  /** A purge removes exactly the items ListExpiredAt lists for the same arguments. */
  lemma PurgeRemovesTheListed(t: seq<Item>, cutoff: int, max: int)
    requires WellFormed(t)
    ensures WellFormed(Purged(t, cutoff, max))
    ensures forall x :: x in Purged(t, cutoff, max) <==> x in t && x !in Limited(Expired(t, cutoff), max)
    ensures Purged(t, cutoff, max) == if 0 < max then Swept(t, cutoff, max) else Unexpired(t, cutoff)
  {
    var all := Expired(t, cutoff);
    var gone := Limited(all, max);
    var n := |gone|;
    assert gone == all[..n];
    RemoveAllIsExcept(t, gone);
    ExceptWellFormed(t, Keys(gone));
    ExceptMembers(t, Keys(gone));
    ExpiredMembers(t, cutoff);
    forall x | x in t ensures x.key in Keys(gone) <==> x in gone {
      if x.key in Keys(gone) {
        var y :| y in gone && y.key == x.key;
        assert y in all && y in t;
        SameKeySameItem(t, x, y);
      }
    }
    SweptIsExcept(t, cutoff, Expired(t, cutoff)[..n]);
    SweptAll(t, cutoff, |all|);
    if 0 < max && |all| <= max {
      SweptAll(t, cutoff, max);
    }
  }

  lemma SameKeySameItem(t: seq<Item>, x: Item, y: Item)
    requires Ascending(t) && x in t && y in t && x.key == y.key
    ensures x == y
  {
    var i :| 0 <= i < |t| && t[i] == x;
    var j :| 0 <= j < |t| && t[j] == y;
    BeforeIrreflexive(x.key);
  }

  function PurgedTimes(t: seq<Item>, cutoff: int, max: int, times: nat): seq<Item> {
    if times == 0 then t else Purged(PurgedTimes(t, cutoff, max, times - 1), cutoff, max)
  }

  lemma {:induction false} PurgedTimesSweeps(t: seq<Item>, cutoff: int, max: int, times: nat)
    requires WellFormed(t) && 0 < max
    ensures WellFormed(PurgedTimes(t, cutoff, max, times))
    ensures 0 <= times * max && PurgedTimes(t, cutoff, max, times) == Swept(t, cutoff, times * max)
  {
    if times == 0 {
    } else {
      PurgedTimesSweeps(t, cutoff, max, times - 1);
      PurgeRemovesTheListed(PurgedTimes(t, cutoff, max, times - 1), cutoff, max);
      SweptTwice(t, cutoff, (times - 1) * max, max);
      assert (times - 1) * max + max == times * max;
    }
  }

  /** Purging in batches of `max`, ceil(n / max) times for n expired items, reaches the tree of
      one purge without a limit. */
  lemma BatchesEqualOnePurge(t: seq<Item>, cutoff: int, max: int)
    requires WellFormed(t) && 0 < max
    ensures var n := |Expired(t, cutoff)|;
      PurgedTimes(t, cutoff, max, (n + max - 1) / max) == Purged(t, cutoff, 0)
  {
    var n := |Expired(t, cutoff)|;
    var times := (n + max - 1) / max;
    assert n + max - 1 == times * max + (n + max - 1) % max;
    PurgedTimesSweeps(t, cutoff, max, times);
    SweptAll(t, cutoff, times * max);
    PurgeRemovesTheListed(t, cutoff, 0);
  }

  // ---- time ----------------------------------------------------------------------------------

  const SECOND := 1_000_000_000

  /** Time.Unix of a time in nanoseconds: the floor, also before the epoch. */
  function Unix(ns: int): int {
    ns / SECOND
  }

  function Cutoff(now: int, ttl: int): int {
    Unix(now - ttl)
  }

  /** An item written at `written` counts as expired. */
  predicate CountsExpired(written: int, now: int, ttl: int) {
    Unix(written) <= Cutoff(now, ttl)
  }

  lemma UnixMonotone(a: int, b: int)
    requires a <= b
    ensures Unix(a) <= Unix(b)
  {
  }

  /** Rounding to seconds never keeps an item past its ttl, and never drops one more than a
      second early. */
  lemma ExpiryWithinASecond(written: int, now: int, ttl: int)
    ensures !CountsExpired(written, now, ttl) ==> now - written < ttl
    ensures CountsExpired(written, now, ttl) ==> now - written > ttl - SECOND
  {
    if written <= now - ttl {
      UnixMonotone(written, now - ttl);
    }
    if written >= now - ttl + SECOND {
      UnixMonotone(now - ttl + SECOND, written);
    }
  }

  /** Both bounds are attained: nothing tighter holds for all times. */
  lemma ExpiryBoundsTight()
    ensures CountsExpired(SECOND - 1, 10 * SECOND, 10 * SECOND) && 10 * SECOND - (SECOND - 1) == 10 * SECOND - SECOND + 1
    ensures !CountsExpired(SECOND, 11 * SECOND - 1, 10 * SECOND) && 11 * SECOND - 1 - SECOND == 10 * SECOND - 1
  {
  }

  /** An expired item stays expired as time passes and for every smaller ttl. */
  lemma ExpiryMonotone(written: int, now: int, later: int, ttl: int, shorter: int)
    requires CountsExpired(written, now, ttl) && now <= later && shorter <= ttl
    ensures CountsExpired(written, later, shorter)
  {
    UnixMonotone(now - ttl, later - shorter);
  }

  // ---- the critical sections, interleaved ----------------------------------------------------

  predicate Accepted(x: Option<Item>) {
    x.Some? && x.value.key != []
  }

  function PutAll(t: seq<Item>, xs: seq<Option<Item>>): seq<Item> {
    if xs == [] then t
    else
      var u, x := PutAll(t, xs[..|xs| - 1]), xs[|xs| - 1];
      if Accepted(x) then Put(u, x.value) else u
  }

  /** UpsertMany's result: the keys that were new. */
  function Added(t: seq<Item>, xs: seq<Option<Item>>): nat {
    if xs == [] then 0
    else
      var front, x := xs[..|xs| - 1], xs[|xs| - 1];
      Added(t, front) + if Accepted(x) && Find(PutAll(t, front), x.value.key).None? then 1 else 0
  }

  /** The last accepted item with the key. */
  function LastAccepted(xs: seq<Option<Item>>, k: Key): Option<Item> {
    if xs == [] then None
    else
      var x := xs[|xs| - 1];
      if Accepted(x) && x.value.key == k then x else LastAccepted(xs[..|xs| - 1], k)
  }

  /** After a batch a key has its last accepted item of the batch, or what it had before. */
  lemma {:induction false} PutAllFinds(t: seq<Item>, xs: seq<Option<Item>>, k: Key)
    requires WellFormed(t)
    ensures Find(PutAll(t, xs), k) == if LastAccepted(xs, k).Some? then LastAccepted(xs, k) else Find(t, k)
    decreases |xs|
  {
    if xs == [] {
    } else {
      var front, x := xs[..|xs| - 1], xs[|xs| - 1];
      PutAllFinds(t, front, k);
      PutAllCounts(t, front);
      if Accepted(x) {
        PutSpec(PutAll(t, front), x.value, k);
      }
    }
  }

  function Values(xs: seq<Option<Item>>): seq<Item> {
    if xs == [] then []
    else
      var front, x := xs[..|xs| - 1], xs[|xs| - 1];
      if Accepted(x) then Values(front) + [x.value] else Values(front)
  }

  /** The result of a delete loop: the keys that were there. */
  function Removed(t: seq<Item>, xs: seq<Item>): nat {
    if xs == [] then 0
    else
      var front, x := xs[..|xs| - 1], xs[|xs| - 1];
      Removed(t, front) + if Find(RemoveAll(t, front), x.key).None? then 0 else 1
  }

  lemma ValuesOneMore(xs: seq<Option<Item>>, i: nat)
    requires i < |xs|
    ensures Values(xs[..i + 1]) == if Accepted(xs[i]) then Values(xs[..i]) + [xs[i].value] else Values(xs[..i])
  {
    assert xs[..i + 1][..i] == xs[..i];
  }

  lemma RemovedOneMore(t: seq<Item>, xs: seq<Item>, x: Item)
    ensures Removed(t, xs + [x]) == Removed(t, xs) + if Find(RemoveAll(t, xs), x.key).None? then 0 else 1
  {
    assert (xs + [x])[..|xs|] == xs;
  }

  lemma {:induction false} PutAllCounts(t: seq<Item>, xs: seq<Option<Item>>)
    requires WellFormed(t)
    ensures WellFormed(PutAll(t, xs)) && |PutAll(t, xs)| == |t| + Added(t, xs)
    decreases |xs|
  {
    if xs == [] {
    } else {
      var front, x := xs[..|xs| - 1], xs[|xs| - 1];
      PutAllCounts(t, front);
      if Accepted(x) {
        PutWellFormed(PutAll(t, front), x.value);
        PutSpec(PutAll(t, front), x.value, x.value.key);
      }
    }
  }

  lemma {:induction false} RemoveAllCounts(t: seq<Item>, xs: seq<Item>)
    requires WellFormed(t)
    ensures WellFormed(RemoveAll(t, xs)) && |RemoveAll(t, xs)| == |t| - Removed(t, xs)
    ensures Removed(t, xs) <= |xs|
    decreases |xs|
  {
    if xs == [] {
    } else {
      var front, x := xs[..|xs| - 1], xs[|xs| - 1];
      RemoveAllCounts(t, front);
      RemoveIsExcept(RemoveAll(t, front), x.key);
      ExceptWellFormed(RemoveAll(t, front), {x.key});
      RemoveSpec(RemoveAll(t, front), x.key, x.key);
    }
  }

  /** A purge between its scan and its deletion; `seen` is the tree at the scan. */
  datatype Purge = Purge(items: seq<Item>, cutoff: int, max: int, seen: seq<Item>)

  /** `added` and `deleted` total what the calls reported since the last Reset. */
  datatype Index = Index(tree: seq<Item>, added: int, deleted: int, purges: map<nat, Purge>)

  datatype Section =
    | Upserts(items: seq<Option<Item>>)
    | Deletes(items: seq<Option<Item>>)
    | Clear
    | Scan(id: nat, cutoff: int, max: int)
    | Sweep(id: nat)

  function Step(s: Index, a: Section): Index {
    match a
    case Upserts(xs) => s.(tree := PutAll(s.tree, xs), added := s.added + Added(s.tree, xs))
    case Deletes(xs) =>
      s.(tree := RemoveAll(s.tree, Values(xs)), deleted := s.deleted + Removed(s.tree, Values(xs)))
    case Clear => s.(tree := [], added := 0, deleted := 0)
    case Scan(id, cutoff, max) =>
      if id in s.purges then s
      else s.(purges := s.purges[id := Purge(Limited(Expired(s.tree, cutoff), max), cutoff, max, s.tree)])
    case Sweep(id) =>
      if id !in s.purges then s
      else
        var xs := s.purges[id].items;
        s.(tree := RemoveAll(s.tree, xs), deleted := s.deleted + Removed(s.tree, xs), purges := s.purges - {id})
  }

  const EMPTY_INDEX := Index([], 0, 0, map[])

  predicate PurgeOk(p: Purge) {
    && p.items == Limited(Expired(p.seen, p.cutoff), p.max)
  }

  ghost predicate IndexInv(s: Index) {
    && WellFormed(s.tree) && |s.tree| == s.added - s.deleted
    && forall id :: id in s.purges ==> PurgeOk(s.purges[id])
  }

  lemma IndexInvKept(s: Index, a: Section)
    requires IndexInv(s)
    ensures IndexInv(Step(s, a))
  {
    match a
    case Upserts(xs) => PutAllCounts(s.tree, xs);
    case Deletes(xs) => RemoveAllCounts(s.tree, Values(xs));
    case Clear =>
    case Scan(_, _, _) =>
    case Sweep(id) =>
      if id in s.purges {
        RemoveAllCounts(s.tree, s.purges[id].items);
      }
  }

  lemma IndexInvFrom(s: Index, acts: seq<Section>)
    requires IndexInv(s)
    ensures IndexInv(After(Step, s, acts))
  {
    forall t, a | IndexInv(t) ensures IndexInv(Step(t, a)) {
      IndexInvKept(t, a);
    }
    Invariance(Step, IndexInv, s, acts);
  }

  lemma IndexInvAlways(acts: seq<Section>)
    ensures IndexInv(After(Step, EMPTY_INDEX, acts))
  {
    IndexInvFrom(EMPTY_INDEX, acts);
  }

  /** However the critical sections interleave, the size is what was reported added less what
      was reported deleted since the last Reset. */
  lemma SizeIsConserved(acts: seq<Section>)
    ensures var s := After(Step, EMPTY_INDEX, acts); WellFormed(s.tree) && |s.tree| == s.added - s.deleted
  {
    IndexInvAlways(acts);
  }

  /** A listed key was expired in the tree that was scanned. */
  lemma ListedWasExpired(p: Purge, k: Key) returns (y: Item)
    requires PurgeOk(p) && k in Keys(p.items)
    ensures y in p.seen && y.key == k && y.stamp <= p.cutoff
  {
    y :| y in p.items && y.key == k;
    ExpiredMembers(p.seen, p.cutoff);
    assert y in Expired(p.seen, p.cutoff);
  }

  /** What the deleting section leaves: everything that is not listed. */
  lemma SweepLeaves(s: Index, id: nat)
    requires IndexInv(s) && id in s.purges
    ensures forall x :: x in Step(s, Sweep(id)).tree <==> x in s.tree && x.key !in Keys(s.purges[id].items)
    ensures Step(s, Sweep(id)).purges == s.purges - {id} && Step(Step(s, Sweep(id)), Sweep(id)) == Step(s, Sweep(id))
  {
    RemoveAllMembers(s.tree, s.purges[id].items);
  }

  lemma SweepWithinLimit(s: Index, id: nat)
    requires IndexInv(s) && id in s.purges
    ensures var p := s.purges[id]; 0 < p.max ==> Step(s, Sweep(id)).deleted - s.deleted <= p.max
  {
    assert PurgeOk(s.purges[id]);
    RemoveAllCounts(s.tree, s.purges[id].items);
  }

  /** Whatever happened since its scan, a purge deletes only keys that were expired in the tree
      it scanned, at most `max` of them when that is positive, and leaves every other item. */
  lemma SweepDeletesOnlyScanned(acts: seq<Section>, id: nat)
    ensures var s := After(Step, EMPTY_INDEX, acts); id in s.purges ==>
      var p, t := s.purges[id], Step(s, Sweep(id));
      && (0 < p.max ==> t.deleted - s.deleted <= p.max)
      && (forall x :: x in s.tree && x !in t.tree ==>
            exists y :: y in p.seen && y.key == x.key && y.stamp <= p.cutoff)
      && (forall x :: x in t.tree ==> x in s.tree)
  {
    IndexInvAlways(acts);
    var s := After(Step, EMPTY_INDEX, acts);
    if id in s.purges {
      SweepWithinLimit(s, id);
      SweepLeaves(s, id);
      forall x | x in s.tree && x.key in Keys(s.purges[id].items)
        ensures exists y :: y in s.purges[id].seen && y.key == x.key && y.stamp <= s.purges[id].cutoff
      {
        var y := ListedWasExpired(s.purges[id], x.key);
      }
    }
  }

  lemma OnlyUpsertsAddStep(s: Index, a: Section)
    requires IndexInv(s) && !a.Upserts?
    ensures forall x :: x in Step(s, a).tree ==> x in s.tree
  {
    match a
    case Deletes(xs) => RemoveAllMembers(s.tree, Values(xs));
    case Sweep(id) =>
      if id in s.purges {
        SweepLeaves(s, id);
      }
    case _ =>
  }

  lemma {:induction false} OnlyUpsertsAdd(s: Index, acts: seq<Section>)
    requires IndexInv(s) && forall a :: a in acts ==> !a.Upserts?
    ensures var t := After(Step, s, acts); IndexInv(t) && forall x :: x in t.tree ==> x in s.tree
    decreases |acts|
  {
    if acts == [] {
    } else {
      var front, a := acts[..|acts| - 1], acts[|acts| - 1];
      OnlyUpsertsAdd(s, front);
      OnlyUpsertsAddStep(After(Step, s, front), a);
      IndexInvKept(After(Step, s, front), a);
    }
  }

  /** As long as no Upsert came in between - deletions, resets and other purges may - a purge
      deletes only items that are expired. */
  lemma SweepDeletesExpired(s: Index, acts: seq<Section>, id: nat, x: Item)
    requires IndexInv(s) && forall a :: a in acts ==> !a.Upserts?
    ensures var t := After(Step, s, acts);
      id in t.purges && t.purges[id].seen == s.tree && x in t.tree && x !in Step(t, Sweep(id)).tree
      ==> x.stamp <= t.purges[id].cutoff
  {
    OnlyUpsertsAdd(s, acts);
    var t := After(Step, s, acts);
    if id in t.purges && t.purges[id].seen == s.tree && x in t.tree && x !in Step(t, Sweep(id)).tree {
      SweepLeaves(t, id);
      assert PurgeOk(t.purges[id]);
      var y := ListedWasExpired(t.purges[id], x.key);
      SameKeySameItem(s.tree, x, y);
    }
  }

  /** Between its two sections nobody else touches a purge's list. */
  lemma {:induction false} PurgeWaits(s: Index, acts: seq<Section>, id: nat)
    requires id in s.purges && Sweep(id) !in acts
    ensures var t := After(Step, s, acts); id in t.purges && t.purges[id] == s.purges[id]
    decreases |acts|
  {
    if acts == [] {
    } else {
      assert acts[|acts| - 1] in acts;
      PurgeWaits(s, acts[..|acts| - 1], id);
    }
  }

  lemma {:induction false} ReadersKeepPurge(s: Index, acts: seq<Section>, id: nat)
    requires id in s.purges && forall a :: a in acts ==> a.Scan?
    ensures var t := After(Step, s, acts);
      t.tree == s.tree && t.deleted == s.deleted && id in t.purges && t.purges[id] == s.purges[id]
    decreases |acts|
  {
    if acts == [] {
    } else {
      assert acts[|acts| - 1] in acts;
      ReadersKeepPurge(s, acts[..|acts| - 1], id);
    }
  }

  /** What a history of critical sections last did to a key. */
  datatype LastWrite = Untouched | Deleted | Written(item: Item)

  predicate Erases(s: Index, a: Section, k: Key) {
    match a
    case Upserts(_) => false
    case Deletes(xs) => k in Keys(Values(xs))
    case Clear => true
    case Scan(_, _, _) => false
    case Sweep(id) => id in s.purges && k in Keys(s.purges[id].items)
  }

  function Last(s: Index, acts: seq<Section>, k: Key): LastWrite {
    if acts == [] then Untouched
    else
      var front, a := acts[..|acts| - 1], acts[|acts| - 1];
      if a.Upserts? && LastAccepted(a.items, k).Some? then Written(LastAccepted(a.items, k).value)
      else if Erases(After(Step, s, front), a, k) then Deleted
      else Last(s, front, k)
  }

  lemma FindsAfter(s: Index, a: Section, k: Key)
    requires IndexInv(s)
    ensures Find(Step(s, a).tree, k) ==
      if a.Upserts? && LastAccepted(a.items, k).Some? then LastAccepted(a.items, k)
      else if Erases(s, a, k) then None
      else Find(s.tree, k)
  {
    match a
    case Upserts(xs) => PutAllFinds(s.tree, xs, k);
    case Deletes(xs) => FindAfterRemoval(s.tree, Values(xs), k);
    case Clear =>
    case Scan(_, _, _) =>
    case Sweep(id) =>
      if id in s.purges {
        FindAfterRemoval(s.tree, s.purges[id].items, k);
      }
  }

  lemma FindAfterRemoval(t: seq<Item>, xs: seq<Item>, k: Key)
    requires WellFormed(t)
    ensures Find(RemoveAll(t, xs), k) == if k in Keys(xs) then None else Find(t, k)
  {
    RemoveAllIsExcept(t, xs);
    FindExcept(t, Keys(xs), k);
  }

  /** The tree agrees with what the history says of each key. */
  lemma {:induction false} LastWriteFinds(s: Index, acts: seq<Section>, k: Key)
    requires IndexInv(s)
    ensures Find(After(Step, s, acts).tree, k) ==
      match Last(s, acts, k) case Untouched => Find(s.tree, k) case Deleted => None case Written(x) => Some(x)
    decreases |acts|
  {
    if acts == [] {
    } else {
      var front, a := acts[..|acts| - 1], acts[|acts| - 1];
      LastWriteFinds(s, front, k);
      IndexInvFrom(s, front);
      FindsAfter(After(Step, s, front), a, k);
    }
  }

  /** A listed item that nobody wrote since the scan is expired. */
  lemma UntouchedIsExpired(p: Purge, k: Key)
    requires PurgeOk(p) && WellFormed(p.seen) && k in Keys(p.items)
    ensures Find(p.seen, k).Some? && Find(p.seen, k).value.stamp <= p.cutoff
  {
    var y := ListedWasExpired(p, k);
    FindMember(p.seen, y);
  }

  /** A purge whose scan has just been made. */
  predicate JustScanned(s: Index, id: nat) {
    id in s.purges && s.purges[id].seen == s.tree
  }

  /** A live item under a listed key was written after the scan. */
  lemma LiveWasWritten(s: Index, id: nat, others: seq<Section>, x: Item)
    requires IndexInv(s) && JustScanned(s, id)
    requires x in After(Step, s, others).tree
    requires x.key in Keys(s.purges[id].items) && x.stamp > s.purges[id].cutoff
    ensures Last(s, others, x.key) == Written(x)
  {
    IndexInvFrom(s, others);
    FindMember(After(Step, s, others).tree, x);
    LastWriteFinds(s, others, x.key);
    UntouchedIsExpired(s.purges[id], x.key);
  }

  lemma WrittenIsThere(s: Index, others: seq<Section>, k: Key)
    requires IndexInv(s) && Last(s, others, k).Written?
    ensures Last(s, others, k).item in After(Step, s, others).tree && Last(s, others, k).item.key == k
  {
    LastWriteFinds(s, others, k);
    FoundIsMember(After(Step, s, others).tree, k);
  }

  lemma SweepAfterOthers(s: Index, id: nat, others: seq<Section>)
    requires IndexInv(s) && id in s.purges && Sweep(id) !in others
    ensures var t := After(Step, s, others);
      forall x :: x in Step(t, Sweep(id)).tree <==> x in t.tree && x.key !in Keys(s.purges[id].items)
  {
    IndexInvFrom(s, others);
    PurgeWaits(s, others, id);
    SweepLeaves(After(Step, s, others), id);
  }

  /** The key was last written by one of `others`, with a stamp past the cutoff. */
  predicate Refreshed(s: Index, others: seq<Section>, cutoff: int, k: Key) {
    Last(s, others, k).Written? && Last(s, others, k).item.stamp > cutoff
  }

  /** Exactly when a purge deletes an item that is not expired: what other goroutines did between
      its two sections last wrote some listed key, with a stamp past the cutoff. */
  lemma SweepSafeExactly(s: Index, id: nat, others: seq<Section>)
    requires IndexInv(s) && JustScanned(s, id) && Sweep(id) !in others
    ensures var t, p := After(Step, s, others), s.purges[id];
      (exists x :: x in t.tree && x !in Step(t, Sweep(id)).tree && x.stamp > p.cutoff) <==>
      (exists k :: k in Keys(p.items) && Refreshed(s, others, p.cutoff, k))
  {
    var t, p := After(Step, s, others), s.purges[id];
    SweepAfterOthers(s, id, others);
    forall x | x in t.tree && x.key in Keys(p.items) && x.stamp > p.cutoff
      ensures Refreshed(s, others, p.cutoff, x.key)
    {
      LiveWasWritten(s, id, others, x);
    }
    forall k | k in Keys(p.items) && Refreshed(s, others, p.cutoff, k)
      ensures Last(s, others, k).item in t.tree && Last(s, others, k).item.key == k
    {
      WrittenIsThere(s, others, k);
    }
  }

  /** With no writer in between, however many other scans there are: the two sections of a purge
      reach the purged tree and report every listed item. */
  lemma UndisturbedPurge(s: Index, id: nat, cutoff: int, max: int, acts: seq<Section>)
    requires WellFormed(s.tree) && id !in s.purges && forall a :: a in acts ==> a.Scan?
    ensures var t := After(Step, Step(s, Scan(id, cutoff, max)), acts);
      && Step(t, Sweep(id)).tree == Purged(s.tree, cutoff, max)
      && Step(t, Sweep(id)).deleted - t.deleted == |Limited(Expired(s.tree, cutoff), max)|
  {
    ReadersKeepPurge(Step(s, Scan(id, cutoff, max)), acts, id);
    PurgeCounts(s.tree, cutoff, Limited(Expired(s.tree, cutoff), max));
  }

  /** A whole purge, from its scan to its sweep. */
  lemma PurgeWithOthers(s: Index, id: nat, cutoff: int, max: int, others: seq<Section>)
    requires IndexInv(s) && id !in s.purges && Sweep(id) !in others
    ensures var scanned, items := Step(s, Scan(id, cutoff, max)), Limited(Expired(s.tree, cutoff), max);
      var between := After(Step, scanned, others);
      var swept := Step(between, Sweep(id));
      && WellFormed(between.tree) && WellFormed(swept.tree)
      && swept.tree == RemoveAll(between.tree, items)
      && swept.deleted - between.deleted == Removed(between.tree, items)
      && ((exists x :: x in between.tree && x !in swept.tree && x.stamp > cutoff) <==>
          (exists k :: k in Keys(items) && Refreshed(scanned, others, cutoff, k)))
      && ((forall a :: a in others ==> a.Scan?) ==>
            swept.tree == Purged(s.tree, cutoff, max) && swept.deleted - between.deleted == |items|)
  {
    var scanned := Step(s, Scan(id, cutoff, max));
    IndexInvFrom(scanned, others);
    IndexInvKept(After(Step, scanned, others), Sweep(id));
    PurgeWaits(scanned, others, id);
    SweepSafeExactly(scanned, id, others);
    if forall a :: a in others ==> a.Scan? {
      UndisturbedPurge(s, id, cutoff, max, others);
    }
  }

  /** That hypothesis is needed: a key rewritten between the two sections is deleted although its
      item is not expired any more. */
  lemma RefreshedKeyIsPurged(k: Key, v: seq<Byte>, cutoff: int)
    requires k != []
    ensures exists s ::
              && Reaches(Step, EMPTY_INDEX, s) && 0 in s.purges && s.purges[0].cutoff == cutoff
              && s.tree == [Item(k, v, cutoff + 1)] && Step(s, Sweep(0)).tree == []
  {
    var old', new' := Item(k, v, cutoff), Item(k, v, cutoff + 1);
    PutOne([], old');
    PutOne([old'], new');
    ReachesItself(Step, EMPTY_INDEX);
    var s := ReachesNext(Step, EMPTY_INDEX, EMPTY_INDEX, Upserts([Some(old')]));
    s := ReachesNext(Step, EMPTY_INDEX, s, Scan(0, cutoff, 0));
    s := ReachesNext(Step, EMPTY_INDEX, s, Upserts([Some(new')]));
    BeforeIrreflexive(k);
    assert Expired([old'], cutoff) == [old'];
    assert [old'][..0] == [] && RemoveAll([new'], [old']) == Remove([new'], k);
  }

  lemma PutOne(t: seq<Item>, x: Item)
    requires x.key != []
    ensures PutAll(t, [Some(x)]) == Put(t, x)
  {
    assert [Some(x)][..0] == [];
    assert PutAll(t, []) == t;
  }

  // ---- the tree as it is written -------------------------------------------------------------

  class ByteKeyBTree {
    var tree: seq<Item>

    ghost predicate Valid()
      reads this
    {
      WellFormed(tree)
    }

    constructor ()
      ensures Valid() && tree == []
    {
      tree := [];
    }

    method Upsert(item: Option<Item>) returns (isNew: bool)
      requires Valid()
      modifies this
      ensures Valid()
      ensures isNew <==> Accepted(item) && old(Find(tree, item.value.key)).None?
      ensures Accepted(item) ==> forall k ::
                Find(tree, k) == if k == item.value.key then Some(item.value) else old(Find(tree, k))
      ensures !Accepted(item) ==> tree == old(tree)
      ensures |tree| == |old(tree)| + if isNew then 1 else 0
    {
      if item.None? || item.value.key == [] {
        return false;
      }
      isNew := Find(tree, item.value.key).None?;
      PutWellFormed(tree, item.value);
      forall k ensures Find(Put(tree, item.value), k) == if k == item.value.key then Some(item.value) else Find(tree, k) {
        PutSpec(tree, item.value, k);
      }
      PutSpec(tree, item.value, item.value.key);
      tree := Put(tree, item.value);
    }

    method UpsertMany(items: seq<Option<Item>>) returns (added: nat)
      requires Valid()
      modifies this
      ensures Valid() && tree == PutAll(old(tree), items)
      ensures forall k :: Find(tree, k) ==
                if LastAccepted(items, k).Some? then LastAccepted(items, k) else Find(old(tree), k)
      ensures added == Added(old(tree), items) == |tree| - |old(tree)|
    {
      added := 0;
      for i := 0 to |items|
        invariant Valid() && tree == PutAll(old(tree), items[..i]) && added == Added(old(tree), items[..i])
      {
        var item := items[i];
        assert items[..i + 1][..i] == items[..i];
        if item.None? || item.value.key == [] {
          continue;
        }
        PutWellFormed(tree, item.value);
        var prev := Find(tree, item.value.key);
        tree := Put(tree, item.value);
        if prev.None? {
          added := added + 1;
        }
      }
      assert items[..|items|] == items;
      PutAllCounts(old(tree), items);
      forall k ensures Find(tree, k) == if LastAccepted(items, k).Some? then LastAccepted(items, k) else Find(old(tree), k) {
        PutAllFinds(old(tree), items, k);
      }
    }

    method Delete(item: Option<Item>) returns (deleted: bool)
      requires Valid()
      modifies this
      ensures Valid()
      ensures deleted <==> Accepted(item) && old(Find(tree, item.value.key)).Some?
      ensures Accepted(item) ==> forall k :: Find(tree, k) == if k == item.value.key then None else old(Find(tree, k))
      ensures !Accepted(item) ==> tree == old(tree)
      ensures |tree| == |old(tree)| - if deleted then 1 else 0
    {
      if item.None? || item.value.key == [] {
        return false;
      }
      deleted := Find(tree, item.value.key).Some?;
      RemoveIsExcept(tree, item.value.key);
      ExceptWellFormed(tree, {item.value.key});
      forall k ensures Find(Remove(tree, item.value.key), k) == if k == item.value.key then None else Find(tree, k) {
        RemoveSpec(tree, item.value.key, k);
      }
      RemoveSpec(tree, item.value.key, item.value.key);
      tree := Remove(tree, item.value.key);
    }

    method DeleteMany(items: seq<Option<Item>>) returns (deleted: nat)
      requires Valid()
      modifies this
      ensures Valid() && tree == RemoveAll(old(tree), Values(items))
      ensures deleted == Removed(old(tree), Values(items)) == |old(tree)| - |tree|
    {
      deleted := 0;
      for i := 0 to |items|
        invariant tree == RemoveAll(old(tree), Values(items[..i]))
        invariant deleted == Removed(old(tree), Values(items[..i]))
      {
        var item := items[i];
        ValuesOneMore(items, i);
        if item.None? || item.value.key == [] {
          continue;
        }
        RemoveAllOneMore(old(tree), Values(items[..i]), item.value);
        RemovedOneMore(old(tree), Values(items[..i]), item.value);
        var found := Find(tree, item.value.key);
        tree := Remove(tree, item.value.key);
        if found.Some? {
          deleted := deleted + 1;
        }
      }
      assert items[..|items|] == items;
      RemoveAllCounts(old(tree), Values(items));
    }

    /** The deleting section of a purge, on whatever the tree has become since the listing. */
    method DeleteListed(items: seq<Item>) returns (deleted: nat)
      requires Valid()
      modifies this
      ensures Valid() && tree == RemoveAll(old(tree), items)
      ensures deleted == Removed(old(tree), items) == |old(tree)| - |tree|
    {
      deleted := 0;
      for i := 0 to |items|
        invariant tree == RemoveAll(old(tree), items[..i])
        invariant deleted == Removed(old(tree), items[..i])
      {
        assert items[..i + 1] == items[..i] + [items[i]];
        RemoveAllOneMore(old(tree), items[..i], items[i]);
        RemovedOneMore(old(tree), items[..i], items[i]);
        var found := Find(tree, items[i].key);
        tree := Remove(tree, items[i].key);
        if found.Some? {
          deleted := deleted + 1;
        }
      }
      assert items[..|items|] == items;
      RemoveAllCounts(old(tree), items);
    }

    /** No check of the key here: an empty one is simply never found. */
    method GetLastWriteUnix(item: Option<Item>) returns (stamp: int, found: bool)
      requires Valid()
      ensures found <==> Accepted(item) && Find(tree, item.value.key).Some?
      ensures stamp == if found then Find(tree, item.value.key).value.stamp else 0
    {
      if item.None? {
        return 0, false;
      }
      var res := Find(tree, item.value.key);
      if item.value.key == [] {
        FindAbsent(tree, []);
      }
      if res.None? {
        return 0, false;
      }
      return res.value.stamp, true;
    }

    method Reset()
      modifies this
      ensures Valid() && tree == []
    {
      tree := [];
    }

    /** The ascent that both expiry operations make, with its early exit. */
    method Collect(cutoff: int, max: int) returns (out: seq<Item>)
      ensures out == Limited(Expired(tree, cutoff), max)
    {
      out := [];
      assert tree[0..] == tree;
      for i := 0 to |tree|
        invariant out + Expired(tree[i..], cutoff) == Expired(tree, cutoff)
        invariant 0 < max ==> |out| < max
      {
        ExpiredFrom(tree, i, cutoff);
        if tree[i].stamp <= cutoff {
          assert out + ([tree[i]] + Expired(tree[i + 1..], cutoff)) == out + [tree[i]] + Expired(tree[i + 1..], cutoff);
          out := out + [tree[i]];
          if 0 < max && |out| >= max {
            assert (out + Expired(tree[i + 1..], cutoff))[..|out|] == out;
            return;
          }
        }
      }
    }

    method ListExpiredAt(now: int, ttl: int, maxCount: int) returns (out: seq<Item>)
      ensures out == if ttl <= 0 then [] else Limited(Expired(tree, Cutoff(now, ttl)), maxCount)
      ensures Valid() && 0 < ttl ==> FirstExpired(tree, Cutoff(now, ttl), maxCount, out)
    {
      if ttl <= 0 {
        return [];
      }
      out := Collect(Cutoff(now, ttl), maxCount);
      if Valid() {
        LimitedIsFirst(tree, Cutoff(now, ttl), maxCount);
      }
    }

    /** Purge `id` of the index `s`.  `others` are the critical sections that other goroutines
        complete between its two; any of them, other purges of `s` included. */
    method PurgeExpiredAt(now: int, ttl: int, maxToDelete: int, s: Index, id: nat, others: seq<Section>)
      returns (deleted: nat)
      requires IndexInv(s) && tree == s.tree && id !in s.purges && Sweep(id) !in others
      modifies this
      ensures Valid()
      ensures ttl <= 0 ==> deleted == 0 && tree == old(tree)
      ensures 0 < ttl ==>
                var between := After(Step, Step(s, Scan(id, Cutoff(now, ttl), maxToDelete)), others);
                tree == Step(between, Sweep(id)).tree && deleted == Step(between, Sweep(id)).deleted - between.deleted
      ensures 0 < ttl ==>
                var cutoff := Cutoff(now, ttl);
                var scanned := Step(s, Scan(id, cutoff, maxToDelete));
                (exists x :: x in After(Step, scanned, others).tree && x !in tree && x.stamp > cutoff) <==>
                (exists k :: k in Keys(Limited(Expired(s.tree, cutoff), maxToDelete))
                  && Refreshed(scanned, others, cutoff, k))
      ensures 0 < ttl && (forall a :: a in others ==> a.Scan?) ==>
                && tree == Purged(s.tree, Cutoff(now, ttl), maxToDelete)
                && deleted == |Limited(Expired(s.tree, Cutoff(now, ttl)), maxToDelete)|
    {
      if ttl <= 0 {
        return 0;
      }
      var cutoff := Cutoff(now, ttl);
      var scanned := Step(s, Scan(id, cutoff, maxToDelete));
      var items := Collect(cutoff, maxToDelete);
      PurgeWithOthers(s, id, cutoff, maxToDelete, others);
      tree := After(Step, scanned, others).tree;
      if items == [] {
        RemoveAllCounts(tree, items);
        deleted := 0;
      } else {
        deleted := DeleteListed(items);
      }
    }

    /** Calls back in ascending key order until a call answers false; no callback is an error. */
    method ForEach(callback: Option<(Key, int) -> bool>) returns (failed: bool, visited: seq<Item>)
      requires Valid()
      ensures failed <==> callback.None?
      ensures visited <= tree && Ascending(visited)
      ensures forall i :: 0 <= i < |visited| - 1 ==> !failed && callback.value(visited[i].key, visited[i].stamp)
      ensures !failed && |visited| < |tree| ==>
                visited != [] && !callback.value(visited[|visited| - 1].key, visited[|visited| - 1].stamp)
    {
      failed, visited := callback.None?, [];
      if failed {
        return;
      }
      for i := 0 to |tree|
        invariant visited == tree[..i]
        invariant forall j :: 0 <= j < i ==> callback.value(tree[j].key, tree[j].stamp)
      {
        visited := visited + [tree[i]];
        if !callback.value(tree[i].key, tree[i].stamp) {
          return;
        }
      }
    }
  }

  lemma {:induction false} SweptLength(t: seq<Item>, cutoff: int, n: nat)
    requires n <= |Expired(t, cutoff)|
    ensures |Swept(t, cutoff, n)| == |t| - n
  {
    if t == [] || n == 0 {
    } else {
      if t[0].stamp <= cutoff {
        SweptLength(t[1..], cutoff, n - 1);
      } else {
        SweptLength(t[1..], cutoff, n);
      }
    }
  }

  /** Undisturbed, every listed item is found and deleted. */
  lemma PurgeCounts(t: seq<Item>, cutoff: int, items: seq<Item>)
    requires WellFormed(t) && items <= Expired(t, cutoff)
    ensures Removed(t, items) == |items|
  {
    RemoveAllIsExcept(t, items);
    RemoveAllCounts(t, items);
    SweptIsExcept(t, cutoff, items);
    SweptLength(t, cutoff, |items|);
  }
}
