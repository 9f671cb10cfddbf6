/** Listing the unbond history page by page, through its byte-string keys. */
module HistoryPages {
  import opened Fixed
  import opened HubTypes

  type Byte = b: nat | b < 256
  type Key = seq<Byte>

  const DEFAULT_LIMIT: nat := 10
  const MAX_LIMIT: nat := 100

  /** The number of byte strings of a length. */
  function Range(width: nat): (r: nat)
    ensures r > 0
  {
    if width == 0 then 1 else 256 * Range(width - 1)
  }

  /** The big-endian bytes of a number. */
  function BigEndian(n: nat, width: nat): (k: Key)
    ensures |k| == width
  {
    if width == 0 then [] else BigEndian(n / 256, width - 1) + [n % 256]
  }

  function Number(k: Key): nat {
    if k == [] then 0 else 256 * Number(k[..|k| - 1]) + k[|k| - 1]
  }

  lemma {:induction false} NumberOfBigEndian(n: nat, width: nat)
    requires n < Range(width)
    ensures Number(BigEndian(n, width)) == n
  {
    if width > 0 {
      var k := BigEndian(n, width);
      NumberOfBigEndian(n / 256, width - 1);
      assert k[..|k| - 1] == BigEndian(n / 256, width - 1);
    }
  }

  /** The order in which the store iterates its keys. */
  predicate Less(a: Key, b: Key) {
    if b == [] then false
    else if a == [] then true
    else if a[0] != b[0] then a[0] < b[0]
    else Less(a[1..], b[1..])
  }

  lemma {:induction false} LessAppend(a: Key, x: Byte, b: Key, y: Byte)
    requires |a| == |b|
    ensures Less(a + [x], b + [y]) <==> Less(a, b) || (a == b && x < y)
  {
    if a == [] {
      assert a + [x] == [x] && b + [y] == [y] && [x][1..] == [] && [y][1..] == [];
    } else {
      assert (a + [x])[1..] == a[1..] + [x] && (b + [y])[1..] == b[1..] + [y];
      LessAppend(a[1..], x, b[1..], y);
      assert a == [a[0]] + a[1..] && b == [b[0]] + b[1..];
    }
  }

  /** Big-endian keys of one width order as their numbers. */
  lemma {:induction false} BigEndianOrder(m: nat, n: nat, width: nat)
    requires m < Range(width) && n < Range(width)
    ensures Less(BigEndian(m, width), BigEndian(n, width)) <==> m < n
    ensures BigEndian(m, width) == BigEndian(n, width) <==> m == n
  {
    NumberOfBigEndian(m, width);
    NumberOfBigEndian(n, width);
    if width > 0 {
      BigEndianOrder(m / 256, n / 256, width - 1);
      LessAppend(BigEndian(m / 256, width - 1), m % 256, BigEndian(n / 256, width - 1), n % 256);
    }
  }

  /** A key extended by a byte comes after it and before every larger key of its length. */
  lemma {:induction false} LessExtended(a: Key, b: Key, x: Byte)
    requires |a| == |b|
    ensures Less(a, b + [x]) <==> Less(a, b) || a == b
  {
    if a == [] {
      assert b + [x] == [x];
    } else {
      assert (b + [x])[1..] == b[1..] + [x];
      LessExtended(a[1..], b[1..], x);
      assert a == [a[0]] + a[1..] && b == [b[0]] + b[1..];
    }
  }

  const WIDTH: nat := 8

  /** The key of a batch id. */
  function KeyOf(id: nat): (k: Key)
    ensures |k| == 8
  {
    BigEndian(id, WIDTH)
  }

  /** The lower bound of a page that starts after an id. */
  function Bound(startAfter: Option<nat>): Key {
    match startAfter
    case None => []
    case Some(id) => KeyOf(id) + [1]
  }

  /** The bound admits exactly the ids greater than the start. */
  lemma BoundAdmits(startAfter: Option<nat>, id: nat)
    requires id < Range(WIDTH) && (startAfter.Some? ==> startAfter.value < Range(WIDTH))
    ensures !Less(KeyOf(id), Bound(startAfter)) <==> startAfter.None? || id > startAfter.value
  {
    if startAfter.Some? {
      LessExtended(KeyOf(id), KeyOf(startAfter.value), 1);
      BigEndianOrder(id, startAfter.value, WIDTH);
    }
  }

  // ----- increasing listings -----

  ghost predicate Increasing(r: seq<nat>) {
    forall i, j | 0 <= i < j < |r| :: r[i] < r[j]
  }

  lemma {:induction false} LeastBelow(ids: set<nat>, i: nat) returns (m: nat)
    requires i in ids
    ensures m in ids && forall j | j in ids :: m <= j
    decreases i
  {
    m := i;
    if j :| j in ids && j < i {
      m := LeastBelow(ids, j);
    }
  }

  /** The ids in increasing order. */
  lemma {:induction false} Sorted(ids: set<nat>) returns (r: seq<nat>)
    ensures Increasing(r) && forall i :: i in r <==> i in ids
    decreases |ids|
  {
    if ids == {} {
      r := [];
    } else {
      var any :| any in ids;
      var m := LeastBelow(ids, any);
      var rest := Sorted(ids - {m});
      r := [m] + rest;
      forall j | 0 <= j < |rest| ensures m < rest[j] {
        assert rest[j] in rest;
      }
    }
  }

  /** Increasing sequences with the same elements are equal. */
  lemma {:induction false} IncreasingUnique(a: seq<nat>, b: seq<nat>)
    requires Increasing(a) && Increasing(b)
    requires forall i :: i in a <==> i in b
    ensures a == b
  {
    if a == [] {
      assert forall k | 0 <= k < |b| :: b[k] !in a;
    } else {
      assert a[0] in b && b[0] in a;
      RestOf(a);
      RestOf(b);
      IncreasingUnique(a[1..], b[1..]);
    }
  }

  lemma RestOf(a: seq<nat>)
    requires a != [] && Increasing(a)
    ensures Increasing(a[1..])
    ensures forall i :: i in a[1..] <==> i in a && i != a[0]
    ensures forall i | i in a :: a[0] <= i
  {
    assert a == [a[0]] + a[1..];
    forall i | i in a[1..] ensures a[0] < i {
      var k :| 0 <= k < |a[1..]| && a[1..][k] == i;
      assert a[k + 1] == i;
    }
  }

  ghost predicate ListsAfter(r: seq<nat>, h: History, startAfter: Option<nat>) {
    Increasing(r) && forall i :: i in r <==> i in h && (startAfter.None? || i > startAfter.value)
  }

  lemma ListExists(h: History, startAfter: Option<nat>)
    ensures exists r :: ListsAfter(r, h, startAfter)
  {
    var r := Sorted(set i | i in h && (startAfter.None? || i > startAfter.value));
    assert ListsAfter(r, h, startAfter);
  }

  /** The ids of `h` after a start, in increasing order. */
  ghost function IdsAfter(h: History, startAfter: Option<nat>): (r: seq<nat>)
    ensures ListsAfter(r, h, startAfter)
  {
    ListExists(h, startAfter);
    var r :| ListsAfter(r, h, startAfter);
    r
  }

  // ----- pages -----

  /** `keys` is what the store iterates from `bound` on: its keys that do not come before
      the bound, in its order. */
  ghost predicate Iterates(keys: seq<Key>, h: History, bound: Key) {
    && (forall i, j | 0 <= i < j < |keys| :: Less(keys[i], keys[j]))
    && (forall k | k in keys :: exists id :: id in h && k == KeyOf(id))
    && (forall id | id in h :: KeyOf(id) in keys <==> !Less(KeyOf(id), bound))
  }

  /** All ids fit the key width. */
  ghost predicate Addressable(h: History, startAfter: Option<nat>) {
    && (forall id | id in h :: id < Range(WIDTH))
    && (startAfter.Some? ==> startAfter.value < Range(WIDTH))
  }

  function KeysOf(ids: seq<nat>): (keys: seq<Key>)
    ensures |keys| == |ids|
    ensures forall i | 0 <= i < |ids| :: keys[i] == KeyOf(ids[i])
  {
    seq(|ids|, i requires 0 <= i < |ids| => KeyOf(ids[i]))
  }

  function NumbersOf(keys: seq<Key>): (ids: seq<nat>)
    ensures |ids| == |keys|
    ensures forall i | 0 <= i < |keys| :: ids[i] == Number(keys[i])
  {
    seq(|keys|, i requires 0 <= i < |keys| => Number(keys[i]))
  }

  /** The store iterates exactly the ids after the start, in increasing order. */
  lemma IterationIs(keys: seq<Key>, h: History, startAfter: Option<nat>)
    requires Addressable(h, startAfter) && Iterates(keys, h, Bound(startAfter))
    ensures NumbersOf(keys) == IdsAfter(h, startAfter)
  {
    var ids := NumbersOf(keys);
    forall i | 0 <= i < |keys| ensures ids[i] in h && keys[i] == KeyOf(ids[i]) {
      assert keys[i] in keys;
      var id :| id in h && keys[i] == KeyOf(id);
      NumberOfBigEndian(id, WIDTH);
    }
    forall i, j | 0 <= i < j < |ids| ensures ids[i] < ids[j] {
      BigEndianOrder(ids[i], ids[j], WIDTH);
    }
    forall id: nat ensures id in ids <==> id in IdsAfter(h, startAfter) {
      if id in h {
        BoundAdmits(startAfter, id);
        if KeyOf(id) in keys {
          var k :| 0 <= k < |keys| && keys[k] == KeyOf(id);
          NumberOfBigEndian(id, WIDTH);
          assert ids[k] == id;
        }
        if id in ids {
          var k :| 0 <= k < |ids| && ids[k] == id;
          assert keys[k] in keys;
        }
      }
    }
    IncreasingUnique(ids, IdsAfter(h, startAfter));
  }

  lemma IterationExists(h: History, startAfter: Option<nat>)
    requires Addressable(h, startAfter)
    ensures Iterates(KeysOf(IdsAfter(h, startAfter)), h, Bound(startAfter))
  {
    var ids := IdsAfter(h, startAfter);
    var keys := KeysOf(ids);
    forall i, j | 0 <= i < j < |keys| ensures Less(keys[i], keys[j]) {
      assert ids[i] in ids && ids[j] in ids;
      BigEndianOrder(ids[i], ids[j], WIDTH);
    }
    forall k | k in keys ensures exists id :: id in h && k == KeyOf(id) {
      var i :| 0 <= i < |keys| && keys[i] == k;
      assert ids[i] in ids;
    }
    forall id | id in h ensures KeyOf(id) in keys <==> !Less(KeyOf(id), Bound(startAfter)) {
      BoundAdmits(startAfter, id);
      if id in ids {
        var i :| 0 <= i < |ids| && ids[i] == id;
        assert keys[i] == KeyOf(id);
      }
      if KeyOf(id) in keys {
        var i :| 0 <= i < |keys| && keys[i] == KeyOf(id);
        assert ids[i] in ids;
        BigEndianOrder(ids[i], id, WIDTH);
      }
    }
  }

  function PageLimit(limit: Option<nat>): nat {
    Min(limit.GetOr(DEFAULT_LIMIT), MAX_LIMIT)
  }

  function Entries(h: History, ids: seq<nat>): (r: seq<UnbondHistory>)
    requires forall i | i in ids :: i in h
    ensures |r| == |ids|
    ensures forall i | 0 <= i < |ids| :: r[i] == h[ids[i]]
  {
    seq(|ids|, i requires 0 <= i < |ids| => h[ids[i]])
  }

  /** The lowest ids after a start, as many as a page may hold. */
  ghost function PageIds(h: History, startAfter: Option<nat>, limit: Option<nat>): (r: seq<nat>)
    ensures forall i | i in r :: i in h
    ensures r <= IdsAfter(h, startAfter)
    ensures |r| == Min(Min(limit.GetOr(10), 100), |IdsAfter(h, startAfter)|)
  {
    var ids := IdsAfter(h, startAfter);
    ids[..Min(PageLimit(limit), |ids|)]
  }

  /** The history entries of one page: the first few keys the store iterates from the bound,
      read back.  They are the entries of the lowest ids after the start, as many as the
      limit allows: the given one or else 10, and never more than 100. */
  ghost function AllUnbondHistory(h: History, startAfter: Option<nat>, limit: Option<nat>): (page: seq<UnbondHistory>)
    requires Addressable(h, startAfter)
    ensures page == Entries(h, PageIds(h, startAfter, limit))
  {
    IterationExists(h, startAfter);
    var keys: seq<Key> :| Iterates(keys, h, Bound(startAfter));
    IterationIs(keys, h, startAfter);
    Entries(h, NumbersOf(keys)[..Min(PageLimit(limit), |keys|)])
  }

  // ----- chaining pages -----

  /** Reading on from the last entry of each page until a page is empty. */
  ghost function Chained(h: History, startAfter: Option<nat>, limit: Option<nat>): seq<UnbondHistory>
    requires Addressable(h, startAfter) && Labelled(h)
    decreases |IdsAfter(h, startAfter)|
  {
    var page := AllUnbondHistory(h, startAfter, limit);
    if page == [] then []
    else
      NextPage(h, startAfter, limit);
      page + Chained(h, Some(page[|page| - 1].batchId), limit)
  }

  /** Every entry carries its own id. */
  ghost predicate Labelled(h: History) {
    forall i | i in h :: h[i].batchId == i
  }

  /** Dropping a prefix of an increasing listing leaves the listing after its last id. */
  lemma DropPrefix(h: History, startAfter: Option<nat>, n: nat)
    requires 0 < n <= |IdsAfter(h, startAfter)|
    ensures IdsAfter(h, Some(IdsAfter(h, startAfter)[n - 1])) == IdsAfter(h, startAfter)[n..]
  {
    var ids := IdsAfter(h, startAfter);
    var last, rest := ids[n - 1], ids[n..];
    assert last in ids;
    forall i ensures i in rest <==> i in h && i > last {
      if i in rest {
        var k :| 0 <= k < |rest| && rest[k] == i;
        assert ids[n + k] == i && ids[n + k] in ids;
      }
      if i in h && i > last {
        assert i in ids;
        var k :| 0 <= k < |ids| && ids[k] == i;
        assert rest[k - n] == i;
      }
    }
    hide IdsAfter;
    IncreasingUnique(rest, IdsAfter(h, Some(last)));
  }

  /** The ids after the last entry of a page are those the page left out. */
  lemma NextPage(h: History, startAfter: Option<nat>, limit: Option<nat>)
    requires Addressable(h, startAfter) && Labelled(h)
    requires AllUnbondHistory(h, startAfter, limit) != []
    ensures var page, ids := AllUnbondHistory(h, startAfter, limit), IdsAfter(h, startAfter);
      var last := page[|page| - 1].batchId;
      && 0 < |page| <= |ids| && last in h
      && IdsAfter(h, Some(last)) == ids[|page|..]
  {
    hide IdsAfter, PageIds, AllUnbondHistory, Entries;
    var n := |AllUnbondHistory(h, startAfter, limit)|;
    var ids := IdsAfter(h, startAfter);
    assert PageIds(h, startAfter, limit)[n - 1] == ids[n - 1];
    assert ids[n - 1] in ids;
    DropPrefix(h, startAfter, n);
  }

  lemma EntriesSplit(h: History, ids: seq<nat>, n: nat)
    requires n <= |ids| && forall i | i in ids :: i in h
    ensures Entries(h, ids[..n]) + Entries(h, ids[n..]) == Entries(h, ids)
  {
  }

  /** One page of a chain. */
  lemma ChainOnce(h: History, startAfter: Option<nat>, limit: Option<nat>) returns (n: nat, last: Option<nat>)
    requires Addressable(h, startAfter) && Labelled(h) && PageLimit(limit) > 0
    ensures n <= |IdsAfter(h, startAfter)| && (n == 0 ==> IdsAfter(h, startAfter) == [])
    ensures Addressable(h, last)
    ensures n > 0 ==> IdsAfter(h, last) == IdsAfter(h, startAfter)[n..]
    ensures Chained(h, startAfter, limit) == Entries(h, IdsAfter(h, startAfter)[..n])
              + if n > 0 then Chained(h, last, limit) else []
  {
    hide IdsAfter, Entries, AllUnbondHistory, PageIds;
    var page := AllUnbondHistory(h, startAfter, limit);
    assert PageIds(h, startAfter, limit) == IdsAfter(h, startAfter)[..|page|];
    n, last := |page|, startAfter;
    if page != [] {
      NextPage(h, startAfter, limit);
      last := Some(page[n - 1].batchId);
    }
  }

  /** Chaining pages of any positive size enumerates every batch after the start exactly
      once, in increasing order. */
  lemma {:induction false} ChainedIsEverything(h: History, startAfter: Option<nat>, limit: Option<nat>)
    requires Addressable(h, startAfter) && Labelled(h)
    requires PageLimit(limit) > 0
    ensures Chained(h, startAfter, limit) == Entries(h, IdsAfter(h, startAfter))
    decreases |IdsAfter(h, startAfter)|
  {
    var n, last := ChainOnce(h, startAfter, limit);
    hide IdsAfter, Entries, Chained, Labelled, Addressable;
    EntriesSplit(h, IdsAfter(h, startAfter), n);
    if n > 0 {
      ChainedIsEverything(h, last, limit);
    }
  }
}

/** The history pages of the hub's own books. */
module HubPages {
  import opened Fixed
  import opened HubTypes
  import opened Ledger
  import opened HistoryPages

  /** 1, 2, ..., n. */
  function UpTo(n: nat): (r: seq<nat>)
    ensures |r| == n && forall i | 0 <= i < n :: r[i] == i + 1
    ensures forall i :: i in r <==> 1 <= i <= n
  {
    if n == 0 then [] else UpTo(n - 1) + [n]
  }

  /** Chaining pages from the start lists the batches 1, 2, ... up to the last closed one,
      each once. */
  lemma ChainedHub(s: Storage, now: nat, limit: Option<nat>)
    requires Shape(s, now) && s.batchId <= Range(WIDTH) && PageLimit(limit) > 0
    ensures Addressable(s.history, None) && Labelled(s.history)
    ensures Chained(s.history, None, limit) == Entries(s.history, UpTo(s.batchId - 1))
  {
    hide IdsAfter, Chained;
    IncreasingUnique(UpTo(s.batchId - 1), IdsAfter(s.history, None));
    ChainedIsEverything(s.history, None, limit);
  }
}
