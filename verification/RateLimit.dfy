/** The capped counter store: fixed-window counters that expire by the clock and are evicted oldest first. */
module RateLimit {
  import opened Text

  type Key = string

  /** One pair of the expirations dict, which keeps insertion order. */
  datatype Entry = Entry(key: Key, at: int)

  datatype Store = Store(storage: map<Key, int>, expirations: seq<Entry>)

  // ------------------------------------------------------------------ dict operations

  function KeySet(es: seq<Entry>): set<Key> { set i | 0 <= i < |es| :: es[i].key }

  predicate Distinct(es: seq<Entry>) { forall i, j :: 0 <= i < j < |es| ==> es[i].key != es[j].key }

  lemma TailKeys(es: seq<Entry>)
    requires es != []
    ensures KeySet(es) == {es[0].key} + KeySet(es[1..])
  {
    forall k | k in KeySet(es) && k != es[0].key ensures k in KeySet(es[1..]) {
      var i :| 0 <= i < |es| && es[i].key == k;
      assert es[1..][i - 1].key == k;
    }
    forall i | 0 <= i < |es[1..]| ensures es[1..][i].key in KeySet(es) { assert es[1..][i] == es[i + 1]; }
  }

  function Find(es: seq<Entry>, key: Key): (at: Option<int>)
    ensures at.Some? <==> key in KeySet(es)
    ensures at.Some? ==> Entry(key, at.value) in es
  {
    if es == [] then None else TailKeys(es); if es[0].key == key then Some(es[0].at) else Find(es[1..], key)
  }

  function Without(es: seq<Entry>, key: Key): seq<Entry> {
    if es == [] then [] else (if es[0].key == key then [] else [es[0]]) + Without(es[1..], key)
  }

  /** Assigning to a key already there keeps its place. */
  function Put(es: seq<Entry>, key: Key, at: int): seq<Entry> {
    if es == [] then [Entry(key, at)]
    else if es[0].key == key then [Entry(key, at)] + es[1..] else [es[0]] + Put(es[1..], key, at)
  }

  function Kept(es: seq<Entry>, now: int): seq<Entry> {
    if es == [] then [] else (if es[0].at <= now then [] else [es[0]]) + Kept(es[1..], now)
  }

  // ------------------------------------------------------------------ what each operation comes to

  function Cleared(s: Store, key: Key): Store { Store(s.storage - {key}, Without(s.expirations, key)) }

  /** The parent's `get` first drops a counter whose window has closed. */
  function Refreshed(s: Store, key: Key, now: int): Store {
    var at := Find(s.expirations, key);
    if at.None? || at.value <= now then Cleared(s, key) else s
  }

  function Value(s: Store, key: Key): int { if key in s.storage then s.storage[key] else 0 }

  datatype Hit = Hit(key: Key, expiry: int, amount: int, read: int, armed: int, swept: int)

  /** A counter that equals its increment opens a window. */
  function Added(r: Store, key: Key, amount: int, at: int): Store {
    var v := Value(r, key) + amount;
    Store(r.storage[key := v], if v == amount then Put(r.expirations, key, at) else r.expirations)
  }

  /** The parent's `incr`. */
  function Counted(s: Store, h: Hit): Store {
    Added(Refreshed(s, h.key, h.read), h.key, h.amount, h.armed + h.expiry)
  }

  function Swept(s: Store, now: int): Store {
    Store(s.storage - (KeySet(s.expirations) - KeySet(Kept(s.expirations, now))), Kept(s.expirations, now))
  }

  function Trimmed(s: Store, cap: nat): Store
    decreases |s.expirations|
  {
    if |s.storage| <= cap || s.expirations == [] then s
    else WithoutShrinks(s.expirations); Trimmed(Cleared(s, s.expirations[0].key), cap)
  }

  function Incremented(s: Store, h: Hit, cap: nat): Store { Trimmed(Swept(Counted(s, h), h.swept), cap) }

  // ------------------------------------------------------------------ lemmas about the dict

  predicate Valid(s: Store) { Distinct(s.expirations) && s.storage.Keys == KeySet(s.expirations) }

  lemma WithoutShrinks(es: seq<Entry>)
    requires es != []
    ensures |Without(es, es[0].key)| < |es|
  {
    WithoutBound(es[1..], es[0].key);
  }

  lemma {:induction false} WithoutBound(es: seq<Entry>, key: Key)
    ensures |Without(es, key)| <= |es|
  {
    if es != [] { WithoutBound(es[1..], key); }
  }

  lemma {:induction false} DistinctSize(es: seq<Entry>)
    requires Distinct(es)
    ensures |KeySet(es)| == |es|
  {
    if es == [] {
      assert KeySet(es) == {};
    } else {
      var n := |es| - 1;
      DistinctSize(es[..n]);
      assert KeySet(es) == KeySet(es[..n]) + {es[n].key};
    }
  }

  /** `kept` is `es` thinned out, order kept. */
  predicate Thins(kept: seq<Entry>, es: seq<Entry>) {
    if kept == [] then true
    else if es == [] then false
    else if kept[0] == es[0] then Thins(kept[1..], es[1..]) else Thins(kept, es[1..])
  }

  lemma {:induction false} ThinsOrder(kept: seq<Entry>, es: seq<Entry>, i: nat, j: nat) returns (a: nat, b: nat)
    requires Thins(kept, es) && i < j < |kept|
    ensures a < b < |es| && es[a] == kept[i] && es[b] == kept[j]
  {
    if kept[0] == es[0] {
      if i == 0 {
        b := ThinsFinds(kept[1..], es[1..], j - 1);
        return 0, b + 1;
      }
      a, b := ThinsOrder(kept[1..], es[1..], i - 1, j - 1);
    } else {
      a, b := ThinsOrder(kept, es[1..], i, j);
    }
    a, b := a + 1, b + 1;
  }

  lemma {:induction false} ThinsFinds(kept: seq<Entry>, es: seq<Entry>, j: nat) returns (b: nat)
    requires Thins(kept, es) && j < |kept|
    ensures b < |es| && es[b] == kept[j]
  {
    if kept[0] == es[0] {
      if j == 0 { return 0; }
      b := ThinsFinds(kept[1..], es[1..], j - 1);
    } else {
      b := ThinsFinds(kept, es[1..], j);
    }
    b := b + 1;
  }

  lemma {:induction false} WithoutExactly(es: seq<Entry>, key: Key)
    ensures forall e :: e in Without(es, key) <==> e in es && e.key != key
    ensures Thins(Without(es, key), es)
  {
    if es != [] {
      var rest := Without(es[1..], key);
      WithoutExactly(es[1..], key);
      if es[0].key == key {
        assert Without(es, key) == rest;
        assert rest == [] || rest[0] in rest;
      } else {
        assert Without(es, key)[1..] == rest;
      }
    }
  }

  lemma {:induction false} KeptExactly(es: seq<Entry>, now: int)
    ensures forall e :: e in Kept(es, now) <==> e in es && e.at > now
    ensures Thins(Kept(es, now), es)
  {
    if es != [] {
      var rest := Kept(es[1..], now);
      KeptExactly(es[1..], now);
      if es[0].at <= now {
        assert Kept(es, now) == rest;
        assert rest == [] || rest[0] in rest;
      } else {
        assert Kept(es, now)[1..] == rest;
      }
    }
  }

  lemma ThinsDistinct(kept: seq<Entry>, es: seq<Entry>)
    requires Thins(kept, es) && Distinct(es)
    ensures Distinct(kept)
  {
    forall i, j | 0 <= i < j < |kept| ensures kept[i].key != kept[j].key {
      var a, b := ThinsOrder(kept, es, i, j);
    }
  }

  lemma {:induction false} WithoutNone(es: seq<Entry>, key: Key)
    requires key !in KeySet(es)
    ensures Without(es, key) == es
  {
    if es != [] {
      TailKeys(es);
      WithoutNone(es[1..], key);
    }
  }

  lemma WithoutFirst(es: seq<Entry>)
    requires es != [] && Distinct(es)
    ensures Without(es, es[0].key) == es[1..] && KeySet(es[1..]) == KeySet(es) - {es[0].key} && Distinct(es[1..])
  {
    DistinctTail(es);
    WithoutNone(es[1..], es[0].key);
  }

  lemma DistinctTail(es: seq<Entry>)
    requires es != [] && Distinct(es)
    ensures es[0].key !in KeySet(es[1..]) && KeySet(es[1..]) == KeySet(es) - {es[0].key} && Distinct(es[1..])
  {
    var tail := es[1..];
    TailKeys(es);
    forall i | 0 <= i < |tail| ensures tail[i].key != es[0].key { assert tail[i] == es[i + 1]; }
  }

  lemma WithoutKeys(es: seq<Entry>, key: Key)
    ensures KeySet(Without(es, key)) == KeySet(es) - {key}
  {
    WithoutExactly(es, key);
    SameKeys(Without(es, key), es, key);
  }

  lemma SameKeys(less: seq<Entry>, es: seq<Entry>, key: Key)
    requires forall e :: e in less <==> e in es && e.key != key
    ensures KeySet(less) == KeySet(es) - {key}
  {
    forall k | k in KeySet(less) ensures k in KeySet(es) - {key} {
      var i :| 0 <= i < |less| && less[i].key == k;
      assert less[i] in less;
    }
    forall k | k in KeySet(es) - {key} ensures k in KeySet(less) {
      var i :| 0 <= i < |es| && es[i].key == k;
      assert es[i] in less;
    }
  }

  /** Assigning to a key keeps the places of all the others, and puts a new one last. */
  lemma {:induction false} PutExactly(es: seq<Entry>, key: Key, at: int)
    ensures var p := Put(es, key, at);
      && |p| == (if key in KeySet(es) then |es| else |es| + 1)
      && (forall i :: 0 <= i < |es| ==> p[i].key == es[i].key && (es[i].key != key ==> p[i] == es[i]))
      && (key !in KeySet(es) ==> p == es + [Entry(key, at)])
  {
    if es != [] {
      TailKeys(es);
      PutExactly(es[1..], key, at);
    }
  }

  lemma {:induction false} PutFinds(es: seq<Entry>, key: Key, at: int, k: Key)
    ensures Find(Put(es, key, at), k) == if k == key then Some(at) else Find(es, k)
  {
    if es != [] && es[0].key != key {
      PutFinds(es[1..], key, at, k);
      assert Put(es, key, at)[1..] == Put(es[1..], key, at);
    }
  }

  lemma PutKeys(es: seq<Entry>, key: Key, at: int)
    ensures KeySet(Put(es, key, at)) == KeySet(es) + {key}
    ensures Distinct(es) ==> Distinct(Put(es, key, at))
  {
    PutExactly(es, key, at);
    var p := Put(es, key, at);
    forall k ensures k in KeySet(p) <==> k in KeySet(es) + {key} { PutFinds(es, key, at, k); }
  }

  // ------------------------------------------------------------------ one hit

  lemma ClearedValid(s: Store, key: Key)
    requires Valid(s)
    ensures Valid(Cleared(s, key))
  {
    WithoutKeys(s.expirations, key);
    WithoutExactly(s.expirations, key);
    ThinsDistinct(Without(s.expirations, key), s.expirations);
  }

  lemma CountedValid(s: Store, h: Hit)
    requires Valid(s)
    ensures Valid(Counted(s, h))
  {
    calc {
      Valid(s);
    ==> { RefreshedValid(s, h.key, h.read); }
      Valid(Refreshed(s, h.key, h.read));
    ==> { AddedValid(Refreshed(s, h.key, h.read), h.key, h.amount, h.armed + h.expiry); }
      Valid(Added(Refreshed(s, h.key, h.read), h.key, h.amount, h.armed + h.expiry));
      Valid(Counted(s, h));
    }
  }

  lemma RefreshedValid(s: Store, key: Key, now: int)
    requires Valid(s)
    ensures Valid(Refreshed(s, key, now))
  {
    ClearedValid(s, key);
  }

  /** Adding to a counter keeps the keys of both dicts the same. */
  lemma AddedValid(r: Store, key: Key, amount: int, at: int)
    requires Valid(r)
    ensures Valid(Added(r, key, amount, at))
  {
    PutKeys(r.expirations, key, at);
  }

  predicate Open(s: Store, key: Key, now: int)
    requires Valid(s) && key in s.storage
  {
    Find(s.expirations, key).value > now
  }

  lemma {:induction false} FindsTheOne(es: seq<Entry>, e: Entry)
    requires Distinct(es) && e in es
    ensures Find(es, e.key) == Some(e.at)
  {
    if es[0] != e {
      var i :| 0 <= i < |es| && es[i] == e;
      assert es[1..][i - 1] == e;
      FindsTheOne(es[1..], e);
    }
  }

  /** The sweep drops exactly the counters whose window has closed. */
  lemma SweepsExactlyTheClosed(s: Store, now: int)
    requires Valid(s)
    ensures
      var t := Swept(s, now);
      && Valid(t)
      && (forall k :: k in t.storage <==> k in s.storage && Open(s, k, now))
      && (forall k :: k in t.storage ==>
            t.storage[k] == s.storage[k] && Find(t.expirations, k) == Find(s.expirations, k))
  {
    var es, kept := s.expirations, Kept(s.expirations, now);
    KeptExactly(es, now);
    ThinsDistinct(kept, es);
    forall i | 0 <= i < |kept|
      ensures Find(es, kept[i].key) == Some(kept[i].at) == Find(kept, kept[i].key) && kept[i].key in KeySet(es)
    {
      FindsTheOne(es, kept[i]);
      FindsTheOne(kept, kept[i]);
    }
    forall i | 0 <= i < |es| && es[i].at > now ensures es[i].key in KeySet(kept) {
      assert es[i] in kept;
    }
  }

  lemma SizeIsEntries(s: Store)
    requires Valid(s)
    ensures |s.storage| == |s.expirations|
  {
    DistinctSize(s.expirations);
    assert |s.storage| == |s.storage.Keys|;
  }

  lemma DropsFirst(s: Store)
    requires Valid(s) && s.expirations != []
    ensures
      var t := Cleared(s, s.expirations[0].key);
      && Valid(t) && t.expirations == s.expirations[1..] && |t.storage| == |s.storage| - 1 == |s.expirations| - 1
      && (forall k :: k in t.storage ==> k in s.storage && t.storage[k] == s.storage[k])
  {
    WithoutFirst(s.expirations);
    ClearedValid(s, s.expirations[0].key);
    SizeIsEntries(s);
    SizeIsEntries(Cleared(s, s.expirations[0].key));
  }

  predicate Suffix(t: seq<Entry>, es: seq<Entry>) { |t| <= |es| && t == es[|es| - |t|..] }

  lemma SuffixOfRest(t: seq<Entry>, es: seq<Entry>)
    requires es != [] && Suffix(t, es[1..])
    ensures Suffix(t, es)
  {
    assert es[1..][|es| - 1 - |t|..] == es[|es| - |t|..];
  }

  /** Over the cap, the loop drops the oldest entries, one by one, down to the cap. */
  lemma {:induction false} TrimsTheOldest(s: Store, cap: nat)
    requires Valid(s)
    ensures
      var t := Trimmed(s, cap);
      && Valid(t) && |t.storage| == (if |s.storage| > cap then cap else |s.storage|)
      && Suffix(t.expirations, s.expirations)
      && (forall k :: k in t.storage ==> k in s.storage && t.storage[k] == s.storage[k])
    decreases |s.expirations|
  {
    SizeIsEntries(s);
    if |s.storage| > cap {
      var next := Cleared(s, s.expirations[0].key);
      DropsFirst(s);
      TrimsTheOldest(next, cap);
      assert Trimmed(s, cap) == Trimmed(next, cap);
      SuffixOfRest(Trimmed(next, cap).expirations, s.expirations);
    }
  }

  lemma {:induction false} ThinsLength(kept: seq<Entry>, es: seq<Entry>)
    requires Thins(kept, es)
    ensures |kept| <= |es|
  {
    if kept != [] {
      if kept[0] == es[0] { ThinsLength(kept[1..], es[1..]); } else { ThinsLength(kept, es[1..]); }
    }
  }

  /** The counters a hit leaves open, before the cap is enforced. */
  function Live(s: Store, h: Hit): Store { Swept(Counted(s, h), h.swept) }

  lemma RefreshedOrder(s: Store, key: Key, now: int)
    requires Valid(s)
    ensures
      var r := Refreshed(s, key, now);
      Valid(r) && Thins(r.expirations, s.expirations) && (key in r.storage ==> r == s)
  {
    ClearedValid(s, key);
    WithoutExactly(s.expirations, key);
    ThinsItself(s.expirations);
  }

  /** A new counter is the last in the order; an old one keeps its place. */
  lemma CountedOrder(s: Store, h: Hit)
    requires Valid(s)
    ensures
      var r := Refreshed(s, h.key, h.read);
      if h.key in r.storage then |Counted(s, h).expirations| == |r.expirations|
      else Counted(s, h).expirations == r.expirations + [Entry(h.key, h.armed + h.expiry)]
  {
    RefreshedOrder(s, h.key, h.read);
    PutExactly(Refreshed(s, h.key, h.read).expirations, h.key, h.armed + h.expiry);
  }

  lemma {:induction false} ThinsItself(es: seq<Entry>)
    ensures Thins(es, es)
  {
    if es != [] { ThinsItself(es[1..]); }
  }

  lemma NewestIsNotOldest(s: Store, h: Hit)
    requires Valid(s) && |Live(s, h).expirations| > |s.expirations| > 0
    ensures Live(s, h).expirations[0].key != h.key
  {
    CountedOrder(s, h);
    RefreshedOrder(s, h.key, h.read);
    CountedValid(s, h);
    var live, all := Live(s, h).expirations, Counted(s, h).expirations;
    KeptExactly(all, h.swept);
    ThinsLength(live, all);
    ThinsLength(Refreshed(s, h.key, h.read).expirations, s.expirations);
    var a, b := ThinsOrder(live, all, 0, 1);
    assert all[|all| - 1].key == h.key;
  }

  /** One hit on a store within its cap: at most one open counter is evicted, the oldest, never the one just
      counted, which survives exactly when its own window is still open at the sweep. */
  lemma OneHit(s: Store, h: Hit, cap: nat)
    requires Valid(s) && |s.storage| <= cap && 1 <= cap
    ensures
      var live, t := Live(s, h), Incremented(s, h, cap);
      && Valid(t) && |t.storage| <= cap && Valid(Counted(s, h))
      && (t == live || (live.expirations != [] && live.expirations[0].key != h.key
                        && t == Cleared(live, live.expirations[0].key)))
      && (h.key in t.storage <==> Open(Counted(s, h), h.key, h.swept))
      && (forall k :: k in t.storage ==> k in Counted(s, h).storage && t.storage[k] == Counted(s, h).storage[k])
  {
    var live := Live(s, h);
    CountedValid(s, h);
    SweepsExactlyTheClosed(Counted(s, h), h.swept);
    HitGrowsByOne(s, h);
    SizeIsEntries(s);
    SizeIsEntries(live);
    if |live.storage| > cap {
      NewestIsNotOldest(s, h);
      var next := Cleared(live, live.expirations[0].key);
      ClearedValid(live, live.expirations[0].key);
      WithoutFirst(live.expirations);
      SizeIsEntries(next);
      assert Trimmed(live, cap) == Trimmed(next, cap) == next;
    }
  }

  lemma HitGrowsByOne(s: Store, h: Hit)
    requires Valid(s)
    ensures |Live(s, h).expirations| <= |Counted(s, h).expirations| <= |s.expirations| + 1
  {
    CountedOrder(s, h);
    RefreshedOrder(s, h.key, h.read);
    KeptExactly(Counted(s, h).expirations, h.swept);
    ThinsLength(Live(s, h).expirations, Counted(s, h).expirations);
    ThinsLength(Refreshed(s, h.key, h.read).expirations, s.expirations);
  }

  lemma CountedIsOpen(s: Store, h: Hit)
    requires Valid(s) && h.armed + h.expiry > h.read
    ensures var at := Find(Counted(s, h).expirations, h.key); at.Some? && at.value > h.read
  {
    var at := Find(s.expirations, h.key);
    var r := Refreshed(s, h.key, h.read);
    PutFinds(r.expirations, h.key, h.armed + h.expiry, h.key);
    if at.Some? && at.value > h.read { assert r == s; } else { assert Value(r, h.key) == 0; }
  }

  /** With a clock that does not move during the hit and a positive expiry, the hit is always on record. */
  lemma FrozenClockKeepsTheHit(s: Store, h: Hit, cap: nat)
    requires Valid(s) && |s.storage| <= cap && 1 <= cap
    requires h.read == h.armed == h.swept && h.expiry > 0
    ensures h.key in Incremented(s, h, cap).storage
  {
    CountedIsOpen(s, h);
    HitSurvivesIfOpen(s, h, cap);
  }

  lemma HitSurvivesIfOpen(s: Store, h: Hit, cap: nat)
    requires Valid(s) && |s.storage| <= cap && 1 <= cap
    ensures
      var at := Find(Counted(s, h).expirations, h.key);
      at.Some? && (h.key in Incremented(s, h, cap).storage <==> at.value > h.swept)
  {
    OneHit(s, h, cap);
    CountedValid(s, h);
  }

  // ------------------------------------------------------------------ any sequence of hits

  function Serve(cap: nat, hits: seq<Hit>): Store {
    if hits == [] then Store(map[], []) else Incremented(Serve(cap, hits[..|hits| - 1]), hits[|hits| - 1], cap)
  }

  /** The last hit found no open counter for its key. */
  predicate Opens(cap: nat, hits: seq<Hit>)
    requires hits != []
  {
    var n := |hits| - 1;
    hits[n].key !in Refreshed(Serve(cap, hits[..n]), hits[n].key, hits[n].read).storage
  }

  /** The hit that last opened `key`'s counter. */
  function Since(cap: nat, hits: seq<Hit>, key: Key): nat {
    if hits == [] then 0
    else
      var n := |hits| - 1;
      if hits[n].key == key && Opens(cap, hits) then n
      else Since(cap, hits[..n], key)
  }

  /** What was added to `key` from hit `from` on. */
  function Total(hits: seq<Hit>, key: Key, from: nat): int
    decreases |hits|
  {
    if |hits| <= from then 0
    else Total(hits[..|hits| - 1], key, from) + if hits[|hits| - 1].key == key then hits[|hits| - 1].amount else 0
  }

  /** The store keeps the same keys in both dicts and never exceeds its cap. */
  lemma {:induction false} CapHolds(cap: nat, hits: seq<Hit>)
    requires 1 <= cap
    ensures Valid(Serve(cap, hits)) && |Serve(cap, hits).storage| <= cap
  {
    if hits == [] {
      assert Serve(cap, hits).storage.Keys == KeySet([]);
    } else {
      var n := |hits| - 1;
      CapHolds(cap, hits[..n]);
      OneHit(Serve(cap, hits[..n]), hits[n], cap);
    }
  }

  /** What the last hit did to a counter still on record. */
  lemma LastHit(cap: nat, hits: seq<Hit>, key: Key)
    requires 1 <= cap && hits != [] && key in Serve(cap, hits).storage
    ensures
      var n := |hits| - 1;
      var before, added := Serve(cap, hits[..n]).storage, if hits[n].key == key then hits[n].amount else 0;
      if hits[n].key == key && Opens(cap, hits) then Serve(cap, hits).storage[key] == added
      else key in before && Serve(cap, hits).storage[key] == before[key] + added
  {
    var n := |hits| - 1;
    CapHolds(cap, hits[..n]);
    CountsSurvive(Serve(cap, hits[..n]), hits[n], cap, key);
  }

  lemma CountsSurvive(s: Store, h: Hit, cap: nat, key: Key)
    requires Valid(s) && |s.storage| <= cap && 1 <= cap && key in Incremented(s, h, cap).storage
    ensures
      var r := Refreshed(s, h.key, h.read);
      var added := if h.key == key then h.amount else 0;
      if key in r.storage then key in s.storage && Incremented(s, h, cap).storage[key] == s.storage[key] + added
      else key == h.key && Incremented(s, h, cap).storage[key] == added
  {
    OneHit(s, h, cap);
  }

  /** A counter on record is the sum of what was added since the hit that opened it. */
  lemma {:induction false} CountersAreExact(cap: nat, hits: seq<Hit>, key: Key)
    requires 1 <= cap && key in Serve(cap, hits).storage
    ensures
      var since := Since(cap, hits, key);
      since < |hits| && hits[since].key == key && Serve(cap, hits).storage[key] == Total(hits, key, since)
  {
    var n := |hits| - 1;
    LastHit(cap, hits, key);
    if hits[n].key != key || !Opens(cap, hits) { CountersAreExact(cap, hits[..n], key); }
  }

  lemma OlderSince(cap: nat, hits: seq<Hit>, key: Key)
    requires hits != [] && Since(cap, hits, key) < |hits| - 1
    ensures Since(cap, hits[..|hits| - 1], key) == Since(cap, hits, key)
    ensures !(hits[|hits| - 1].key == key && Opens(cap, hits))
  {
  }

  lemma WasOnRecord(cap: nat, hits: seq<Hit>, key: Key)
    requires 1 <= cap && hits != [] && key in Serve(cap, hits).storage && Since(cap, hits, key) < |hits| - 1
    ensures key in Serve(cap, hits[..|hits| - 1]).storage
    ensures Since(cap, hits[..|hits| - 1], key) == Since(cap, hits, key)
  {
    OlderSince(cap, hits, key);
    LastHit(cap, hits, key);
  }

  /** And it has been on record ever since. */
  lemma {:induction false} OnRecordSince(cap: nat, hits: seq<Hit>, key: Key, m: nat)
    requires 1 <= cap && key in Serve(cap, hits).storage && Since(cap, hits, key) < m <= |hits|
    ensures key in Serve(cap, hits[..m]).storage
  {
    ShorterPrefix(hits, m);
    if m < |hits| {
      WasOnRecord(cap, hits, key);
      OnRecordSince(cap, hits[..|hits| - 1], key, m);
    }
  }

  lemma ShorterPrefix(hits: seq<Hit>, m: nat)
    requires m <= |hits|
    ensures if m == |hits| then hits[..m] == hits else hits[..|hits| - 1][..m] == hits[..m]
  {
  }

  /** When each counter was opened. */
  function Births(cap: nat, hits: seq<Hit>): Key -> nat { k => Since(cap, hits, k) }

  predicate OldestFirst(es: seq<Entry>, born: Key -> nat) {
    forall i, j :: 0 <= i < j < |es| ==> born(es[i].key) < born(es[j].key)
  }

  lemma ThinsOldestFirst(kept: seq<Entry>, es: seq<Entry>, born: Key -> nat)
    requires Thins(kept, es) && OldestFirst(es, born)
    ensures OldestFirst(kept, born)
  {
    forall i, j | 0 <= i < j < |kept| ensures born(kept[i].key) < born(kept[j].key) {
      var a, b := ThinsOrder(kept, es, i, j);
    }
  }

  /** A hit moves no other counter's birth, and opens its own last. */
  lemma ExtendsOldestFirst(es: seq<Entry>, all: seq<Entry>, was: Key -> nat, born: Key -> nat, n: nat)
    requires OldestFirst(es, was) && forall i :: 0 <= i < |es| ==> born(es[i].key) == was(es[i].key) < n
    requires |es| <= |all| <= |es| + 1 && forall i :: 0 <= i < |es| ==> all[i].key == es[i].key
    requires |es| < |all| ==> born(all[|es|].key) == n
    ensures OldestFirst(all, born)
  {
  }

  lemma RefreshedKeeps(s: Store, h: Hit, key: Key)
    requires Valid(s) && key in KeySet(Refreshed(s, h.key, h.read).expirations)
    ensures key in s.storage && key in Refreshed(s, h.key, h.read).storage
  {
    RefreshedOrder(s, h.key, h.read);
  }

  /** Before the last hit adds its own entry. */
  lemma BirthsStay(cap: nat, hits: seq<Hit>, key: Key)
    requires 1 <= cap && hits != []
    requires
      var n := |hits| - 1;
      key in KeySet(Refreshed(Serve(cap, hits[..n]), hits[n].key, hits[n].read).expirations)
    ensures Since(cap, hits, key) == Since(cap, hits[..|hits| - 1], key) < |hits| - 1
  {
    var n := |hits| - 1;
    CapHolds(cap, hits[..n]);
    RefreshedKeeps(Serve(cap, hits[..n]), hits[n], key);
    CountersAreExact(cap, hits[..n], key);
  }

  lemma NewEntryIsLast(s: Store, h: Hit) returns (es: seq<Entry>, all: seq<Entry>)
    requires Valid(s)
    ensures es == Refreshed(s, h.key, h.read).expirations && Thins(es, s.expirations)
    ensures all == Counted(s, h).expirations
    ensures |es| <= |all| <= |es| + 1 && forall i :: 0 <= i < |es| ==> all[i].key == es[i].key
    ensures |es| < |all| ==> all[|es|].key == h.key && h.key !in Refreshed(s, h.key, h.read).storage
  {
    RefreshedOrder(s, h.key, h.read);
    es, all := Refreshed(s, h.key, h.read).expirations, Counted(s, h).expirations;
    PutExactly(es, h.key, h.armed + h.expiry);
  }

  lemma CountedOldestFirst(cap: nat, hits: seq<Hit>)
    requires 1 <= cap && hits != []
    requires OldestFirst(Serve(cap, hits[..|hits| - 1]).expirations, Births(cap, hits[..|hits| - 1]))
    ensures OldestFirst(Counted(Serve(cap, hits[..|hits| - 1]), hits[|hits| - 1]).expirations, Births(cap, hits))
  {
    var n := |hits| - 1;
    var was, born := Births(cap, hits[..n]), Births(cap, hits);
    CapHolds(cap, hits[..n]);
    var es, all := NewEntryIsLast(Serve(cap, hits[..n]), hits[n]);
    ThinsOldestFirst(es, Serve(cap, hits[..n]).expirations, was);
    forall i | 0 <= i < |es| ensures born(es[i].key) == was(es[i].key) < n {
      assert es[i].key in KeySet(es);
      BirthsStay(cap, hits, es[i].key);
    }
    ExtendsOldestFirst(es, all, was, born, n);
  }

  lemma LiveOldestFirst(cap: nat, hits: seq<Hit>)
    requires 1 <= cap && hits != []
    requires OldestFirst(Serve(cap, hits[..|hits| - 1]).expirations, Births(cap, hits[..|hits| - 1]))
    ensures OldestFirst(Live(Serve(cap, hits[..|hits| - 1]), hits[|hits| - 1]).expirations, Births(cap, hits))
  {
    var n := |hits| - 1;
    var s, h := Serve(cap, hits[..n]), hits[n];
    CountedOldestFirst(cap, hits);
    KeptExactly(Counted(s, h).expirations, h.swept);
    ThinsOldestFirst(Live(s, h).expirations, Counted(s, h).expirations, Births(cap, hits));
  }

  lemma LiveValid(s: Store, h: Hit)
    requires Valid(s)
    ensures Valid(Live(s, h))
  {
    CountedValid(s, h);
    SweepsExactlyTheClosed(Counted(s, h), h.swept);
  }

  lemma TrimsToOne(s: Store, h: Hit, cap: nat)
    requires Valid(s) && |s.storage| <= cap && 1 <= cap
    ensures
      var live, t := Live(s, h), Incremented(s, h, cap);
      t == live || (live.expirations != [] && t.storage == live.storage - {live.expirations[0].key})
  {
    OneHit(s, h, cap);
  }

  lemma LiveTail(s: Store, h: Hit, cap: nat)
    requires Valid(s)
    ensures
      var live, t := Live(s, h).expirations, Incremented(s, h, cap).expirations;
      |t| <= |live| && t == live[|live| - |t|..]
  {
    LiveValid(s, h);
    TrimsTheOldest(Live(s, h), cap);
  }

  /** The order of the expirations is the order in which the counters were opened. */
  lemma {:induction false} EntriesAreOldestFirst(cap: nat, hits: seq<Hit>)
    requires 1 <= cap
    ensures OldestFirst(Serve(cap, hits).expirations, Births(cap, hits))
  {
    if hits != [] {
      var n := |hits| - 1;
      EntriesAreOldestFirst(cap, hits[..n]);
      LiveOldestFirst(cap, hits);
      CapHolds(cap, hits[..n]);
      LiveTail(Serve(cap, hits[..n]), hits[n], cap);
    }
  }

  /** The last hit put an open counter out to keep the cap. */
  predicate Evicts(cap: nat, hits: seq<Hit>, key: Key) {
    && hits != []
    && key in Live(Serve(cap, hits[..|hits| - 1]), hits[|hits| - 1]).storage && key !in Serve(cap, hits).storage
  }

  /** What the last hit evicts was opened before every counter it leaves. */
  lemma EvictsTheOldest(cap: nat, hits: seq<Hit>, gone: Key, left: Key)
    requires 1 <= cap
    ensures Evicts(cap, hits, gone) && left in Serve(cap, hits).storage ==>
              Since(cap, hits, gone) < Since(cap, hits, left)
  {
    if Evicts(cap, hits, gone) && left in Serve(cap, hits).storage {
      var n := |hits| - 1;
      EntriesAreOldestFirst(cap, hits[..n]);
      LiveOldestFirst(cap, hits);
      CapHolds(cap, hits[..n]);
      var j := GoneIsFirst(Serve(cap, hits[..n]), hits[n], cap, gone, left);
    }
  }

  lemma GoneIsFirst(s: Store, h: Hit, cap: nat, gone: Key, left: Key) returns (j: nat)
    requires Valid(s) && |s.storage| <= cap && 1 <= cap
    requires gone in Live(s, h).storage && gone !in Incremented(s, h, cap).storage
    requires left in Incremented(s, h, cap).storage
    ensures var es := Live(s, h).expirations; 0 < j < |es| && es[0].key == gone && es[j].key == left
  {
    assert Valid(Live(s, h)) by { LiveValid(s, h); }
    assert Live(s, h) != Incremented(s, h, cap);
    TrimsToOne(s, h, cap);
    j := OthersComeLater(Live(s, h), gone, left);
  }

  lemma OthersComeLater(s: Store, gone: Key, left: Key) returns (j: nat)
    requires Valid(s) && s.expirations != [] && s.expirations[0].key == gone && left in s.storage && left != gone
    ensures 0 < j < |s.expirations| && s.expirations[j].key == left
  {
    assert left in KeySet(s.expirations);
    j :| 0 <= j < |s.expirations| && s.expirations[j].key == left;
  }
}
