/** The counter store as an object, its loops proved against the functions of RateLimit. */
module CounterStore {
  import opened RateLimit

  lemma WithoutMiddle(kept: seq<Entry>, e: Entry, rest: seq<Entry>)
    requires e.key !in KeySet(kept) && e.key !in KeySet(rest)
    ensures Without(kept + ([e] + rest), e.key) == kept + rest
  {
    WithoutJoins(kept, [e] + rest, e.key);
    WithoutNone(kept, e.key);
    calc {
      Without([e] + rest, e.key);
      { assert ([e] + rest)[1..] == rest; }
      [] + Without(rest, e.key);
      { WithoutNone(rest, e.key); }
      rest;
    }
  }

  lemma {:induction false} WithoutJoins(a: seq<Entry>, b: seq<Entry>, key: Key)
    ensures Without(a + b, key) == Without(a, key) + Without(b, key)
  {
    if a == [] {
      assert a + b == b;
    } else {
      var head := if a[0].key == key then [] else [a[0]];
      calc {
        Without(a + b, key);
        { assert (a + b)[0] == a[0] && (a + b)[1..] == a[1..] + b; }
        head + Without(a[1..] + b, key);
        { WithoutJoins(a[1..], b, key); }
        head + (Without(a[1..], key) + Without(b, key));
        (head + Without(a[1..], key)) + Without(b, key);
        Without(a, key) + Without(b, key);
      }
    }
  }

  lemma {:induction false} KeptGrows(es: seq<Entry>, e: Entry, now: int)
    ensures Kept(es + [e], now) == Kept(es, now) + if e.at <= now then [] else [e]
  {
    if es == [] {
      assert es + [e] == [e];
    } else {
      assert (es + [e])[1..] == es[1..] + [e];
      KeptGrows(es[1..], e, now);
    }
  }

  function Dead(es: seq<Entry>, now: int): set<Key> { KeySet(es) - KeySet(Kept(es, now)) }

  lemma DeadGrows(seen: seq<Entry>, e: Entry, now: int)
    requires e.key !in KeySet(seen)
    ensures Dead(seen + [e], now) == Dead(seen, now) + if e.at <= now then {e.key} else {}
    ensures e.key !in KeySet(Kept(seen, now))
  {
    var kept := Kept(seen, now);
    KeptGrows(seen, e, now);
    KeptExactly(seen, now);
    LastKeys(seen, e);
    LastKeys(kept, e);
    forall k | k in KeySet(kept) ensures k in KeySet(seen) {
      var j :| 0 <= j < |kept| && kept[j].key == k;
      assert kept[j] in seen;
    }
    assert kept + [] == kept;
  }

  /** The store after the sweep has looked at the first `i` keys of its snapshot. */
  function SweptTo(s: Store, i: nat, now: int): Store
    requires i <= |s.expirations|
  {
    Store(s.storage - Dead(s.expirations[..i], now), Kept(s.expirations[..i], now) + s.expirations[i..])
  }

  lemma SweptToNext(s: Store, i: nat, now: int)
    requires Valid(s) && i < |s.expirations|
    ensures
      var e := s.expirations[i];
      SweptTo(s, i + 1, now) == if e.at <= now then Cleared(SweptTo(s, i, now), e.key) else SweptTo(s, i, now)
  {
    var es := s.expirations;
    var seen, e, rest := es[..i], es[i], es[i + 1..];
    assert es[..i + 1] == seen + [e];
    assert es[i..] == [e] + rest;
    assert e.key !in KeySet(seen) && e.key !in KeySet(rest);
    DeadGrows(seen, e, now);
    KeptGrows(seen, e, now);
    var kept := Kept(seen, now);
    assert kept + ([e] + rest) == kept + [e] + rest;
    if e.at <= now {
      WithoutMiddle(kept, e, rest);
      assert Kept(es[..i + 1], now) + rest == kept + rest;
      assert (s.storage - Dead(seen, now)) - {e.key} == s.storage - Dead(es[..i + 1], now);
    }
  }

  lemma LastKeys(es: seq<Entry>, e: Entry)
    ensures KeySet(es + [e]) == KeySet(es) + {e.key}
  {
    var all := es + [e];
    forall i | 0 <= i < |es| ensures es[i].key in KeySet(all) { assert all[i] == es[i]; }
    assert all[|es|] == e;
  }

  lemma SweptToAll(s: Store, now: int)
    ensures SweptTo(s, |s.expirations|, now) == Swept(s, now)
  {
    var es := s.expirations;
    assert es[..|es|] == es;
    assert Kept(es, now) + es[|es|..] == Kept(es, now);
  }

  class Counters {
    var storage: map<Key, int>
    var expirations: seq<Entry>
    const maxKeys: nat

    function State(): Store
      reads this
    {
      Store(storage, expirations)
    }

    constructor (cap: nat)
      ensures State() == Serve(cap, []) && maxKeys == cap
    {
      storage, expirations, maxKeys := map[], [], cap;
    }

    method Clear(key: Key)
      modifies this
      ensures State() == Cleared(old(State()), key)
    {
      storage, expirations := storage - {key}, Without(expirations, key);
    }

    /** The parent's `get`: a closed window is dropped before it is read. */
    method Get(key: Key, now: int) returns (value: int)
      modifies this
      ensures State() == Refreshed(old(State()), key, now) && value == Value(State(), key)
    {
      var at := Find(expirations, key);
      if at.None? || at.value <= now { Clear(key); }
      value := if key in storage then storage[key] else 0;
    }

    /** The parent's `incr`. */
    method Count(h: Hit) returns (value: int)
      modifies this
      ensures State() == Counted(old(State()), h) && value == Value(State(), h.key)
    {
      value := Get(h.key, h.read);
      value := value + h.amount;
      storage := storage[h.key := value];
      if value == h.amount { expirations := Put(expirations, h.key, h.armed + h.expiry); }
    }

    method Sweep(now: int)
      requires Valid(State())
      modifies this
      ensures State() == Swept(old(State()), now) && Valid(State())
    {
      var keys := expirations;
      ghost var was := State();
      for i := 0 to |keys|
        invariant State() == SweptTo(was, i, now)
      {
        SweptToNext(was, i, now);
        if keys[i].at <= now { Clear(keys[i].key); }
      }
      SweptToAll(was, now);
      SweepsExactlyTheClosed(was, now);
    }

    method EnforceCap(now: int)
      requires Valid(State())
      modifies this
      ensures State() == Trimmed(Swept(old(State()), now), maxKeys) && Valid(State())
    {
      Sweep(now);
      ghost var swept := State();
      while |storage| > maxKeys
        invariant Valid(State()) && Trimmed(State(), maxKeys) == Trimmed(swept, maxKeys)
        decreases |expirations|
      {
        if expirations == [] { break; }
        DropsFirst(State());
        Clear(expirations[0].key);
      }
    }

    /** One hit, the answer being the count before the cap is enforced. */
    method Incr(h: Hit) returns (value: int)
      requires Valid(State())
      modifies this
      ensures State() == Incremented(old(State()), h, maxKeys) && Valid(State())
      ensures value == Value(Counted(old(State()), h), h.key)
    {
      CountedValid(State(), h);
      value := Count(h);
      EnforceCap(h.swept);
    }
  }
}
