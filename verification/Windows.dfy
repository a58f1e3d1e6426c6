/** The windows of the rate-limit counters: when one opens, when it closes, and what a hit is answered. */
module Windows {
  import opened Text
  import opened RateLimit

  /** The store the last hit finds. */
  function Found(cap: nat, hits: seq<Hit>): Store
    requires hits != []
  {
    Serve(cap, hits[..|hits| - 1])
  }

  lemma ClosedOrOpen(s: Store, key: Key, now: int)
    requires Valid(s)
    ensures key in Refreshed(s, key, now).storage <==> exists e :: e in s.expirations && e.key == key && e.at > now
  {
    RefreshedOrder(s, key, now);
    var at := Find(s.expirations, key);
    if at.Some? {
      forall e | e in s.expirations && e.key == key ensures e.at == at.value { FindsTheOne(s.expirations, e); }
      assert Entry(key, at.value) in s.expirations;
    } else {
      forall e | e in s.expirations ensures e.key != key {
        var i :| 0 <= i < |s.expirations| && s.expirations[i] == e;
        assert e.key in KeySet(s.expirations);
      }
    }
  }

  /** A hit opens a window exactly when none of its key is open at the time it is read. */
  lemma OpensExactly(cap: nat, hits: seq<Hit>)
    requires 1 <= cap && hits != []
    ensures
      var h := hits[|hits| - 1];
      Opens(cap, hits) <==> forall e :: e in Found(cap, hits).expirations && e.key == h.key ==> e.at <= h.read
  {
    var h := hits[|hits| - 1];
    CapHolds(cap, hits[..|hits| - 1]);
    ClosedOrOpen(Found(cap, hits), h.key, h.read);
  }

  /** A hit is answered what has been added to its key since its window opened, its own amount included, whether or
      not the counter then stays on record. */
  lemma AnswersTheTotal(cap: nat, hits: seq<Hit>)
    requires 1 <= cap && hits != []
    ensures
      var h := hits[|hits| - 1];
      Value(Counted(Found(cap, hits), h), h.key) == Total(hits, h.key, Since(cap, hits, h.key))
  {
    var n := |hits| - 1;
    CapHolds(cap, hits[..n]);
    CountsOn(Found(cap, hits), hits[n]);
    if Opens(cap, hits) {
      TotalOfOne(cap, hits);
    } else {
      CountersAreExact(cap, hits[..n], hits[n].key);
      TotalGoesOn(cap, hits);
    }
  }

  lemma TotalOfOne(cap: nat, hits: seq<Hit>)
    requires hits != [] && Opens(cap, hits)
    ensures
      var h := hits[|hits| - 1];
      Total(hits, h.key, Since(cap, hits, h.key)) == h.amount
  {
    assert |hits[..|hits| - 1]| <= Since(cap, hits, hits[|hits| - 1].key);
  }

  lemma TotalGoesOn(cap: nat, hits: seq<Hit>)
    requires hits != [] && !Opens(cap, hits) && Since(cap, hits[..|hits| - 1], hits[|hits| - 1].key) < |hits|
    ensures
      var h, past := hits[|hits| - 1], hits[..|hits| - 1];
      Total(hits, h.key, Since(cap, hits, h.key)) == Total(past, h.key, Since(cap, past, h.key)) + h.amount
  {
  }

  lemma CountsOn(s: Store, h: Hit)
    requires Valid(s)
    ensures
      var count := Value(Counted(s, h), h.key);
      if h.key in Refreshed(s, h.key, h.read).storage then h.key in s.storage && count == s.storage[h.key] + h.amount
      else count == h.amount
  {
    RefreshedOrder(s, h.key, h.read);
  }

  // ------------------------------------------------------------------ when a window closes

  /** The count the last hit finds is nothing, so its answer equals its own amount. */
  predicate Arms(cap: nat, hits: seq<Hit>)
    requires hits != []
  {
    var h := hits[|hits| - 1];
    Value(Counted(Found(cap, hits), h), h.key) == h.amount
  }

  /** The hit that last set the end of `key`'s window. */
  function ArmedBy(cap: nat, hits: seq<Hit>, key: Key): nat {
    if hits == [] then 0
    else
      var n := |hits| - 1;
      if hits[n].key == key && Arms(cap, hits) then n else ArmedBy(cap, hits[..n], key)
  }

  function EndOf(s: Store, key: Key): Option<int> { Find(s.expirations, key) }

  /** What stays on record after a hit stays with the end it had. */
  lemma EndsSurvive(s: Store, h: Hit, cap: nat, key: Key)
    requires Valid(s) && |s.storage| <= cap && 1 <= cap && key in Incremented(s, h, cap).storage
    ensures
      var end := EndOf(Incremented(s, h, cap), key);
      end.Some? && end == EndOf(Counted(s, h), key)
  {
    var all, live, t := Counted(s, h), Live(s, h), Incremented(s, h, cap);
    OneHit(s, h, cap);
    SweepsExactlyTheClosed(all, h.swept);
    TrimsTheOldest(live, cap);
    KeptExactly(all.expirations, h.swept);
    var at := Find(t.expirations, key);
    assert Entry(key, at.value) in t.expirations;
    assert Entry(key, at.value) in live.expirations;
    FindsTheOne(all.expirations, Entry(key, at.value));
  }

  lemma OthersKeepTheirEnd(es: seq<Entry>, gone: Key, key: Key)
    requires Distinct(es) && key != gone && key in KeySet(Without(es, gone))
    ensures Find(Without(es, gone), key) == Find(es, key)
  {
    WithoutExactly(es, gone);
    var at := Find(Without(es, gone), key);
    assert Entry(key, at.value) in Without(es, gone);
    FindsTheOne(es, Entry(key, at.value));
  }

  lemma AddedEnd(r: Store, own: Key, amount: int, at: int, key: Key)
    ensures EndOf(Added(r, own, amount, at), key)
         == if key == own && Value(r, own) == 0 then Some(at) else EndOf(r, key)
  {
    PutFinds(r.expirations, own, at, key);
  }

  lemma AddedValue(r: Store, own: Key, amount: int, at: int)
    ensures Value(Added(r, own, amount, at), own) == Value(r, own) + amount
  {
  }

  lemma RefreshedEnd(s: Store, own: Key, now: int, key: Key)
    requires Valid(s) && key in Refreshed(s, own, now).storage
    ensures key in s.storage && EndOf(Refreshed(s, own, now), key) == EndOf(s, key)
  {
    RefreshedValid(s, own, now);
    if Refreshed(s, own, now) != s {
      RefreshedOrder(s, own, now);
      OthersKeepTheirEnd(s.expirations, own, key);
    }
  }

  /** After `h`: its own expiry for the window it armed, the end it had for any other. */
  predicate EndsAs(s: Store, h: Hit, key: Key, end: Option<int>) {
    if key == h.key && Value(Refreshed(s, key, h.read), key) == 0 then end == Some(h.armed + h.expiry)
    else key in s.storage && end == EndOf(s, key)
  }

  /** Counting sets the end of the window counted in, if its count was nothing, and moves no other end. */
  lemma CountedEnd(s: Store, h: Hit, key: Key)
    requires Valid(s) && key in Counted(s, h).storage
    ensures EndsAs(s, h, key, EndOf(Counted(s, h), key))
  {
    var r := Refreshed(s, h.key, h.read);
    if key == h.key && Value(r, key) == 0 {
      AddedEnd(r, h.key, h.amount, h.armed + h.expiry, key);
    } else {
      CarriedEnd(s, h, key);
    }
  }

  lemma CarriedEnd(s: Store, h: Hit, key: Key)
    requires
      var r := Refreshed(s, h.key, h.read);
      Valid(s) && key in r.storage && (key != h.key || Value(r, key) != 0)
    ensures key in s.storage && EndOf(Counted(s, h), key) == EndOf(s, key)
  {
    AddedEnd(Refreshed(s, h.key, h.read), h.key, h.amount, h.armed + h.expiry, key);
    RefreshedEnd(s, h.key, h.read, key);
  }

  /** A hit sets the end of its own window if its count was nothing, and moves no other end. */
  lemma HitArms(s: Store, h: Hit, cap: nat, key: Key)
    requires Valid(s) && |s.storage| <= cap && 1 <= cap && key in Incremented(s, h, cap).storage
    ensures EndsAs(s, h, key, EndOf(Incremented(s, h, cap), key))
  {
    EndsSurvive(s, h, cap, key);
    OneHit(s, h, cap);
    CountedEnd(s, h, key);
  }

  /** `end` is the expiry of hit `a`, one of `key`, after its clock reading. */
  predicate EndsBy(hits: seq<Hit>, key: Key, a: nat, end: Option<int>) {
    a < |hits| && hits[a].key == key && end == Some(hits[a].armed + hits[a].expiry)
  }


  lemma LastHitArms(cap: nat, hits: seq<Hit>, key: Key)
    requires 1 <= cap && hits != [] && key in Serve(cap, hits).storage
    ensures if key == hits[|hits| - 1].key && Arms(cap, hits) then
              EndsBy(hits, key, |hits| - 1, EndOf(Serve(cap, hits), key))
            else key in Found(cap, hits).storage && EndOf(Serve(cap, hits), key) == EndOf(Found(cap, hits), key)
  {
    var h, end := hits[|hits| - 1], EndOf(Serve(cap, hits), key);
    LastHitEnd(cap, hits, key, end);
    ArmsOnNothing(cap, hits);
  }

  lemma LastHitEnd(cap: nat, hits: seq<Hit>, key: Key, end: Option<int>)
    requires 1 <= cap && hits != [] && key in Serve(cap, hits).storage && end == EndOf(Serve(cap, hits), key)
    ensures EndsAs(Found(cap, hits), hits[|hits| - 1], key, end)
  {
    ServesOn(cap, hits);
    HitArms(Found(cap, hits), hits[|hits| - 1], cap, key);
  }

  lemma ServesOn(cap: nat, hits: seq<Hit>)
    requires 1 <= cap && hits != []
    ensures Serve(cap, hits) == Incremented(Found(cap, hits), hits[|hits| - 1], cap)
    ensures Valid(Found(cap, hits)) && |Found(cap, hits).storage| <= cap
  {
    CapHolds(cap, hits[..|hits| - 1]);
  }

  lemma ArmsOnNothing(cap: nat, hits: seq<Hit>)
    requires hits != []
    ensures
      var h := hits[|hits| - 1];
      Arms(cap, hits) <==> Value(Refreshed(Found(cap, hits), h.key, h.read), h.key) == 0
  {
    var h := hits[|hits| - 1];
    AddedValue(Refreshed(Found(cap, hits), h.key, h.read), h.key, h.amount, h.armed + h.expiry);
  }

  lemma EndCarries(hits: seq<Hit>, key: Key, a: nat, end: Option<int>)
    requires hits != [] && EndsBy(hits[..|hits| - 1], key, a, end)
    ensures EndsBy(hits, key, a, end)
  {
  }

  /** The window of every counter on record closes its expiry after the clock reading of the hit that armed it. */
  lemma {:induction false} WindowsAreExact(cap: nat, hits: seq<Hit>, key: Key)
    requires 1 <= cap && key in Serve(cap, hits).storage
    ensures EndsBy(hits, key, ArmedBy(cap, hits, key), EndOf(Serve(cap, hits), key))
  {
    LastHitArms(cap, hits, key);
    if !(key == hits[|hits| - 1].key && Arms(cap, hits)) {
      var past := hits[..|hits| - 1];
      WindowsAreExact(cap, past, key);
      EndCarries(hits, key, ArmedBy(cap, past, key), EndOf(Serve(cap, past), key));
    }
  }

  predicate AllPositive(hits: seq<Hit>) { forall i :: 0 <= i < |hits| ==> hits[i].amount > 0 }

  lemma {:induction false} TotalGrows(hits: seq<Hit>, key: Key, from: nat)
    requires AllPositive(hits)
    ensures Total(hits, key, from) >= 0
    ensures from < |hits| && hits[from].key == key ==> Total(hits, key, from) > 0
  {
    if from < |hits| { TotalGrows(hits[..|hits| - 1], key, from); }
  }

  /** With positive amounts that hit is the one that opened the window: it is fixed from its first hit on. */
  lemma {:induction false} ArmedAtTheOpening(cap: nat, hits: seq<Hit>, key: Key)
    requires 1 <= cap && AllPositive(hits)
    ensures ArmedBy(cap, hits, key) == Since(cap, hits, key)
  {
    if hits != [] {
      var n := |hits| - 1;
      ArmedAtTheOpening(cap, hits[..n], key);
      if hits[n].key == key {
        AnswersTheTotal(cap, hits);
        if !Opens(cap, hits) {
          CapHolds(cap, hits[..n]);
          RefreshedOrder(Found(cap, hits), key, hits[n].read);
          CountersAreExact(cap, hits[..n], key);
          TotalGrows(hits[..n], key, Since(cap, hits, key));
        }
      }
    }
  }
}
