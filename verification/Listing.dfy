/** The staff list: which rows a filter lists, in what order, and its pages. */
module Listing {
  import opened Lists
  import opened Text
  import opened Rules

  // ------------------------------------------------------------------ which rows

  /** The list's filters: statuses, party size when one is asked for, and a search text, blank for none. */
  datatype Filter = Filter(statuses: set<Status>, partySize: Option<int>, search: string)

  /** The list without filters: the day's live rows. */
  const QUEUE := Filter({Waiting, Called, Seated}, None, "")

  /** `_matches_search`: three digits ask for a phone's tail, any other digits for nothing, text for part of a name. */
  predicate MatchesSearch(r: Row, needle: string) {
    var tail := Digits(needle);
    var text := Lower(Strip(needle));
    (|tail| == 3 && tail == LastThree(Digits(r.phone))) || (tail == [] && text != [] && Contains(Lower(r.name), text))
  }

  predicate Wanted(r: Row, day: string, f: Filter) {
    && r.day == day && r.status in f.statuses
    && (f.partySize.Some? ==> r.partySize == f.partySize.value)
    && (f.search != [] ==> MatchesSearch(r, f.search))
  }

  predicate Names(rows: seq<Row>, ids: seq<nat>) { forall a :: 0 <= a < |ids| ==> ids[a] < |rows| }

  predicate NoRepeats(ids: seq<nat>) { forall a, b :: 0 <= a < b < |ids| ==> ids[a] != ids[b] }

  /** The ids of the wanted rows among the first `n`, each once, in insertion order. */
  function IdsWanted(rows: seq<Row>, day: string, f: Filter, n: nat): (ids: seq<nat>)
    requires n <= |rows|
    ensures Names(rows, ids) && NoRepeats(ids)
    ensures forall a :: 0 <= a < |ids| ==> ids[a] < n && Wanted(rows[ids[a]], day, f)
    ensures forall i :: 0 <= i < n && Wanted(rows[i], day, f) ==> i in ids
  {
    if n == 0 then []
    else IdsWanted(rows, day, f, n - 1) + if Wanted(rows[n - 1], day, f) then [n - 1] else []
  }

  predicate Live(rows: seq<Row>, day: string, i: nat) { i < |rows| && rows[i].day == day && Active(rows[i]) }

  function LiveIds(rows: seq<Row>, day: string): (ids: seq<nat>)
    ensures Names(rows, ids) && NoRepeats(ids) && forall i :: i in ids <==> Live(rows, day, i)
  {
    IdsWanted(rows, day, QUEUE, |rows|)
  }

  /** One letter, whatever its case. */
  predicate SameLetter(a: char, b: char) {
    || a == b
    || ('A' <= a <= 'Z' && b as int - a as int == 32)
    || ('A' <= b <= 'Z' && a as int - b as int == 32)
  }

  predicate SameLetters(x: string, y: string) {
    |x| == |y| && forall m :: 0 <= m < |x| ==> SameLetter(x[m], y[m])
  }

  predicate EndsIn(s: string, tail: string) { |tail| <= |s| && s[|s| - |tail|..] == tail }

  lemma LowerMatches(x: string, y: string)
    ensures Lower(x) == Lower(y) <==> SameLetters(x, y)
  {
    if SameLetters(x, y) {
      forall m | 0 <= m < |x| ensures LowerChar(x[m]) == LowerChar(y[m]) { assert SameLetter(x[m], y[m]); }
    }
    if Lower(x) == Lower(y) {
      assert |Lower(x)| == |x| && |Lower(y)| == |y|;
      forall m | 0 <= m < |x| ensures SameLetter(x[m], y[m]) { assert Lower(x)[m] == Lower(y)[m]; }
    }
  }

  predicate HeldAt(name: string, t: string, k: nat) { k + |t| <= |name| && SameLetters(name[k..k + |t|], t) }

  lemma ContainsLower(name: string, t: string)
    ensures Contains(Lower(name), Lower(t)) <==> exists k: nat :: k <= |name| && HeldAt(name, t, k)
  {
    forall k: nat | k <= |name| ensures Lower(t) <= Lower(name)[k..] <==> HeldAt(name, t, k) {
      if k + |t| <= |name| {
        assert Lower(name)[k..k + |t|] == Lower(name[k..k + |t|]);
        assert Lower(name)[k..][..|t|] == Lower(name)[k..k + |t|];
        LowerMatches(name[k..k + |t|], t);
      }
    }
  }

  /** A search text with three digits finds the phones that end in them; one with any other digits finds nobody; one
      without finds the names that hold it, trimmed, in any case, and a blank one nobody. */
  lemma SearchExactly(r: Row, needle: string, text: string)
    requires Trimmed(text, needle)
    ensures MatchesSearch(r, needle) <==>
      if |Digits(needle)| == 3 then EndsIn(Digits(r.phone), Digits(needle))
      else Digits(needle) == "" && text != "" && exists k: nat :: k <= |r.name| && HeldAt(r.name, text, k)
  {
    StripTrims(needle);
    TrimmedOneWay(text, Strip(needle), needle);
    ContainsLower(r.name, text);
  }

  // ------------------------------------------------------------------ in what order

  /** `ORDER BY sort_order, created_at`. */
  predicate ListedBefore(a: Row, b: Row) {
    a.sortOrder < b.sortOrder || (a.sortOrder == b.sortOrder && a.createdAt <= b.createdAt)
  }

  /** Listed order on ids; an id that names no row comes after all that do. */
  function ListOrder(rows: seq<Row>): (nat, nat) -> bool {
    (i: nat, j: nat) => j >= |rows| || (i < |rows| && ListedBefore(rows[i], rows[j]))
  }

  function Listed(s: State, day: string, f: Filter): seq<nat> {
    Sort(IdsWanted(s.rows, day, f, |s.rows|), ListOrder(s.rows))
  }

  /** The staff list of a day: its WAITING, CALLED and SEATED rows in queue order. */
  function QueueList(s: State, day: string): seq<nat> { Listed(s, day, QUEUE) }

  /** A sorted list holds each of its rows once, in queue order. */
  lemma SortedIsAListing(rows: seq<Row>, ids: seq<nat>)
    ensures Ascending(Sort(ids, ListOrder(rows)), ListOrder(rows))
    ensures multiset(Sort(ids, ListOrder(rows))) == multiset(ids)
  {
    assert Preorder(ListOrder(rows));
    SortAscends(ids, ListOrder(rows));
    SortKeeps(ids, ListOrder(rows));
  }

  /** The list holds exactly the rows of the day with a status, a party size and a search text asked for, each once. */
  lemma ListsExactlyTheWanted(s: State, day: string, f: Filter, i: nat)
    ensures i in Listed(s, day, f) <==>
      && i < |s.rows| && s.rows[i].day == day && s.rows[i].status in f.statuses
      && (f.partySize == None || f.partySize == Some(s.rows[i].partySize))
      && (f.search == "" || MatchesSearch(s.rows[i], f.search))
    ensures multiset(Listed(s, day, f))[i] <= 1
  {
    var wanted, ids := IdsWanted(s.rows, day, f, |s.rows|), Listed(s, day, f);
    SortedIsAListing(s.rows, wanted);
    assert i in ids <==> i in multiset(ids);
    assert i in wanted <==> i in multiset(wanted);
    OnceEach(wanted, i);
  }

  /** And holds them in queue order. */
  lemma ListsInOrder(s: State, day: string, f: Filter, a: nat, b: nat)
    requires a < b < |Listed(s, day, f)|
    ensures
      var ids := Listed(s, day, f);
      && ids[a] < |s.rows| && ids[b] < |s.rows|
      && var x, y := s.rows[ids[a]], s.rows[ids[b]];
         x.sortOrder < y.sortOrder || (x.sortOrder == y.sortOrder && x.createdAt <= y.createdAt)
  {
    var ids := Listed(s, day, f);
    ListsExactlyTheWanted(s, day, f, ids[a]);
    ListsExactlyTheWanted(s, day, f, ids[b]);
    SortedIsAListing(s.rows, IdsWanted(s.rows, day, f, |s.rows|));
    assert ListOrder(s.rows)(ids[a], ids[b]);
  }

  lemma {:induction false} OnceEach(ids: seq<nat>, i: nat)
    requires NoRepeats(ids)
    ensures multiset(ids)[i] <= 1
  {
    if ids != [] {
      OnceEach(ids[1..], i);
      assert ids == [ids[0]] + ids[1..];
      assert ids[0] !in ids[1..];
    }
  }

  predicate Rising(rows: seq<Row>, ids: seq<nat>)
    requires Names(rows, ids)
  {
    forall a, b :: 0 <= a < b < |ids| ==> rows[ids[a]].sortOrder < rows[ids[b]].sortOrder
  }

  /** Strictly rising orders leave one way to list a set of rows. */
  lemma OneListing(rows: seq<Row>, wanted: seq<nat>, listed: seq<nat>)
    requires Names(rows, wanted) && Rising(rows, wanted)
    requires Ascending(listed, ListOrder(rows)) && multiset(wanted) == multiset(listed)
    ensures listed == wanted
  {
    var le := ListOrder(rows);
    forall a, b | 0 <= a < |wanted| && 0 <= b < |wanted| && le(wanted[a], wanted[b]) && le(wanted[b], wanted[a])
      ensures wanted[a] == wanted[b]
    {
      assert rows[wanted[a]].sortOrder == rows[wanted[b]].sortOrder;
    }
    OneOrder(wanted, listed, le);
  }

  // ------------------------------------------------------------------ pages

  function Clip(n: nat, list: seq<nat>): (c: nat)
    ensures c <= |list|
  {
    if n < |list| then n else |list|
  }

  /** `limit` entries of the list after the first `offset`. */
  function Page(list: seq<nat>, limit: nat, offset: nat): seq<nat> {
    list[Clip(offset, list)..Clip(offset + limit, list)]
  }

  /** A page is as long as asked for, as far as the list reaches, and its k-th entry is the one `offset` further on. */
  lemma PageExactly(list: seq<nat>, limit: nat, offset: nat, k: nat)
    ensures |Page(list, limit, offset)| == if offset >= |list| then 0 else Clip(limit, list[offset..])
    ensures k < |Page(list, limit, offset)| ==> offset + k < |list| && Page(list, limit, offset)[k] == list[offset + k]
  {
  }

  /** A page and the one after it are the longer page: paging skips and repeats nothing. */
  lemma PagesTile(list: seq<nat>, limit: nat, more: nat, offset: nat)
    ensures Page(list, limit, offset) + Page(list, more, offset + limit) == Page(list, limit + more, offset)
  {
    var x, y, z := Clip(offset, list), Clip(offset + limit, list), Clip(offset + limit + more, list);
    assert list[x..y] + list[y..z] == list[x..z];
  }
}
