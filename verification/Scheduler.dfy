/** The slot scheduler: priority with ageing, the order of ready issues, greedy assignment under a pause. */
module Scheduler {
  import opened Lists
  import opened Text

  // ------------------------------------------------------------------ issues

  datatype Stage = Defined | Groomed | Built | Verified | Closed

  datatype Size = S | M | L

  datatype Issue = Issue(id: string, stage: Stage, created: int, size: Size,
                         critical: bool, direct: nat, transitive: nat,
                         waitingSince: Option<int>, labels: seq<string>)

  datatype Role = Definer | Builder | Verifier

  datatype Phase = Groom | Implement | FixMerge | FixRegression | FixQa | VerifyIssue | VerifyPreMerge

  datatype Assignment = Assignment(issue: string, role: Role, phase: Phase, priority: int)

  /** The assignments, or the closed issue the loop threw on. */
  datatype Outcome = Took(assignments: seq<Assignment>) | Threw(issue: string)

  const DAY := 86_400_000

  /** A locale's order on ids, by rank. */
  type Collation = string -> int

  // ------------------------------------------------------------------ priority

  function Static(i: Issue): nat { 2 * i.direct + i.transitive + if i.critical then 1 else 0 }

  /** Milliseconds waited; 0 when not waiting or waiting from the future. */
  function Waited(i: Issue, now: int): nat {
    if i.waitingSince.Some? && now > i.waitingSince.value then now - i.waitingSince.value else 0
  }

  /** Whole days waited, once that is more than one day. */
  function Bonus(i: Issue, now: int): nat { if Waited(i, now) > DAY then Waited(i, now) / DAY else 0 }

  function Priority(i: Issue, now: int): nat { Static(i) + Bonus(i, now) }

  lemma DaysOfHours(ms: nat)
    ensures (ms as real / 3600000.0 / 24.0).Floor == ms / DAY
    ensures ms as real / 3600000.0 > 24.0 <==> ms > DAY
  {
    var q, r := ms / DAY, ms % DAY;
    assert ms == q * DAY + r;
    assert ms as real == q as real * 86400000.0 + r as real;
    assert ms as real / 3600000.0 / 24.0 == q as real + r as real / 86400000.0;
  }

  method ComputePriority(issue: Issue, now: int) returns (priority: int)
    ensures priority == Priority(issue, now)
  {
    priority := issue.direct * 2;
    priority := priority + issue.transitive * 1;
    if issue.critical { priority := priority + 1; }
    if issue.waitingSince.Some? {
      var waitHours := (now - issue.waitingSince.value) as real / 3600000.0;
      if now > issue.waitingSince.value { DaysOfHours(now - issue.waitingSince.value); }
      if waitHours > 24.0 { priority := priority + (waitHours / 24.0).Floor; }
    }
  }

  /** Waited `days` whole days; none up to and including the first 24 hours. */
  predicate WaitedDays(i: Issue, now: int, days: nat) {
    if i.waitingSince.None? || now - i.waitingSince.value <= DAY then days == 0
    else days * DAY <= now - i.waitingSince.value < (days + 1) * DAY
  }

  /** The score: two for each issue waiting on this one directly, one for each further one, one for the critical
      path and one for each whole day waited. */
  lemma ScoreExactly(i: Issue, now: int, days: nat)
    requires WaitedDays(i, now, days)
    ensures Priority(i, now) == i.direct + i.direct + i.transitive + days + if i.critical then 1 else 0
  {
  }

  /** Ageing: if b's static score leads a's by at most `lead` and a has waited more than 24(lead + 1) hours
      longer, a's priority is strictly higher. */
  lemma Ageing(a: Issue, b: Issue, lead: nat, now: int)
    requires Static(b) - Static(a) <= lead && Waited(a, now) > Waited(b, now) + DAY * (lead + 1)
    ensures Priority(a, now) > Priority(b, now)
  {
    var wa, wb := Waited(a, now), Waited(b, now);
    assert DAY * (lead + 1) >= DAY;
    assert (wb + DAY * (lead + 1)) / DAY == wb / DAY + lead + 1;
    DivisionGrows(wb + DAY * (lead + 1), wa);
  }

  lemma DivisionGrows(m: nat, n: nat)
    requires m <= n
    ensures m / DAY <= n / DAY
  {
  }

  // ------------------------------------------------------------------ the order of ready issues

  function SizeRank(s: Size): int { match s case S => 0 case M => 1 case L => 2 }

  /** The sort's comparator: negative when a comes first. */
  function Compare(a: Issue, b: Issue, now: int, collate: Collation): int {
    var pa, pb := Priority(a, now), Priority(b, now);
    if pa != pb then pb - pa
    else if a.created != b.created then a.created - b.created
    else if a.size != b.size then SizeRank(a.size) - SizeRank(b.size)
    else collate(a.id) - collate(b.id)
  }

  /** The comparator is a total preorder, so sorting by it means something. */
  lemma ComparatorIsAnOrder(a: Issue, b: Issue, c: Issue, now: int, collate: Collation)
    ensures Compare(a, b, now, collate) < 0 <==> Compare(b, a, now, collate) > 0
    ensures Compare(a, b, now, collate) <= 0 && Compare(b, c, now, collate) <= 0 ==> Compare(a, c, now, collate) <= 0
  {
  }

  function Order(now: int, collate: Collation): (Issue, Issue) -> bool { (a, b) => Compare(a, b, now, collate) <= 0 }

  predicate Sorted(s: seq<Issue>, now: int, collate: Collation) { Ascending(s, Order(now, collate)) }

  /** `[...issues].sort(...)`, a stable sort. */
  function SortReady(issues: seq<Issue>, now: int, collate: Collation): seq<Issue> { Sort(issues, Order(now, collate)) }

  /** The sorted list is a permutation of the ready issues in comparator order. */
  lemma SortReadySorts(issues: seq<Issue>, now: int, collate: Collation)
    ensures Sorted(SortReady(issues, now, collate), now, collate)
    ensures multiset(SortReady(issues, now, collate)) == multiset(issues)
  {
    var le := Order(now, collate);
    forall a, b, c | le(a, b) && le(b, c) ensures le(a, c) { ComparatorIsAnOrder(a, b, c, now, collate); }
    forall a, b ensures le(a, b) || le(b, a) { ComparatorIsAnOrder(a, b, a, now, collate); }
    SortAscends(issues, le);
    SortKeeps(issues, le);
  }

  /** Where the locale tells the ids apart no two issues tie. */
  lemma IdsBreakTies(issues: seq<Issue>, now: int, collate: Collation)
    requires forall i, j :: 0 <= i < j < |issues| ==> collate(issues[i].id) != collate(issues[j].id)
    ensures NoTies(issues, Order(now, collate))
  {
    var le := Order(now, collate);
    forall i, j | 0 <= i < |issues| && 0 <= j < |issues| && le(issues[i], issues[j]) && le(issues[j], issues[i])
      ensures issues[i] == issues[j]
    {
      assert Compare(issues[i], issues[j], now, collate) == 0;
    }
  }

  /** Without ties every sort by this comparator gives the same order. */
  lemma AnySortGivesThisOrder(issues: seq<Issue>, t: seq<Issue>, now: int, collate: Collation)
    requires NoTies(issues, Order(now, collate))
    requires Sorted(t, now, collate) && multiset(t) == multiset(issues)
    ensures t == SortReady(issues, now, collate)
  {
    SortReadySorts(issues, now, collate);
    forall k | 0 <= k < |t| ensures t[k] in issues { assert t[k] in multiset(t); }
    OneOrder(t, SortReady(issues, now, collate), Order(now, collate));
  }

  // ------------------------------------------------------------------ assignment

  /** `determineRoleAndPhase`; it throws on a closed issue. */
  function RoleAndPhase(i: Issue): Option<(Role, Phase)> {
    match i.stage
    case Defined => Some(if "groomed" in i.labels then (Builder, Implement) else (Definer, Groom))
    case Groomed => Some((Builder, Implement))
    case Built =>
      Some(if "merge_conflict" in i.labels then (Builder, FixMerge)
           else if "regression" in i.labels then (Builder, FixRegression)
           else if "verifier_failed" in i.labels then (Builder, FixQa)
           else (Verifier, VerifyIssue))
    case Verified => Some((Verifier, VerifyPreMerge))
    case Closed => None
  }

  predicate Labelled(i: Issue, name: string) { name in i.labels }

  /** A verifier found something to fix in what was built. */
  predicate NeedsFixing(i: Issue) {
    Labelled(i, "merge_conflict") || Labelled(i, "regression") || Labelled(i, "verifier_failed")
  }

  /** Work for a builder: what is groomed, and what was built and needs fixing. */
  predicate NeedsBuilder(i: Issue) {
    || i.stage == Groomed
    || (i.stage == Defined && Labelled(i, "groomed"))
    || (i.stage == Built && NeedsFixing(i))
  }

  /** What the loop would give a slot to. */
  predicate Eligible(i: Issue, paused: bool) { i.stage != Closed && !(paused && NeedsBuilder(i)) }

  /** Only a closed issue has no role, and exactly the builder's work has the builder's. */
  lemma RolesByStage(i: Issue)
    ensures RoleAndPhase(i).None? <==> i.stage == Closed
    ensures RoleAndPhase(i).Some? ==> (RoleAndPhase(i).value.0 == Builder <==> NeedsBuilder(i))
  {
  }

  /** The slot an issue calls for, by its stage and labels: groomed before it is built; built and then fixed by a
      builder, for the first of the three labels; what is built and has none of them verified, and what is verified
      verified again before the merge. */
  predicate Suits(x: Assignment, i: Issue) {
    && x.issue == i.id
    && (x.role == Builder <==> NeedsBuilder(i))
    && (x.role == Definer <==> i.stage == Defined && !Labelled(i, "groomed"))
    && (x.role == Verifier <==> i.stage == Verified || (i.stage == Built && !NeedsFixing(i)))
    && (x.phase == Groom <==> i.stage == Defined && !Labelled(i, "groomed"))
    && (x.phase == Implement <==> i.stage == Groomed || (i.stage == Defined && Labelled(i, "groomed")))
    && (x.phase == FixMerge <==> i.stage == Built && Labelled(i, "merge_conflict"))
    && (x.phase == FixRegression <==>
          i.stage == Built && Labelled(i, "regression") && !Labelled(i, "merge_conflict"))
    && (x.phase == FixQa <==>
          && i.stage == Built && Labelled(i, "verifier_failed")
          && !Labelled(i, "regression") && !Labelled(i, "merge_conflict"))
    && (x.phase == VerifyIssue <==> i.stage == Built && !NeedsFixing(i))
    && (x.phase == VerifyPreMerge <==> i.stage == Verified)
  }

  function Record(i: Issue, now: int): Assignment
    requires RoleAndPhase(i).Some?
  {
    Assignment(i.id, RoleAndPhase(i).value.0, RoleAndPhase(i).value.1, Priority(i, now))
  }

  function Before(xs: seq<Assignment>, rest: Outcome): Outcome {
    if rest.Took? then Took(xs + rest.assignments) else rest
  }

  function Greedy(sorted: seq<Issue>, slots: int, paused: bool, now: int): Outcome {
    if slots <= 0 || sorted == [] then Took([])
    else if RoleAndPhase(sorted[0]).None? then Threw(sorted[0].id)
    else if !Eligible(sorted[0], paused) then Greedy(sorted[1..], slots, paused, now)
    else Before([Record(sorted[0], now)], Greedy(sorted[1..], slots - 1, paused, now))
  }

  /** The loop's state: `xs` handed out before place `i`, the rest of the greedy assignment still to come. */
  predicate Underway(xs: seq<Assignment>, sorted: seq<Issue>, i: nat, slots: int, paused: bool, now: int)
    requires i <= |sorted|
  {
    Greedy(sorted, slots, paused, now) == Before(xs, Greedy(sorted[i..], slots - |xs|, paused, now))
  }

  lemma Starts(sorted: seq<Issue>, slots: int, paused: bool, now: int)
    ensures Underway([], sorted, 0, slots, paused, now)
  {
    assert sorted[0..] == sorted;
  }

  /** With the slots full, or nobody left, what was handed out is the assignment. */
  lemma Ends(xs: seq<Assignment>, sorted: seq<Issue>, i: nat, slots: int, paused: bool, now: int)
    requires i <= |sorted| && Underway(xs, sorted, i, slots, paused, now) && (|xs| >= slots || i == |sorted|)
    ensures Greedy(sorted, slots, paused, now) == Took(xs)
  {
  }

  lemma Throws(xs: seq<Assignment>, sorted: seq<Issue>, i: nat, slots: int, paused: bool, now: int)
    requires i < |sorted| && Underway(xs, sorted, i, slots, paused, now) && |xs| < slots
    requires RoleAndPhase(sorted[i]).None?
    ensures Greedy(sorted, slots, paused, now) == Threw(sorted[i].id)
  {
  }

  lemma Skips(xs: seq<Assignment>, sorted: seq<Issue>, i: nat, slots: int, paused: bool, now: int)
    requires i < |sorted| && Underway(xs, sorted, i, slots, paused, now) && |xs| < slots
    requires RoleAndPhase(sorted[i]).Some? && !Eligible(sorted[i], paused)
    ensures Underway(xs, sorted, i + 1, slots, paused, now)
  {
    assert sorted[i..][1..] == sorted[i + 1..];
  }

  lemma Takes(xs: seq<Assignment>, sorted: seq<Issue>, i: nat, slots: int, paused: bool, now: int)
    requires i < |sorted| && Underway(xs, sorted, i, slots, paused, now) && |xs| < slots && Eligible(sorted[i], paused)
    ensures Underway(xs + [Record(sorted[i], now)], sorted, i + 1, slots, paused, now)
  {
    assert sorted[i..][1..] == sorted[i + 1..];
    var rest := Greedy(sorted[i + 1..], slots - |xs| - 1, paused, now);
    assert Greedy(sorted[i..], slots - |xs|, paused, now) == Before([Record(sorted[i], now)], rest);
  }

  datatype Config = Config(maxSlots: int, pauseThreshold: int)

  function Assign(ready: seq<Issue>, active: int, config: Config, queued: int, now: int, collate: Collation): Outcome {
    Greedy(SortReady(ready, now, collate), config.maxSlots - active, queued >= config.pauseThreshold, now)
  }

  method AssignSlots(ready: seq<Issue>, active: int, config: Config, queued: int, now: int, collate: Collation)
    returns (outcome: Outcome)
    ensures outcome == Assign(ready, active, config, queued, now, collate)
  {
    var assignments: seq<Assignment> := [];
    var available := config.maxSlots - active;
    if available <= 0 { return Took(assignments); }
    var paused := queued >= config.pauseThreshold;
    var sorted := SortReady(ready, now, collate);
    Starts(sorted, available, paused, now);
    var filled := 0;
    for i := 0 to |sorted|
      invariant filled == |assignments| && Underway(assignments, sorted, i, available, paused, now)
    {
      if filled >= available {
        Ends(assignments, sorted, i, available, paused, now);
        return Took(assignments);
      }
      var issue := sorted[i];
      var rp := RoleAndPhase(issue);
      if rp.None? {
        Throws(assignments, sorted, i, available, paused, now);
        return Threw(issue.id);
      }
      if paused && rp.value.0 == Builder {
        Skips(assignments, sorted, i, available, paused, now);
        continue;
      }
      Takes(assignments, sorted, i, available, paused, now);
      var priority := ComputePriority(issue, now);
      assignments := assignments + [Assignment(issue.id, rp.value.0, rp.value.1, priority)];
      filled := filled + 1;
    }
    Ends(assignments, sorted, |sorted|, available, paused, now);
    outcome := Took(assignments);
  }

  // ------------------------------------------------------------------ what the assignment is

  /** The eligible issues, in order. */
  function Picks(s: seq<Issue>, paused: bool): (r: seq<Issue>)
    ensures forall i :: 0 <= i < |r| ==> Eligible(r[i], paused)
  {
    if s == [] then [] else (if Eligible(s[0], paused) then [s[0]] else []) + Picks(s[1..], paused)
  }

  function Records(s: seq<Issue>, now: int): seq<Assignment>
    requires forall i :: 0 <= i < |s| ==> RoleAndPhase(s[i]).Some?
  {
    seq(|s|, i requires 0 <= i < |s| => Record(s[i], now))
  }

  function FirstClosed(s: seq<Issue>): (k: nat)
    ensures k <= |s| && (k < |s| ==> s[k].stage == Closed)
    ensures forall i :: 0 <= i < k ==> s[i].stage != Closed
  {
    if s == [] || s[0].stage == Closed then 0 else 1 + FirstClosed(s[1..])
  }

  function Least(m: int, n: nat): nat { if m <= 0 then 0 else if m <= n then m else n }

  /** The first eligible issues, as many as there are slots; unless a closed issue comes up before. */
  function FirstPicks(s: seq<Issue>, slots: int, paused: bool, now: int): Outcome {
    var k := FirstClosed(s);
    var picks := Picks(s[..k], paused);
    if slots <= 0 || k == |s| || |picks| >= slots then Took(Records(picks[..Least(slots, |picks|)], now))
    else Threw(s[k].id)
  }

  lemma PicksSkip(s: seq<Issue>, slots: int, paused: bool, now: int)
    requires s != [] && s[0].stage != Closed && !Eligible(s[0], paused)
    ensures FirstPicks(s, slots, paused, now) == FirstPicks(s[1..], slots, paused, now)
  {
    var k := FirstClosed(s);
    assert s[..k][1..] == s[1..][..k - 1];
    assert Picks(s[..k], paused) == Picks(s[1..][..k - 1], paused);
  }

  lemma PicksTake(s: seq<Issue>, slots: int, paused: bool, now: int)
    requires s != [] && Eligible(s[0], paused) && slots > 0
    ensures FirstPicks(s, slots, paused, now) == Before([Record(s[0], now)], FirstPicks(s[1..], slots - 1, paused, now))
  {
    var k := FirstClosed(s);
    assert s[..k][1..] == s[1..][..k - 1];
    var more := Picks(s[1..][..k - 1], paused);
    var picks := Picks(s[..k], paused);
    assert picks == [s[0]] + more;
    var n := Least(slots - 1, |more|);
    assert Records(picks[..n + 1], now) == [Record(s[0], now)] + Records(more[..n], now);
  }

  /** The loop takes the first eligible issues, as many as there are slots, and throws exactly when a closed
      issue comes up before the slots are full. */
  lemma {:induction false} GreedyExactly(s: seq<Issue>, slots: int, paused: bool, now: int)
    ensures Greedy(s, slots, paused, now) == FirstPicks(s, slots, paused, now)
  {
    if slots <= 0 || s == [] {
      assert FirstPicks(s, slots, paused, now) == Took([]);
    } else if s[0].stage == Closed {
      assert Picks(s[..0], paused) == [];
    } else if Eligible(s[0], paused) {
      GreedyExactly(s[1..], slots - 1, paused, now);
      PicksTake(s, slots, paused, now);
    } else {
      GreedyExactly(s[1..], slots, paused, now);
      PicksSkip(s, slots, paused, now);
    }
  }

  // ------------------------------------------------------------------ main results

  lemma {:induction false} PicksAreTheEligible(s: seq<Issue>, paused: bool, x: Issue)
    ensures multiset(Picks(s, paused))[x] == if Eligible(x, paused) then multiset(s)[x] else 0
  {
    if s != [] {
      PicksAreTheEligible(s[1..], paused, x);
      assert s == [s[0]] + s[1..];
    }
  }

  lemma {:induction false} PicksJoin(a: seq<Issue>, b: seq<Issue>, paused: bool)
    ensures Picks(a + b, paused) == Picks(a, paused) + Picks(b, paused)
  {
    if a == [] {
      assert a + b == b;
    } else {
      var head := if Eligible(a[0], paused) then [a[0]] else [];
      calc {
        Picks(a + b, paused);
        { assert (a + b)[0] == a[0] && (a + b)[1..] == a[1..] + b; }
        head + Picks(a[1..] + b, paused);
        { PicksJoin(a[1..], b, paused); }
        head + (Picks(a[1..], paused) + Picks(b, paused));
        (head + Picks(a[1..], paused)) + Picks(b, paused);
        Picks(a, paused) + Picks(b, paused);
      }
    }
  }

  lemma {:induction false} PicksSorted(s: seq<Issue>, paused: bool, now: int, collate: Collation)
    requires Sorted(s, now, collate)
    ensures Sorted(Picks(s, paused), now, collate)
  {
    if s != [] {
      PicksSorted(s[1..], paused, now, collate);
      if Eligible(s[0], paused) {
        var more := Picks(s[1..], paused);
        forall j | 0 <= j < |more| ensures Compare(s[0], more[j], now, collate) <= 0 {
          PicksAreTheEligible(s[1..], paused, more[j]);
          assert more[j] in multiset(more) && more[j] in multiset(s[1..]);
          var k :| 0 <= k < |s[1..]| && s[1..][k] == more[j];
          assert s[k + 1] == more[j];
        }
        AscendingCons(s[0], more, Order(now, collate));
      }
    }
  }

  /** The eligible issues among those ready, best first. */
  function Queue(ready: seq<Issue>, paused: bool, now: int, collate: Collation): seq<Issue> {
    Picks(SortReady(ready, now, collate), paused)
  }

  /** `Queue` is a sorted permutation of the eligible ready issues. */
  lemma QueueIsTheEligibleSorted(ready: seq<Issue>, paused: bool, now: int, collate: Collation)
    ensures
      var q := Queue(ready, paused, now, collate);
      && Sorted(q, now, collate)
      && (forall x :: multiset(q)[x] == if Eligible(x, paused) then multiset(ready)[x] else 0)
  {
    SortReadySorts(ready, now, collate);
    PicksSorted(SortReady(ready, now, collate), paused, now, collate);
    var q := Queue(ready, paused, now, collate);
    forall x ensures multiset(q)[x] == if Eligible(x, paused) then multiset(ready)[x] else 0 {
      PicksAreTheEligible(SortReady(ready, now, collate), paused, x);
    }
  }

  lemma FrontOfPicks(s: seq<Issue>, slots: int, paused: bool, now: int)
    requires FirstPicks(s, slots, paused, now).Took?
    ensures
      var picks := Picks(s, paused);
      FirstPicks(s, slots, paused, now) == Took(Records(picks[..Least(slots, |picks|)], now))
  {
    var k := FirstClosed(s);
    PicksSplit(s, k, paused);
    FrontOfJoin(Picks(s[..k], paused), Picks(s[k..], paused), slots);
  }

  lemma PicksSplit(s: seq<Issue>, k: nat, paused: bool)
    requires k <= |s|
    ensures Picks(s, paused) == Picks(s[..k], paused) + Picks(s[k..], paused)
    ensures k == |s| ==> Picks(s[k..], paused) == []
  {
    assert s == s[..k] + s[k..];
    PicksJoin(s[..k], s[k..], paused);
  }

  lemma FrontOfJoin(first: seq<Issue>, after: seq<Issue>, slots: int)
    requires slots <= |first| || after == []
    ensures (first + after)[..Least(slots, |first + after|)] == first[..Least(slots, |first|)]
  {
  }

  /** When slots are assigned, they go to the front of the queue of eligible issues: all the free slots or all
      of the queue, never more, no builder under a pause, no issue ahead of a better one. */
  lemma AssignsTheFrontOfTheQueue(ready: seq<Issue>, active: int, config: Config, queued: int,
                                  now: int, collate: Collation)
    requires Assign(ready, active, config, queued, now, collate).Took?
    ensures
      var xs := Assign(ready, active, config, queued, now, collate).assignments;
      var q := Queue(ready, queued >= config.pauseThreshold, now, collate);
      && xs == Records(q[..Least(config.maxSlots - active, |q|)], now)
      && (|xs| <= config.maxSlots - active || xs == [])
      && (queued >= config.pauseThreshold ==> forall k :: 0 <= k < |xs| ==> xs[k].role != Builder)
  {
    TakesTheFront(SortReady(ready, now, collate), config.maxSlots - active, queued >= config.pauseThreshold, now);
  }

  lemma TakesTheFront(s: seq<Issue>, slots: int, paused: bool, now: int)
    requires Greedy(s, slots, paused, now).Took?
    ensures
      var xs, picks := Greedy(s, slots, paused, now).assignments, Picks(s, paused);
      && xs == Records(picks[..Least(slots, |picks|)], now) && (|xs| <= slots || xs == [])
      && (paused ==> forall k :: 0 <= k < |xs| ==> xs[k].role != Builder)
  {
    GreedyExactly(s, slots, paused, now);
    FrontOfPicks(s, slots, paused, now);
  }

  /** The k-th slot goes to the k-th issue of the queue, in the role and phase its stage and labels call for. */
  lemma AssignmentsSuit(ready: seq<Issue>, active: int, config: Config, queued: int,
                        now: int, collate: Collation, k: nat)
    requires
      var outcome := Assign(ready, active, config, queued, now, collate);
      outcome.Took? && k < |outcome.assignments|
    ensures
      var x := Assign(ready, active, config, queued, now, collate).assignments[k];
      var q := Queue(ready, queued >= config.pauseThreshold, now, collate);
      && k < |q| && q[k] in ready && Suits(x, q[k]) && x.priority == Priority(q[k], now)
  {
    var paused := queued >= config.pauseThreshold;
    var q := Queue(ready, paused, now, collate);
    AssignsTheFrontOfTheQueue(ready, active, config, queued, now, collate);
    QueueIsTheEligibleSorted(ready, paused, now, collate);
    assert q[k] in multiset(q);
    RecordSuits(q[k], now);
  }

  lemma RecordSuits(i: Issue, now: int)
    requires i.stage != Closed
    ensures Suits(Record(i, now), i)
  {
    RolesByStage(i);
  }

  /** The queue is served by priority, the older first among equals, then the smaller, then by id. */
  lemma QueueServesInOrder(ready: seq<Issue>, paused: bool, now: int, collate: Collation, i: nat, j: nat)
    requires i < j < |Queue(ready, paused, now, collate)|
    ensures
      var a, b := Queue(ready, paused, now, collate)[i], Queue(ready, paused, now, collate)[j];
      && Priority(a, now) >= Priority(b, now)
      && (Priority(a, now) == Priority(b, now) ==> a.created <= b.created)
      && (Priority(a, now) == Priority(b, now) && a.created == b.created ==>
            (b.size == S ==> a.size == S) && (a.size == L ==> b.size == L))
      && (Priority(a, now) == Priority(b, now) && a.created == b.created && a.size == b.size ==>
            collate(a.id) <= collate(b.id))
  {
    QueueIsTheEligibleSorted(ready, paused, now, collate);
    var q := Queue(ready, paused, now, collate);
    assert Order(now, collate)(q[i], q[j]);
  }

  /** The issues that need no builder. */
  function WithoutBuilders(s: seq<Issue>): seq<Issue> {
    if s == [] then [] else (if NeedsBuilder(s[0]) then [] else [s[0]]) + WithoutBuilders(s[1..])
  }

  lemma {:induction false} WithoutBuildersJoins(a: seq<Issue>, b: seq<Issue>)
    ensures WithoutBuilders(a + b) == WithoutBuilders(a) + WithoutBuilders(b) && |WithoutBuilders(a)| <= |a|
  {
    if a == [] {
      assert a + b == b;
    } else {
      var head := if NeedsBuilder(a[0]) then [] else [a[0]];
      WithoutBuildersJoins(a[1..], b);
      calc {
        WithoutBuilders(a + b);
        { assert (a + b)[0] == a[0] && (a + b)[1..] == a[1..] + b; }
        head + WithoutBuilders(a[1..] + b);
        head + (WithoutBuilders(a[1..]) + WithoutBuilders(b));
        (head + WithoutBuilders(a[1..])) + WithoutBuilders(b);
        WithoutBuilders(a) + WithoutBuilders(b);
      }
    }
  }

  lemma {:induction false} PausedPicks(s: seq<Issue>)
    ensures Picks(s, true) == WithoutBuilders(Picks(s, false))
  {
    if s != [] {
      PausedPicks(s[1..]);
      var head := if Eligible(s[0], false) then [s[0]] else [];
      WithoutBuildersJoins(head, Picks(s[1..], false));
      assert head == [] || head[1..] == [];
    }
  }

  /** A pause takes the builder work out of the queue and leaves the rest in its order; whoever else gets a slot
      without the pause gets one under it. */
  lemma PauseDelaysOnlyBuilders(ready: seq<Issue>, now: int, collate: Collation, slots: int)
    ensures
      var open, paused := Queue(ready, false, now, collate), Queue(ready, true, now, collate);
      && paused == WithoutBuilders(open)
      && WithoutBuilders(open[..Least(slots, |open|)]) <= paused[..Least(slots, |paused|)]
  {
    var open, paused := Queue(ready, false, now, collate), Queue(ready, true, now, collate);
    PausedPicks(SortReady(ready, now, collate));
    var n := Least(slots, |open|);
    assert open == open[..n] + open[n..];
    WithoutBuildersJoins(open[..n], open[n..]);
  }

  /** An issue that has waited long enough is not passed over: a stronger issue with a shorter wait gets a slot
      only if the aged one has one. */
  lemma AgedIssueIsServedFirst(ready: seq<Issue>, paused: bool, now: int, collate: Collation, i: nat, j: nat, lead: nat)
    requires var q := Queue(ready, paused, now, collate);
      && i < |q| && j < |q| && Static(q[j]) - Static(q[i]) <= lead
      && Waited(q[i], now) > Waited(q[j], now) + DAY * (lead + 1)
    ensures i < j
  {
    var q := Queue(ready, paused, now, collate);
    QueueIsTheEligibleSorted(ready, paused, now, collate);
    var a, b := if i < j then i else j, if i < j then j else i;
    assert a == b || Compare(q[a], q[b], now, collate) <= 0;
    Ageing(q[i], q[j], lead, now);
  }
}
