/** Which digits of a phone number an answer shows. */
module PhoneMask {
  import opened Text

  // ------------------------------------------------------------------ digit groups

  function RunEnd(s: string, i: nat): (j: nat)
    requires i <= |s|
    ensures i <= j <= |s| && AllDigits(s[i..j]) && (j < |s| ==> !IsDigit(s[j]))
    decreases |s| - i
  {
    if i < |s| && IsDigit(s[i]) then
      var j := RunEnd(s, i + 1);
      assert s[i..j] == [s[i]] + s[i + 1..j];
      j
    else i
  }

  datatype Group = Group(start: nat, end: nat)

  predicate Within(gs: seq<Group>, n: nat) { forall k :: 0 <= k < |gs| ==> gs[k].start < gs[k].end <= n }

  /** `re.finditer(r"\d+", s)` from position `i`. */
  function Groups(s: string, i: nat): (gs: seq<Group>)
    requires i <= |s|
    ensures Within(gs, |s|)
    decreases |s| - i
  {
    if i == |s| then []
    else if !IsDigit(s[i]) then Groups(s, i + 1)
    else
      var j := RunEnd(s, i);
      if j == |s| then [Group(i, j)] else [Group(i, j)] + Groups(s, j + 1)
  }

  function Stars(n: nat): string { if n == 0 then [] else ['*'] + Stars(n - 1) }

  // ------------------------------------------------------------------ the masks

  function MaskPhone(raw: string): string {
    var gs := Groups(raw, 0);
    var number := Digits(raw);
    if |number| < 7 then raw
    else if '*' in raw then raw
    else if |gs| >= 3 then raw[..gs[1].start] + Stars(3) + raw[gs[|gs| - 2].end..]
    else Stars(|number| - 3) + LastThree(number)
  }

  function MaskLast3(phone: string): string { Stars(3) + LastThree(Digits(phone)) }

  /** The status field's own validator, `_hide_everything_left_of_the_tail`. */
  function HideLeftOfTail(value: string): string { Stars(3) + LastThree(Digits(value)) }

  // ------------------------------------------------------------------ facts about groups

  lemma {:induction false} DigitsOfStars(n: nat)
    ensures Digits(Stars(n)) == [] && |Stars(n)| == n
  {
    if n > 0 { DigitsOfStars(n - 1); }
  }

  lemma DigitsSplit(s: string, i: nat, j: nat)
    requires i <= j <= |s|
    ensures Digits(s[i..]) == Digits(s[i..j]) + Digits(s[j..])
  {
    assert s[i..] == s[i..j] + s[j..];
    DigitsConcat(s[i..j], s[j..]);
  }

  lemma DigitsAfterRun(s: string, i: nat)
    requires i < |s| && IsDigit(s[i])
    ensures var j := RunEnd(s, i); Digits(s[i..]) == s[i..j] + if j == |s| then [] else Digits(s[j + 1..])
  {
    var j := RunEnd(s, i);
    DigitsSplit(s, i, j);
    DigitsOfDigits(s[i..j]);
    if j < |s| { SkipOne(s, j); }
  }

  lemma SkipOne(s: string, i: nat)
    requires i < |s| && !IsDigit(s[i])
    ensures Digits(s[i..]) == Digits(s[i + 1..])
  {
    assert s[i..][1..] == s[i + 1..];
    assert [] + Digits(s[i + 1..]) == Digits(s[i + 1..]);
  }

  function Block(s: string, g: Group): string
    requires g.start < g.end <= |s|
  {
    s[g.start..g.end]
  }

  /** Without a group there is no digit. */
  lemma {:induction false} NoGroupNoDigit(s: string, i: nat)
    requires i <= |s| && Groups(s, i) == []
    ensures Digits(s[i..]) == []
    decreases |s| - i
  {
    if i < |s| {
      SkipOne(s, i);
      NoGroupNoDigit(s, i + 1);
    }
  }

  /** A single group holds all the digits. */
  lemma {:induction false} OneGroupAllDigits(s: string, i: nat)
    requires i <= |s| && |Groups(s, i)| == 1
    ensures Digits(s[i..]) == Block(s, Groups(s, i)[0])
    decreases |s| - i
  {
    if IsDigit(s[i]) {
      DigitsAfterRun(s, i);
      if RunEnd(s, i) < |s| { NoGroupNoDigit(s, RunEnd(s, i) + 1); }
    } else {
      SkipOne(s, i);
      OneGroupAllDigits(s, i + 1);
    }
  }

  lemma {:induction false} GroupsHoldDigits(s: string, i: nat, k: nat)
    requires i <= |s| && k < |Groups(s, i)|
    ensures AllDigits(Block(s, Groups(s, i)[k]))
    decreases |s| - i
  {
    if !IsDigit(s[i]) {
      GroupsHoldDigits(s, i + 1, k);
    } else if k > 0 {
      GroupsHoldDigits(s, RunEnd(s, i) + 1, k - 1);
    }
  }

  lemma DropFirst(s: string, i: nat, j: nat)
    requires i < j <= |s| && !IsDigit(s[i])
    ensures Digits(s[i..j]) == Digits(s[i + 1..j])
  {
    assert s[i..j][1..] == s[i + 1..j];
  }

  /** Before the first group there is no digit. */
  lemma {:induction false} NothingBefore(s: string, i: nat)
    requires i <= |s| && Groups(s, i) != []
    ensures var g := Groups(s, i)[0]; i <= g.start && Digits(s[i..g.start]) == []
    decreases |s| - i
  {
    if !IsDigit(s[i]) {
      NothingBefore(s, i + 1);
      DropFirst(s, i, Groups(s, i)[0].start);
    }
  }

  /** Up to the second group there is the first one only. */
  lemma {:induction false} HeadDigits(s: string, i: nat)
    requires i <= |s| && |Groups(s, i)| >= 2
    ensures var gs := Groups(s, i); i <= gs[1].start && Digits(s[i..gs[1].start]) == Block(s, gs[0])
    decreases |s| - i
  {
    var gs := Groups(s, i);
    if !IsDigit(s[i]) {
      HeadDigits(s, i + 1);
      DropFirst(s, i, gs[1].start);
    } else {
      var j := RunEnd(s, i);
      var rest := Groups(s, j + 1);
      assert gs[1] == rest[0];
      NothingBefore(s, j + 1);
      var next := gs[1].start;
      assert s[i..next] == s[i..j] + s[j..next];
      DigitsConcat(s[i..j], s[j..next]);
      DigitsOfDigits(s[i..j]);
      DropFirst(s, j, next);
    }
  }

  /** After the last group but one there is the last one only. */
  lemma {:induction false} TailDigits(s: string, i: nat)
    requires i <= |s| && |Groups(s, i)| >= 2
    ensures var gs := Groups(s, i); Digits(s[gs[|gs| - 2].end..]) == Block(s, gs[|gs| - 1])
    decreases |s| - i
  {
    if !IsDigit(s[i]) {
      TailDigits(s, i + 1);
    } else {
      var j := RunEnd(s, i);
      var rest := Groups(s, j + 1);
      assert Groups(s, i) == [Group(i, j)] + rest;
      if |rest| >= 2 {
        TailDigits(s, j + 1);
      } else {
        SkipOne(s, j);
        OneGroupAllDigits(s, j + 1);
      }
    }
  }

  lemma DigitsAroundBlock(s: string, g: Group)
    requires g.start < g.end <= |s| && AllDigits(Block(s, g))
    ensures Digits(s[0..]) == Digits(s[0..g.start]) + (Block(s, g) + Digits(s[g.end..]))
  {
    DigitsSplit(s, 0, g.start);
    DigitsSplit(s, g.start, g.end);
    DigitsOfDigits(Block(s, g));
  }

  // ------------------------------------------------------------------ what a mask shows

  predicate Hidden(raw: string) { |Digits(raw)| >= 7 && '*' !in raw }

  /** A mark, and these digits. */
  predicate Shows(mask: string, digits: string) { '*' in mask && Digits(mask) == digits }

  lemma DigitsAround(head: string, n: nat, tail: string)
    ensures Digits(head + Stars(n) + tail) == Digits(head) + Digits(tail)
  {
    DigitsOfStars(n);
    DigitsConcat(head + Stars(n), tail);
    DigitsConcat(head, Stars(n));
  }

  lemma DigitsOfTail(n: nat, number: string)
    requires AllDigits(number)
    ensures Digits(Stars(n) + LastThree(number)) == LastThree(number)
  {
    DigitsOfStars(n);
    DigitsConcat(Stars(n), LastThree(number));
    DigitsOfDigits(LastThree(number));
  }

  lemma StarAmong(head: string, n: nat, tail: string)
    requires n > 0
    ensures '*' in head + Stars(n) + tail
  {
    assert (head + Stars(n) + tail)[|head|] == '*';
  }

  /** The parts of `raw` a wide mask leaves. */
  function Head(raw: string): string
    requires |Groups(raw, 0)| >= 3
  {
    raw[0..Groups(raw, 0)[1].start]
  }

  function Tail(raw: string): string
    requires |Groups(raw, 0)| >= 3
  {
    raw[Groups(raw, 0)[|Groups(raw, 0)| - 2].end..]
  }

  lemma WideForm(raw: string)
    requires Hidden(raw) && |Groups(raw, 0)| >= 3
    ensures MaskPhone(raw) == Head(raw) + Stars(3) + Tail(raw)
  {
  }

  lemma WideDigits(raw: string)
    requires |Groups(raw, 0)| >= 3
    ensures
      var gs := Groups(raw, 0);
      Digits(Head(raw)) + Digits(Tail(raw)) == Block(raw, gs[0]) + Block(raw, gs[|gs| - 1])
  {
    HeadDigits(raw, 0);
    TailDigits(raw, 0);
  }

  lemma WideMask(raw: string)
    requires Hidden(raw) && |Groups(raw, 0)| >= 3
    ensures var gs := Groups(raw, 0); Shows(MaskPhone(raw), Block(raw, gs[0]) + Block(raw, gs[|gs| - 1]))
  {
    WideForm(raw);
    WideDigits(raw);
    StarsAround(Head(raw), 3, Tail(raw));
  }

  lemma StarsAround(head: string, n: nat, tail: string)
    requires n > 0
    ensures Shows(head + Stars(n) + tail, Digits(head) + Digits(tail))
  {
    DigitsAround(head, n, tail);
    StarAmong(head, n, tail);
  }

  lemma CompactForm(raw: string)
    requires Hidden(raw) && |Groups(raw, 0)| < 3
    ensures MaskPhone(raw) == Stars(|Digits(raw)| - 3) + LastThree(Digits(raw))
  {
  }

  lemma CompactMask(raw: string)
    requires Hidden(raw) && |Groups(raw, 0)| < 3
    ensures Shows(MaskPhone(raw), LastThree(Digits(raw)))
  {
    CompactForm(raw);
    StarsThenTail(raw);
  }

  lemma StarsThenTail(raw: string)
    requires Hidden(raw)
    ensures Shows(Stars(|Digits(raw)| - 3) + LastThree(Digits(raw)), LastThree(Digits(raw)))
  {
    DigitsAreDigits(raw);
    StarsShowTail(|Digits(raw)| - 3, Digits(raw));
  }

  lemma StarsShowTail(n: nat, number: string)
    requires n > 0 && AllDigits(number)
    ensures Shows(Stars(n) + LastThree(number), LastThree(number))
  {
    DigitsOfTail(n, number);
    assert (Stars(n) + LastThree(number))[0] == '*';
  }

  /** Exactly which digits survive, for any string: all of them when nothing is hidden, the first and last
      group when there are three or more, else the last three. */
  lemma MaskShowsExactly(raw: string)
    ensures
      var gs := Groups(raw, 0);
      && (!Hidden(raw) ==> MaskPhone(raw) == raw)
      && (Hidden(raw) ==>
            Shows(MaskPhone(raw),
                  if |gs| >= 3 then Block(raw, gs[0]) + Block(raw, gs[|gs| - 1]) else LastThree(Digits(raw))))
  {
    if Hidden(raw) {
      if |Groups(raw, 0)| >= 3 { WideMask(raw); } else { CompactMask(raw); }
    }
  }

  lemma {:induction false} AllStars(n: nat)
    ensures |Stars(n)| == n && forall k :: 0 <= k < n ==> Stars(n)[k] == '*'
  {
    if n > 0 { AllStars(n - 1); }
  }

  /** The text of a wide mask: three stars from the second group to the last but one, all else as it was. */
  lemma WideMaskText(raw: string)
    requires Hidden(raw) && |Groups(raw, 0)| >= 3
    ensures
      var gs := Groups(raw, 0);
      MaskPhone(raw) == raw[..gs[1].start] + ['*', '*', '*'] + raw[gs[|gs| - 2].end..]
  {
    AllStars(3);
    assert Stars(3) == ['*', '*', '*'];
  }

  /** And of a compact one: a star for every digit but the last three, and nothing that stood between. */
  lemma CompactMaskText(raw: string)
    requires Hidden(raw) && |Groups(raw, 0)| < 3
    ensures
      var mask, number := MaskPhone(raw), Digits(raw);
      && |mask| == |number| && mask[|mask| - 3..] == number[|number| - 3..]
      && forall k :: 0 <= k < |mask| - 3 ==> mask[k] == '*'
  {
    CompactForm(raw);
    StarsAndTail(Digits(raw));
  }

  lemma StarsAndTail(number: string)
    requires |number| >= 3
    ensures
      var mask := Stars(|number| - 3) + LastThree(number);
      && |mask| == |number| && mask[|mask| - 3..] == number[|number| - 3..]
      && forall k :: 0 <= k < |mask| - 3 ==> mask[k] == '*'
  {
    AllStars(|number| - 3);
  }

  /** The short masks: three stars and the last three digits. */
  lemma ShortMaskText(phone: string)
    ensures MaskLast3(phone) == HideLeftOfTail(phone) == ['*', '*', '*'] + LastThree(Digits(phone))
    ensures |Digits(phone)| >= 3 ==>
              |MaskLast3(phone)| == 6 && MaskLast3(phone)[3..] == Digits(phone)[|Digits(phone)| - 3..]
  {
    AllStars(3);
    assert Stars(3) == ['*', '*', '*'];
  }

  /** A maximal run of digits. */
  predicate IsRun(s: string, g: Group) {
    && g.start < g.end <= |s| && AllDigits(s[g.start..g.end])
    && (g.start > 0 ==> !IsDigit(s[g.start - 1])) && (g.end < |s| ==> !IsDigit(s[g.end]))
  }

  predicate AreRuns(s: string, gs: seq<Group>, i: nat) {
    && (forall k :: 0 <= k < |gs| ==> IsRun(s, gs[k]) && i <= gs[k].start)
    && (forall k, l :: 0 <= k < l < |gs| ==> gs[k].end < gs[l].start)
  }

  predicate InAGroup(gs: seq<Group>, p: nat) { exists k :: 0 <= k < |gs| && gs[k].start <= p < gs[k].end }

  lemma OneMoreRun(s: string, g: Group, rest: seq<Group>, i: nat)
    requires IsRun(s, g) && i <= g.start && AreRuns(s, rest, g.end + 1)
    ensures AreRuns(s, [g] + rest, i)
    ensures forall p: nat :: g.start <= p < g.end || InAGroup(rest, p) ==> InAGroup([g] + rest, p)
  {
    var gs := [g] + rest;
    forall p: nat | g.start <= p < g.end || InAGroup(rest, p) ensures InAGroup(gs, p) {
      if g.start <= p < g.end {
        assert gs[0] == g;
      } else {
        var k :| 0 <= k < |rest| && rest[k].start <= p < rest[k].end;
        assert gs[k + 1] == rest[k];
      }
    }
  }

  lemma FirstRun(s: string, i: nat)
    requires i < |s| && IsDigit(s[i]) && (i > 0 ==> !IsDigit(s[i - 1]))
    ensures IsRun(s, Group(i, RunEnd(s, i)))
  {
    assert RunEnd(s, i) == RunEnd(s, i + 1);
  }

  /** These groups are runs, and every digit of `s` from `i` on is in one. */
  predicate Grouped(s: string, gs: seq<Group>, i: nat) {
    AreRuns(s, gs, i) && forall p: nat :: i <= p < |s| && IsDigit(s[p]) ==> InAGroup(gs, p)
  }

  lemma GroupsFrom(s: string, i: nat, rest: seq<Group>)
    requires i < |s| && IsDigit(s[i]) && (i > 0 ==> !IsDigit(s[i - 1])) && Grouped(s, rest, RunEnd(s, i) + 1)
    ensures Grouped(s, [Group(i, RunEnd(s, i))] + rest, i)
  {
    FirstRun(s, i);
    OneMoreRun(s, Group(i, RunEnd(s, i)), rest, i);
  }

  lemma GroupedEarlier(s: string, gs: seq<Group>, i: nat)
    requires i < |s| && !IsDigit(s[i]) && Grouped(s, gs, i + 1)
    ensures Grouped(s, gs, i)
  {
  }

  lemma NoneAfterTheEnd(s: string)
    ensures Grouped(s, [], |s|) && Grouped(s, [], |s| + 1)
  {
  }

  /** What is left to group after the run at `i`. */
  function GroupsAfter(s: string, i: nat): seq<Group>
    requires i < |s|
  {
    if RunEnd(s, i) == |s| then [] else Groups(s, RunEnd(s, i) + 1)
  }

  /** The groups are the maximal runs of digits, from the left, and every digit is in one. */
  lemma {:induction false} GroupsAreTheRuns(s: string, i: nat)
    requires i <= |s| && (i > 0 ==> !IsDigit(s[i - 1]))
    ensures Grouped(s, Groups(s, i), i)
    decreases |s| - i
  {
    if i == |s| {
      NoneAfterTheEnd(s);
    } else if IsDigit(s[i]) {
      if RunEnd(s, i) < |s| { GroupsAreTheRuns(s, RunEnd(s, i) + 1); } else { NoneAfterTheEnd(s); }
      GroupsAtRun(s, i);
    } else {
      GroupsAreTheRuns(s, i + 1);
      GroupsAtGap(s, i);
    }
  }

  lemma GroupsAtRun(s: string, i: nat)
    requires i < |s| && IsDigit(s[i]) && (i > 0 ==> !IsDigit(s[i - 1]))
    requires Grouped(s, GroupsAfter(s, i), RunEnd(s, i) + 1)
    ensures Grouped(s, Groups(s, i), i)
  {
    GroupFirst(s, i);
    GroupsFrom(s, i, GroupsAfter(s, i));
  }

  lemma GroupsAtGap(s: string, i: nat)
    requires i < |s| && !IsDigit(s[i]) && Grouped(s, Groups(s, i + 1), i + 1)
    ensures Grouped(s, Groups(s, i), i)
  {
    GroupedEarlier(s, Groups(s, i + 1), i);
  }

  /** Masking again changes nothing, on any string. */
  lemma MaskIsIdempotent(raw: string)
    ensures MaskPhone(MaskPhone(raw)) == MaskPhone(raw)
  {
    MaskShowsExactly(raw);
    MaskShowsExactly(MaskPhone(raw));
  }

  /** After the last group there is no digit. */
  lemma {:induction false} NothingAfter(s: string, i: nat)
    requires i <= |s| && Groups(s, i) != []
    ensures var gs := Groups(s, i); Digits(s[gs[|gs| - 1].end..]) == []
    decreases |s| - i
  {
    if !IsDigit(s[i]) {
      NothingAfter(s, i + 1);
    } else {
      var j := RunEnd(s, i);
      if j == |s| {
        assert s[j..] == [];
      } else {
        var rest := Groups(s, j + 1);
        assert Groups(s, i) == [Group(i, j)] + rest;
        if rest == [] {
          SkipOne(s, j);
          NoGroupNoDigit(s, j + 1);
        } else {
          NothingAfter(s, j + 1);
        }
      }
    }
  }

  /** The digits before the last group, and the last group. */
  lemma DigitsBeforeLast(s: string)
    requires Groups(s, 0) != []
    ensures var g := Groups(s, 0)[|Groups(s, 0)| - 1]; Digits(s) == Digits(s[0..g.start]) + Block(s, g)
  {
    var gs := Groups(s, 0);
    var g := gs[|gs| - 1];
    GroupsHoldDigits(s, 0, |gs| - 1);
    NothingAfter(s, 0);
    DigitsAroundBlock(s, g);
    assert s[0..] == s && Block(s, g) + [] == Block(s, g);
  }

  /** `last` is three digits long, or `x` and `y` end alike as far as three digits reach. */
  predicate EndAlike(x: string, y: string, last: string) {
    |last| >= 3 || LastDigits(x, 3 - |last|) == LastDigits(y, 3 - |last|)
  }

  /** When two numbers with a common end have their last three digits in common. */
  lemma TailsCompared(x: string, y: string, last: string)
    ensures LastThree(x + last) == LastThree(y + last) <==> EndAlike(x, y, last)
  {
    if |last| >= 3 {
      assert LastThree(x + last) == LastThree(last) == LastThree(y + last);
    } else {
      EndsWith(x, last);
      EndsWith(y, last);
      var a, b := LastDigits(x, 3 - |last|), LastDigits(y, 3 - |last|);
      assert (a + last)[..|a + last| - |last|] == a && (b + last)[..|b + last| - |last|] == b;
    }
  }

  lemma EndsWith(x: string, last: string)
    requires |last| < 3
    ensures LastThree(x + last) == LastDigits(x, 3 - |last|) + last
  {
  }

  /** Whether the last group alone, or with the end of the first, still reads as the number's last three digits. */
  predicate TailShown(raw: string)
    requires |Groups(raw, 0)| >= 3
  {
    var gs := Groups(raw, 0);
    var g := gs[|gs| - 1];
    EndAlike(Block(raw, gs[0]), Digits(raw[0..g.start]), Block(raw, g))
  }

  /** On every string: the mask keeps the last three digits if and only if it hides nothing, or there are fewer than
      three groups, or the last group has three digits, or the first group happens to end like what comes before
      the last. */
  lemma TailSurvivesExactly(raw: string)
    ensures LastThree(Digits(MaskPhone(raw))) == LastThree(Digits(raw)) <==>
              !Hidden(raw) || |Groups(raw, 0)| < 3 || TailShown(raw)
  {
    if Hidden(raw) {
      if |Groups(raw, 0)| >= 3 {
        WideTail(raw);
      } else {
        CompactMask(raw);
        assert LastThree(LastThree(Digits(raw))) == LastThree(Digits(raw));
      }
    } else {
      MaskShowsExactly(raw);
    }
  }

  lemma WideTail(raw: string)
    requires Hidden(raw) && |Groups(raw, 0)| >= 3
    ensures LastThree(Digits(MaskPhone(raw))) == LastThree(Digits(raw)) <==> TailShown(raw)
  {
    var first, before, last := WideBlocks(raw);
    TailsCompared(first, before, last);
  }

  /** A wide mask shows the first and the last block; the whole number ends in the last block too. */
  lemma WideBlocks(raw: string) returns (first: string, before: string, last: string)
    requires Hidden(raw) && |Groups(raw, 0)| >= 3
    ensures Digits(MaskPhone(raw)) == first + last && Digits(raw) == before + last
    ensures TailShown(raw) <==> EndAlike(first, before, last)
  {
    var gs := Groups(raw, 0);
    var g := gs[|gs| - 1];
    first, before, last := Block(raw, gs[0]), Digits(raw[0..g.start]), Block(raw, g);
    assert Digits(MaskPhone(raw)) == first + last by { WideMask(raw); }
    assert Digits(raw) == before + last by { DigitsBeforeLast(raw); }
    assert TailShown(raw) <==> EndAlike(first, before, last);
  }

  // ------------------------------------------------------------------ accepted numbers

  predicate DigitsAt(v: string, i: nat, n: nat) { i + n <= |v| && AllDigits(v[i..i + n]) }

  /** `-?`. */
  function PastHyphen(v: string, i: nat): nat { if i < |v| && v[i] == '-' then i + 1 else i }

  /** `$`, which also matches before one final newline. */
  predicate AtEnd(v: string, i: nat) { i == |v| || (i + 1 == |v| && v[i] == '\n') }

  /** A joint, `m` digits, a joint, `m` digits and the end. */
  predicate TwoBlocks(v: string, n: nat, m: nat) {
    var i := PastHyphen(v, n);
    && DigitsAt(v, i, m)
    && var j := PastHyphen(v, i + m);
       DigitsAt(v, j, m) && AtEnd(v, j + m)
  }

  /** `^09\d{2}-?\d{3}-?\d{3}$`. */
  predicate Mobile(v: string) { |v| >= 2 && v[0] == '0' && v[1] == '9' && DigitsAt(v, 2, 2) && TwoBlocks(v, 4, 3) }

  /** `^02-?\d{4}-?\d{4}$`. */
  predicate Landline(v: string) { |v| >= 2 && v[0] == '0' && v[1] == '2' && TwoBlocks(v, 2, 4) }

  /** `_validate_phone`. */
  predicate Accepted(v: string) { Mobile(v) || Landline(v) }

  predicate Joint(h: string) { h == [] || h == ['-'] }

  predicate Ending(e: string) { e == [] || e == ['\n'] }

  /** Three blocks of digits, a hyphen or nothing at each joint, and at most a newline at the end. */
  predicate Spelled(v: string, a: string, h: string, b: string, k: string, c: string, e: string) {
    && v == a + (h + (b + (k + (c + e)))) && AllDigits(a) && AllDigits(b) && AllDigits(c)
    && Joint(h) && Joint(k) && Ending(e)
  }

  /** A mobile number, 09 and two digits, three, three; or a landline, 02, four, four. */
  predicate WellFormed(a: string, b: string, c: string) {
    || (|a| == 4 && a[0] == '0' && a[1] == '9' && |b| == 3 && |c| == 3)
    || (|a| == 2 && a[0] == '0' && a[1] == '2' && |b| == 4 && |c| == 4)
  }

  lemma JointIs(v: string, i: nat)
    requires i <= |v|
    ensures i <= PastHyphen(v, i) <= |v| && Joint(v[i..PastHyphen(v, i)])
  {
    if i < |v| && v[i] == '-' { assert v[i..i + 1] == ['-']; }
  }

  lemma EndIs(v: string, i: nat)
    requires i <= |v|
    ensures AtEnd(v, i) <==> Ending(v[i..])
  {
    if AtEnd(v, i) && i < |v| { assert v[i..] == ['\n']; }
    if Ending(v[i..]) && i < |v| { assert v[i] == v[i..][0]; }
  }

  lemma BlockIs(v: string, n: nat, m: nat) returns (h: string, b: string)
    requires n <= |v| && DigitsAt(v, PastHyphen(v, n), m)
    ensures v[n..] == h + (b + v[PastHyphen(v, n) + m..]) && Joint(h) && AllDigits(b) && |b| == m
  {
    var i := PastHyphen(v, n);
    JointIs(v, n);
    h, b := v[n..i], v[i..i + m];
    assert v[n..] == h + v[i..];
    assert v[i..] == b + v[i + m..];
  }

  /** What follows the first block, read off. */
  lemma RestIsSpelled(v: string, n: nat, m: nat) returns (h: string, b: string, k: string, c: string, e: string)
    requires n <= |v| && TwoBlocks(v, n, m)
    ensures v[n..] == h + (b + (k + (c + e))) && AllDigits(b) && AllDigits(c) && |b| == |c| == m
    ensures Joint(h) && Joint(k) && Ending(e)
  {
    var i := PastHyphen(v, n);
    var j := PastHyphen(v, i + m);
    h, b := BlockIs(v, n, m);
    k, c := BlockIs(v, i + m, m);
    EndIs(v, j + m);
    e := v[j + m..];
    Nested(v[n..], h, b, v[i + m..], k, c, e);
  }

  lemma Nested(x: string, h: string, b: string, y: string, k: string, c: string, e: string)
    requires x == h + (b + y) && y == k + (c + e)
    ensures x == h + (b + (k + (c + e)))
  {
  }

  lemma AcceptedIsSpelled(v: string) returns (a: string, h: string, b: string, k: string, c: string, e: string)
    requires Accepted(v)
    ensures Spelled(v, a, h, b, k, c, e) && WellFormed(a, b, c)
  {
    if Mobile(v) {
      h, b, k, c, e := RestIsSpelled(v, 4, 3);
      a := v[..4];
      assert a == [v[0], v[1]] + v[2..4] && v == v[..4] + v[4..];
    } else {
      h, b, k, c, e := RestIsSpelled(v, 2, 4);
      a := v[..2];
      assert a == [v[0], v[1]] && v == v[..2] + v[2..];
    }
  }

  lemma BlockAt(v: string, n: nat, h: string, b: string, rest: string)
    requires n <= |v| && v[n..] == h + (b + rest) && Joint(h) && b != [] && AllDigits(b)
    ensures PastHyphen(v, n) == n + |h| && DigitsAt(v, n + |h|, |b|) && v[n + |h| + |b|..] == rest
  {
    var i := n + |h|;
    assert v[n] == v[n..][0] && v[i..] == v[n..][|h|..] == b + rest;
    assert v[i..i + |b|] == v[i..][..|b|] == b && v[i + |b|..] == v[i..][|b|..];
  }

  lemma LastBlockAt(v: string, n: nat, k: string, c: string, e: string)
    requires n <= |v| && v[n..] == k + (c + e) && Joint(k) && c != [] && AllDigits(c) && Ending(e)
    ensures PastHyphen(v, n) == n + |k| && DigitsAt(v, n + |k|, |c|) && AtEnd(v, n + |k| + |c|)
  {
    BlockAt(v, n, k, c, e);
    EndIs(v, n + |k| + |c|);
  }

  lemma TwoBlocksAt(v: string, n: nat, i: nat, j: nat, m: nat)
    requires PastHyphen(v, n) == i && DigitsAt(v, i, m)
    requires PastHyphen(v, i + m) == j && DigitsAt(v, j, m) && AtEnd(v, j + m)
    ensures TwoBlocks(v, n, m)
  {
  }

  lemma SpelledRest(v: string, n: nat, h: string, b: string, y: string, k: string, c: string, e: string)
    requires n <= |v| && v[n..] == h + (b + y) && y == k + (c + e)
    requires AllDigits(b) && AllDigits(c) && |b| == |c| > 0 && Joint(h) && Joint(k) && Ending(e)
    ensures TwoBlocks(v, n, |b|)
  {
    var i := n + |h|;
    BlockAt(v, n, h, b, y);
    LastBlockAt(v, i + |b|, k, c, e);
    TwoBlocksAt(v, n, i, i + |b| + |k|, |b|);
  }

  lemma SpelledIsAccepted(v: string, a: string, h: string, b: string, k: string, c: string, e: string)
    requires Spelled(v, a, h, b, k, c, e) && WellFormed(a, b, c)
    ensures Accepted(v)
  {
    var n := |a|;
    assert v[..n] == a && v[n..] == h + (b + (k + (c + e)));
    assert v[0] == v[..n][0] && v[1] == v[..n][1];
    SpelledRest(v, n, h, b, k + (c + e), k, c, e);
    if n == 4 { assert v[2..4] == a[2..4]; }
  }

  lemma {:induction false} RunEndsAt(s: string, i: nat, j: nat)
    requires i <= j <= |s| && AllDigits(s[i..j]) && (j < |s| ==> !IsDigit(s[j]))
    ensures RunEnd(s, i) == j
    decreases j - i
  {
    if i < j {
      assert IsDigit(s[i..j][0]);
      assert s[i + 1..j] == s[i..j][1..];
      RunEndsAt(s, i + 1, j);
    }
  }

  /** A maximal run is the next group. */
  lemma GroupAt(s: string, i: nat, j: nat)
    requires i < j <= |s| && AllDigits(s[i..j]) && (j < |s| ==> !IsDigit(s[j]))
    ensures Groups(s, i) == [Group(i, j)] + Groups(s, j)
  {
    RunEndsAt(s, i, j);
    FirstDigit(s, i, j);
    GroupFirst(s, i);
    GroupsAfterRun(s, j);
  }

  lemma FirstDigit(s: string, i: nat, j: nat)
    requires i < j <= |s| && AllDigits(s[i..j])
    ensures IsDigit(s[i])
  {
    assert IsDigit(s[i..j][0]);
  }

  lemma GroupFirst(s: string, i: nat)
    requires i < |s| && IsDigit(s[i])
    ensures
      var j := RunEnd(s, i);
      Groups(s, i) == [Group(i, j)] + (if j == |s| then [] else Groups(s, j + 1))
  {
  }

  lemma GroupsAfterRun(s: string, j: nat)
    requires j <= |s| && (j < |s| ==> !IsDigit(s[j]))
    ensures Groups(s, j) == if j == |s| then [] else Groups(s, j + 1)
  {
  }

  lemma AllDigitsJoin(s: string, i: nat, j: nat, k: nat)
    requires i <= j <= k <= |s| && AllDigits(s[i..j]) && AllDigits(s[j..k])
    ensures AllDigits(s[i..k])
  {
    assert s[i..k] == s[i..j] + s[j..k];
  }

  /** Three blocks, each joint a hyphen or nothing. */
  predicate Blocks(v: string, a: nat, i: nat, b: nat, j: nat, c: nat) {
    && 0 < a <= i < b <= j < c <= |v| && i == PastHyphen(v, a) && j == PastHyphen(v, b) && AtEnd(v, c)
    && AllDigits(v[..a]) && AllDigits(v[i..b]) && AllDigits(v[j..c])
  }

  lemma LastGroup(v: string, j: nat, c: nat)
    requires j < c <= |v| && AllDigits(v[j..c]) && AtEnd(v, c)
    ensures Groups(v, j) == [Group(j, c)]
  {
    GroupAt(v, j, c);
    assert Groups(v, c) == [];
  }

  lemma GroupsOfBlocks(v: string, a: nat, i: nat, b: nat, j: nat, c: nat)
    requires Blocks(v, a, i, b, j, c)
    ensures if a < i && b < j then Groups(v, 0) == [Group(0, a), Group(i, b), Group(j, c)] else |Groups(v, 0)| <= 2
  {
    assert v[0..a] == v[..a];
    if b < j {
      LastGroup(v, j, c);
      if a < i {
        GroupAt(v, i, b);
        GroupAt(v, 0, a);
      } else {
        AllDigitsJoin(v, 0, a, b);
        GroupAt(v, 0, b);
      }
    } else {
      AllDigitsJoin(v, i, b, c);
      if a < i {
        LastGroup(v, i, c);
        GroupAt(v, 0, a);
      } else {
        AllDigitsJoin(v, 0, a, c);
        LastGroup(v, 0, c);
      }
    }
  }

  lemma JointHasNoDigit(v: string, a: nat)
    requires a <= |v|
    ensures a <= PastHyphen(v, a) <= |v| && Digits(v[a..PastHyphen(v, a)]) == []
  {
    if a < |v| && v[a] == '-' { assert v[a..a + 1] == [v[a]]; }
  }

  lemma EndHasNoDigit(v: string, c: nat)
    requires c <= |v| && AtEnd(v, c)
    ensures Digits(v[c..]) == []
  {
    if c < |v| { assert v[c..] == [v[c]]; }
  }

  /** A block and the joint after it. */
  lemma BlockThenJoint(v: string, s: nat, e: nat)
    requires s <= e <= |v| && AllDigits(v[s..e])
    ensures PastHyphen(v, e) <= |v| && Digits(v[s..]) == v[s..e] + Digits(v[PastHyphen(v, e)..])
  {
    JointHasNoDigit(v, e);
    var next := PastHyphen(v, e);
    DigitsSplit(v, s, e);
    DigitsSplit(v, e, next);
    DigitsOfDigits(v[s..e]);
    assert [] + Digits(v[next..]) == Digits(v[next..]);
  }

  lemma BlockThenEnd(v: string, s: nat, e: nat)
    requires s <= e <= |v| && AllDigits(v[s..e]) && AtEnd(v, e)
    ensures Digits(v[s..]) == v[s..e]
  {
    DigitsSplit(v, s, e);
    DigitsOfDigits(v[s..e]);
    EndHasNoDigit(v, e);
    assert v[s..e] + [] == v[s..e];
  }

  lemma DigitsOfBlocks(v: string, a: nat, i: nat, b: nat, j: nat, c: nat)
    requires Blocks(v, a, i, b, j, c)
    ensures Digits(v) == v[..a] + v[i..b] + v[j..c]
  {
    assert v[0..] == v && v[0..a] == v[..a];
    calc {
      Digits(v);
      { BlockThenJoint(v, 0, a); }
      v[..a] + Digits(v[i..]);
      { BlockThenJoint(v, i, b); }
      v[..a] + (v[i..b] + Digits(v[j..]));
      { BlockThenEnd(v, j, c); }
      v[..a] + (v[i..b] + v[j..c]);
      v[..a] + v[i..b] + v[j..c];
    }
  }

  lemma NoStarInBlocks(v: string, a: nat, i: nat, b: nat, j: nat, c: nat)
    requires Blocks(v, a, i, b, j, c)
    ensures '*' !in v
  {
    forall k | 0 <= k < |v| ensures v[k] != '*' {
      if k < a { assert IsDigit(v[..a][k]); }
      else if k < i { assert v[k] == '-'; }
      else if k < b { assert IsDigit(v[i..b][k - i]); }
      else if k < j { assert v[k] == '-'; }
      else if k < c { assert IsDigit(v[j..c][k - j]); }
      else { assert v[k] == '\n'; }
    }
  }

  /** Every accepted number is three blocks of ten digits in all, the last of three or more. */
  lemma AcceptedBlocks(v: string) returns (a: nat, i: nat, b: nat, j: nat, c: nat)
    requires Accepted(v)
    ensures Blocks(v, a, i, b, j, c) && a + (b - i) + (c - j) == 10 && b - i >= 3 && c - j >= 3
  {
    if Mobile(v) {
      a, i := 4, PastHyphen(v, 4);
      b := i + 3;
      j := PastHyphen(v, b);
      c := j + 3;
      assert v[..4] == [v[0], v[1]] + v[2..4];
    } else {
      a, i := 2, PastHyphen(v, 2);
      b := i + 4;
      j := PastHyphen(v, b);
      c := j + 4;
      assert v[..2] == [v[0], v[1]];
    }
  }

  lemma BlocksAreMasked(v: string, a: nat, i: nat, b: nat, j: nat, c: nat)
    requires Blocks(v, a, i, b, j, c) && a + (b - i) + (c - j) == 10 && b - i >= 3 && c - j >= 3
    ensures |Digits(v)| == 10
    ensures LastThree(Digits(MaskPhone(v))) == LastThree(Digits(v)) && |Digits(MaskPhone(v))| <= 7
  {
    var first, hidden, last := v[..a], v[i..b], v[j..c];
    DigitsOfBlocks(v, a, i, b, j, c);
    assert Digits(v) == first + (hidden + last);
    NoStarInBlocks(v, a, i, b, j, c);
    GroupsOfBlocks(v, a, i, b, j, c);
    if a < i && b < j {
      WideMask(v);
      assert first + (hidden + last) == (first + hidden) + last;
      TailsCompared(first, first + hidden, last);
    } else {
      CompactMask(v);
    }
  }

  /** For every number the validator accepts, the mask keeps its last three digits and hides three or more. */
  lemma AcceptedIsMasked(v: string)
    requires Accepted(v)
    ensures |Digits(v)| == 10
    ensures LastThree(Digits(MaskPhone(v))) == LastThree(Digits(v))
    ensures |Digits(MaskPhone(v))| <= |Digits(v)| - 3
  {
    var a, i, b, j, c := AcceptedBlocks(v);
    BlocksAreMasked(v, a, i, b, j, c);
  }

  /** With both hyphens the mark stands for the middle block alone: `0900-000-001` shows as `0900-***-001`. */
  lemma HyphensSurvive(v: string, a: nat, i: nat, b: nat, j: nat, c: nat)
    requires Blocks(v, a, i, b, j, c) && a < i && b < j && a + (b - i) + (c - j) >= 7
    ensures MaskPhone(v) == v[..i] + Stars(3) + v[b..]
  {
    DigitsOfBlocks(v, a, i, b, j, c);
    NoStarInBlocks(v, a, i, b, j, c);
    GroupsOfBlocks(v, a, i, b, j, c);
  }

  /** What a number with both hyphens holds and what its mask shows. */
  lemma HyphenatedDigits(v: string, a: nat, i: nat, b: nat, j: nat, c: nat)
    requires Blocks(v, a, i, b, j, c) && a < i && b < j && a + (b - i) + (c - j) >= 7
    ensures Digits(v) == v[..a] + v[i..b] + v[j..c] && Digits(MaskPhone(v)) == v[..a] + v[j..c]
  {
    DigitsOfBlocks(v, a, i, b, j, c);
    NoStarInBlocks(v, a, i, b, j, c);
    GroupsOfBlocks(v, a, i, b, j, c);
    WideMask(v);
  }

  lemma LastThreeOf(a: string, b: string, c: string)
    requires |a| == 4 && |b| == 3 && |c| == 1
    ensures LastThree(a + b + c) == [b[1], b[2], c[0]] && LastThree(a + c) == [a[2], a[3], c[0]]
  {
    assert (a + b + c)[5..] == [b[1], b[2], c[0]];
    assert (a + c)[2..] == [a[2], a[3], c[0]];
  }

  /** `1235-645-7` shows as `1235-***-7`: its last three digits read 357 and were 457. */
  lemma ShortLastGroupLosesTheTail(raw: string)
    requires raw == "1235-645-7"
    ensures MaskPhone(raw) == raw[..5] + Stars(3) + raw[8..]
    ensures LastThree(Digits(raw)) == "457" && LastThree(Digits(MaskPhone(raw))) == "357"
  {
    HyphensSurvive(raw, 4, 5, 8, 9, 10);
    HyphenatedDigits(raw, 4, 5, 8, 9, 10);
    LastThreeOf(raw[..4], raw[5..8], raw[9..10]);
  }

  // ------------------------------------------------------------------ the status answer

  lemma ShortTail(s: string)
    ensures var t := LastThree(Digits(s)); |t| <= 3 && LastThree(t) == t && Digits(Stars(3) + t) == t
  {
    DigitsAreDigits(s);
    DigitsOfTail(3, Digits(s));
  }

  /** The status answer passes through three masks and comes out as the first left it. */
  lemma StatusChain(phone: string)
    ensures HideLeftOfTail(MaskPhone(MaskLast3(phone))) == MaskLast3(phone)
  {
    ShortTail(phone);
    MaskShowsExactly(MaskLast3(phone));
  }

  /** Given the stored number of an accepted phone instead, the field's two validators still answer no more. */
  lemma StatusOfStoredPhone(v: string)
    requires Accepted(v)
    ensures HideLeftOfTail(MaskPhone(v)) == MaskLast3(v)
    ensures HideLeftOfTail(MaskPhone(Digits(v))) == MaskLast3(v)
  {
    AcceptedIsMasked(v);
    DigitsAreDigits(v);
    DigitsOfDigits(Digits(v));
    GroupAt(Digits(v), 0, 10);
    assert Groups(Digits(v), 10) == [];
    assert Digits(v)[0..10] == Digits(v);
    MaskShowsExactly(Digits(v));
    ShortTail(v);
  }
}
