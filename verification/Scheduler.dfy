/**
 * Proposing publishing dates: walk the allowed days of a range once, and give each content the
 * next one on which its platform is free. Dates are proleptic Gregorian ordinals.
 */
module Scheduler {
  import opened Wrappers

  /** The ordinal of 9999-12-31, the last date there is. */
  const LAST_DAY := 3652059

  type Day = d: int | 1 <= d <= LAST_DAY witness 1

  /** `platform` is empty when the content has no type. */
  datatype Content = Content(id: int, contentType: string)

  datatype Cadence = Daily | Weekdays | Mwf | Unrecognised

  datatype Slot = Slot(contentId: int, platform: string, day: Option<Day>)

  datatype Proposal =
    | Plan(slots: seq<Slot>)
    | InvalidDate
    | EndBeforeStart
    | NotFound(ids: seq<int>)
    | PastLastDay                 // stepping over the last day raises

  type Busy = set<(Day, string)>

  /** What to schedule where: contents in order, the cadence, the range, the calendar's entries in it. */
  datatype Problem = Problem(contents: seq<Content>, cadence: Cadence, start: Day, end: Day, busy: Busy)

  /** Monday is 0. */
  function Weekday(d: Day): int {
    (d + 6) % 7
  }

  predicate Allows(c: Cadence, d: Day) {
    match c
    case Daily => true
    case Weekdays => Weekday(d) < 5
    case Mwf => Weekday(d) == 0 || Weekday(d) == 2 || Weekday(d) == 4
    case Unrecognised => false
  }

  function Platform(c: Content): string {
    if c.contentType == "" then "unknown" else c.contentType
  }

  predicate Candidate(pr: Problem, d: Day) {
    pr.start <= d <= pr.end && Allows(pr.cadence, d)
  }

  // ---- the specification ---------------------------------------------------------------

  /** The earliest candidate after `used` that is free for the platform, if there is one. */
  ghost predicate EarliestFree(pick: Option<Day>, used: int, platform: string, pr: Problem) {
    match pick
    case Some(d) => IsFree(d, used, platform, pr) && forall e: Day :: e < d ==> !IsFree(e, used, platform, pr)
    case None => forall e: Day :: !IsFree(e, used, platform, pr)
  }

  predicate IsFree(d: Day, used: int, platform: string, pr: Problem) {
    used < d && Candidate(pr, d) && (d, platform) !in pr.busy
  }

  /** Every day up to this one has been used up before item i: no day is looked at twice. */
  function UsedBefore(slots: seq<Slot>, i: nat): int
    requires i <= |slots|
  {
    if i == 0 then 0 else if slots[i - 1].day == None then LAST_DAY else slots[i - 1].day.value
  }

  ghost predicate GreedyAt(slots: seq<Slot>, i: nat, pr: Problem)
    requires i < |slots| <= |pr.contents|
  {
    && slots[i].contentId == pr.contents[i].id && slots[i].platform == Platform(pr.contents[i])
    && EarliestFree(slots[i].day, UsedBefore(slots, i), slots[i].platform, pr)
  }

  ghost predicate Greedy(slots: seq<Slot>, pr: Problem) {
    |slots| <= |pr.contents| && forall i :: 0 <= i < |slots| ==> GreedyAt(slots, i, pr)
  }

  lemma PickIsUnique(p: Option<Day>, q: Option<Day>, used: int, platform: string, pr: Problem)
    requires EarliestFree(p, used, platform, pr) && EarliestFree(q, used, platform, pr)
    ensures p == q
  {
  }

  /** The specification leaves no choice. */
  lemma {:induction false} GreedyIsUnique(p: seq<Slot>, q: seq<Slot>, pr: Problem, i: nat)
    requires Greedy(p, pr) && Greedy(q, pr) && i < |p| && i < |q|
    ensures p[i] == q[i]
  {
    if i > 0 {
      GreedyIsUnique(p, q, pr, i - 1);
    }
    assert GreedyAt(p, i, pr) && GreedyAt(q, i, pr);
    PickIsUnique(p[i].day, q[i].day, UsedBefore(p, i), p[i].platform, pr);
  }

  // ---- the two loops ----------------------------------------------------------------------

  ghost predicate Ascending(days: seq<Day>) {
    forall i, j :: 0 <= i < j < |days| ==> days[i] < days[j]
  }

  /** The allowed days of the range in order; `overran` when the walk stepped past the last day. */
  method Candidates(pr: Problem) returns (days: seq<Day>, overran: bool)
    requires pr.start <= pr.end
    ensures overran <==> pr.end == LAST_DAY
    ensures !overran ==> Ascending(days) && forall d: Day :: d in days <==> Candidate(pr, d)
  {
    days := [];
    var cursor: Day := pr.start;
    while cursor <= pr.end
      invariant pr.start <= cursor <= pr.end + 1
      invariant forall k :: 0 <= k < |days| ==> days[k] < cursor
      invariant Ascending(days)
      invariant forall d: Day :: d in days <==> Candidate(pr, d) && d < cursor
      decreases pr.end - cursor
    {
      if Allows(pr.cadence, cursor) {
        days := days + [cursor];
      }
      if cursor == LAST_DAY {
        return days, true;
      }
      cursor := cursor + 1;
    }
    overran := false;
  }

  /** Everything from `next` on is still to come, everything before it is used up. */
  ghost predicate Position(days: seq<Day>, next: nat, used: int) {
    && next <= |days|
    && (forall k :: 0 <= k < next ==> days[k] <= used)
    && (forall k :: next <= k < |days| ==> used < days[k])
  }

  /** One turn of the shared iterator: skip the days on which the platform is taken. */
  method NextFree(days: seq<Day>, next: nat, platform: string, occupied: Busy)
    returns (slot: Option<Day>, after: nat)
    requires next <= |days|
    ensures next <= after <= |days|
    ensures slot.Some? ==> next < after && days[after - 1] == slot.value && (slot.value, platform) !in occupied
    ensures forall k :: next <= k < (if slot.Some? then after - 1 else after) ==> (days[k], platform) in occupied
    ensures slot == None ==> after == |days|
  {
    after := next;
    while after < |days|
      invariant next <= after <= |days|
      invariant forall k :: next <= k < after ==> (days[k], platform) in occupied
    {
      var d := days[after];
      after := after + 1;
      if (d, platform) !in occupied {
        return Some(d), after;
      }
    }
    slot := None;
  }

  ghost predicate AllFound(ids: seq<int>, store: map<int, Content>) {
    forall i :: 0 <= i < |ids| ==> ids[i] in store
  }

  method Missing(ids: seq<int>, store: map<int, Content>) returns (found: seq<Content>, missing: seq<int>)
    ensures missing == [] <==> AllFound(ids, store)
    ensures forall id :: id in missing <==> id in ids && id !in store
    ensures AllFound(ids, store) ==> |found| == |ids| && forall i :: 0 <= i < |ids| ==> found[i] == store[ids[i]]
  {
    found, missing := [], [];
    var i := 0;
    while i < |ids|
      invariant i <= |ids|
      invariant forall id :: id in missing ==> id in ids && id !in store
      invariant forall k :: 0 <= k < i && ids[k] !in store ==> ids[k] in missing
      invariant missing == [] ==>
                  |found| == i && forall k :: 0 <= k < i ==> ids[k] in store && found[k] == store[ids[k]]
    {
      if ids[i] in store {
        found := found + [store[ids[i]]];
      } else {
        missing := missing + [ids[i]];
        assert missing[|missing| - 1] in missing;
      }
      i := i + 1;
    }
    if missing != [] {
      ghost var id := missing[0];
      assert id in missing;
      ghost var k :| 0 <= k < |ids| && ids[k] == id;
      assert ids[k] !in store;
    }
  }

  /** Adding the slots of the plan itself changes nothing for the days still to come. */
  ghost predicate SameAhead(busy: Busy, occupied: Busy, used: int) {
    forall d: Day, p: string :: used < d ==> ((d, p) in occupied <==> (d, p) in busy)
  }

  method Assign(days: seq<Day>, pr: Problem) returns (slots: seq<Slot>)
    requires Ascending(days) && forall d: Day :: d in days <==> Candidate(pr, d)
    ensures |slots| == |pr.contents| && Greedy(slots, pr)
  {
    slots := [];
    var next, occupied, i := 0, pr.busy, 0;
    while i < |pr.contents|
      invariant i == |slots| <= |pr.contents| && Greedy(slots, pr)
      invariant Position(days, next, UsedBefore(slots, i)) && SameAhead(pr.busy, occupied, UsedBefore(slots, i))
    {
      var platform := Platform(pr.contents[i]);
      var slot, after := NextFree(days, next, platform, occupied);
      PickIsEarliest(days, next, after, slot, UsedBefore(slots, i), platform, pr, occupied);
      if slot.Some? {
        occupied := occupied + {(slot.value, platform)};
      }
      GreedyExtends(slots, Slot(pr.contents[i].id, platform, slot), pr);
      slots, next, i := slots + [Slot(pr.contents[i].id, platform, slot)], after, i + 1;
    }
  }

  lemma PickIsEarliest(days: seq<Day>, next: nat, after: nat, slot: Option<Day>, used: int, platform: string,
                       pr: Problem, occupied: Busy)
    requires Ascending(days) && forall d: Day :: d in days <==> Candidate(pr, d)
    requires Position(days, next, used) && SameAhead(pr.busy, occupied, used)
    requires next <= after <= |days| && (slot == None ==> after == |days|)
    requires slot.Some? ==> next < after && days[after - 1] == slot.value && (slot.value, platform) !in occupied
    requires forall k :: next <= k < (if slot.Some? then after - 1 else after) ==> (days[k], platform) in occupied
    ensures EarliestFree(slot, used, platform, pr)
    ensures Position(days, after, if slot.Some? then slot.value else LAST_DAY)
  {
    forall e: Day | slot.Some? ==> e < slot.value ensures !IsFree(e, used, platform, pr) {
      if used < e && Candidate(pr, e) {
        var k :| 0 <= k < |days| && days[k] == e;
        assert next <= k;
        assert (days[k], platform) in occupied;
      }
    }
  }

  lemma GreedyExtends(slots: seq<Slot>, s: Slot, pr: Problem)
    requires Greedy(slots, pr) && |slots| < |pr.contents|
    requires s.contentId == pr.contents[|slots|].id && s.platform == Platform(pr.contents[|slots|])
    requires EarliestFree(s.day, UsedBefore(slots, |slots|), s.platform, pr)
    ensures Greedy(slots + [s], pr)
    ensures UsedBefore(slots + [s], |slots| + 1) == if s.day.Some? then s.day.value else LAST_DAY
  {
    var longer := slots + [s];
    forall i | 0 <= i < |longer| ensures GreedyAt(longer, i, pr) {
      assert UsedBefore(longer, i) == UsedBefore(slots, i);
      if i < |slots| {
        assert GreedyAt(slots, i, pr) && longer[i] == slots[i];
      }
    }
  }

  ghost function ProblemOf(
      ids: seq<int>, c: Cadence, start: Day, end: Day, store: map<int, Content>, busy: Busy): Problem
    requires AllFound(ids, store)
  {
    Problem(seq(|ids|, i requires 0 <= i < |ids| => store[ids[i]]), c, start, end, busy)
  }

  /** `from` and `to` are None when they do not read as dates; `busy` holds the calendar entries of the range. */
  method Propose(ids: seq<int>, from: Option<Day>, to: Option<Day>, c: Cadence, store: map<int, Content>, busy: Busy)
    returns (p: Proposal)
    ensures p.InvalidDate? <==> from == None || to == None
    ensures p.EndBeforeStart? <==> from.Some? && to.Some? && to.value < from.value
    ensures p.NotFound? <==> from.Some? && to.Some? && from.value <= to.value && !AllFound(ids, store)
    ensures p.NotFound? ==> forall id :: id in p.ids <==> id in ids && id !in store
    ensures p.PastLastDay? <==>
              from.Some? && to.Some? && from.value <= to.value && AllFound(ids, store) && to.value == LAST_DAY
    ensures p.Plan? ==> |p.slots| == |ids| && AllFound(ids, store)
                        && Greedy(p.slots, ProblemOf(ids, c, from.value, to.value, store, busy))
  {
    if from == None || to == None {
      return InvalidDate;
    }
    if to.value < from.value {
      return EndBeforeStart;
    }
    var found, missing := Missing(ids, store);
    if missing != [] {
      return NotFound(missing);
    }
    var pr := Problem(found, c, from.value, to.value, busy);
    assert pr == ProblemOf(ids, c, from.value, to.value, store, busy);
    var days, overran := Candidates(pr);
    if overran {
      return PastLastDay;
    }
    var slots := Assign(days, pr);
    return Plan(slots);
  }

  // ---- what greedy plans promise ------------------------------------------------------------

  /** The day is the k-th of its week; day 1, the first of the year 1, is a Monday. */
  ghost predicate KthOfWeek(d: Day, k: nat) {
    k < 7 && exists week: nat :: IsDay(week, k, d)
  }

  ghost predicate IsDay(week: nat, k: nat, d: Day) {
    d == 7 * week + k + 1
  }

  /** The day is in the range, both ends included, and one of those the cadence names. */
  ghost predicate Suits(pr: Problem, d: Day) {
    && pr.start <= d <= pr.end
    && match pr.cadence
       case Daily => true
       case Weekdays => !KthOfWeek(d, 5) && !KthOfWeek(d, 6)
       case Mwf => KthOfWeek(d, 0) || KthOfWeek(d, 2) || KthOfWeek(d, 4)
       case Unrecognised => false
  }

  lemma WeekdayIs(d: Day, k: nat)
    requires k < 7
    ensures Weekday(d) == k <==> KthOfWeek(d, k)
  {
    var week := (d - 1) / 7;
    assert (d + 6) % 7 == (d - 1) % 7 && IsDay(week, (d - 1) % 7, d);
  }

  lemma CandidateSuits(pr: Problem, d: Day)
    ensures Candidate(pr, d) <==> Suits(pr, d)
  {
    WeekdayIs(d, 0);
    WeekdayIs(d, 2);
    WeekdayIs(d, 4);
    WeekdayIs(d, 5);
    WeekdayIs(d, 6);
  }

  /** A content is for the platform of its type, if it has one. */
  ghost function PlatformFor(c: Content): string {
    if c.contentType != "" then c.contentType else "unknown"
  }

  /** Each slot names the content of its place and the platform it is for: its type, if it has one. */
  lemma SlotsNameContents(slots: seq<Slot>, pr: Problem, i: nat)
    requires Greedy(slots, pr) && i < |slots|
    ensures slots[i].contentId == pr.contents[i].id
    ensures slots[i].platform == PlatformFor(pr.contents[i])
  {
    assert GreedyAt(slots, i, pr);
  }

  lemma Advances(slots: seq<Slot>, pr: Problem, j: nat)
    requires Greedy(slots, pr) && 0 < j < |slots|
    ensures slots[j - 1].day == None ==> slots[j].day == None
    ensures slots[j].day.Some? ==> slots[j - 1].day.Some? && slots[j - 1].day.value < slots[j].day.value
  {
    assert GreedyAt(slots, j, pr);
    if slots[j].day.Some? {
      assert IsFree(slots[j].day.value, UsedBefore(slots, j), slots[j].platform, pr);
    }
  }

  /** Once an item gets no date, no later item does; and dates only move forward. */
  lemma {:induction false} DatesAdvance(slots: seq<Slot>, pr: Problem, i: nat, j: nat)
    requires Greedy(slots, pr) && i < j < |slots|
    ensures slots[i].day == None ==> slots[j].day == None
    ensures slots[j].day.Some? ==> slots[i].day.Some? && slots[i].day.value < slots[j].day.value
  {
    Advances(slots, pr, j);
    if i + 1 < j {
      DatesAdvance(slots, pr, i, j - 1);
    }
  }

  /** Assigned dates are allowed days of the range, free in the calendar, and free of each other. */
  lemma NothingCollides(slots: seq<Slot>, pr: Problem, i: nat, j: nat)
    requires Greedy(slots, pr) && i < |slots| && j < |slots| && slots[i].day.Some?
    ensures Suits(pr, slots[i].day.value)
    ensures (slots[i].day.value, slots[i].platform) !in pr.busy
    ensures i != j ==> slots[i].day != slots[j].day
  {
    assert GreedyAt(slots, i, pr);
    assert IsFree(slots[i].day.value, UsedBefore(slots, i), slots[i].platform, pr);
    CandidateSuits(pr, slots[i].day.value);
    if i < j {
      DatesAdvance(slots, pr, i, j);
    } else if j < i {
      DatesAdvance(slots, pr, j, i);
    }
  }

  /** Some other way to date the first |days| contents, in order and without collisions. */
  ghost predicate Feasible(days: seq<Day>, pr: Problem) {
    && |days| <= |pr.contents| && Ascending(days)
    && forall i :: 0 <= i < |days| ==> Suits(pr, days[i]) && (days[i], PlatformFor(pr.contents[i])) !in pr.busy
  }

  /**
   * Going for the earliest day never costs a later content its date: whatever contents can be
   * dated in order at all are dated by the plan, and none of them later.
   */
  lemma {:induction false} GreedyIsEarliest(slots: seq<Slot>, days: seq<Day>, pr: Problem, i: nat)
    requires Greedy(slots, pr) && |slots| == |pr.contents| && Feasible(days, pr) && i < |days|
    ensures slots[i].day.Some? && slots[i].day.value <= days[i]
  {
    if i > 0 {
      GreedyIsEarliest(slots, days, pr, i - 1);
      assert days[i - 1] < days[i];
    }
    assert GreedyAt(slots, i, pr);
    SlotsNameContents(slots, pr, i);
    CandidateSuits(pr, days[i]);
    assert IsFree(days[i], UsedBefore(slots, i), slots[i].platform, pr);
  }
}
