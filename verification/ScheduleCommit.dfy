/**
 * Committing a confirmed publishing plan to the calendar, one keyed write an entry: a retry after
 * a partial commit fills in the entries that did not land, and repeats exactly those whose key was
 * given back after their row had landed.
 */
module ScheduleCommit {
  import opened Wrappers
  import opened JsonValues
  import opened CanonicalJson
  import opened Idempotency

  /** `contentId` is None when it does not read as an integer; `platform` and `date` are empty when missing. */
  datatype Item = Item(contentId: Option<int>, platform: string, date: string)

  datatype Entry = Entry(contentId: int, platform: string, date: string)

  /** A calendar row; its event id is its position. */
  datatype Row = Row(key: Option<string>, entry: Entry)

  datatype Saved = Saved(eventId: int, contentId: int, platform: string, date: string)

  datatype SkipReason = NoDate | BadDate | NotFound

  /**
   * What may go wrong while one entry is written: the save raises, after its row has landed or not,
   * and its key is given back or that raises too; the completion raises, having landed or not; or
   * the process dies.
   */
  datatype Fault =
    SaveRaises(landed: bool, releases: bool) | CompleteRaises(landed: bool) | DiesBeforeSave | DiesAfterSave

  predicate Lands(fault: Option<Fault>) {
    match fault
    case None => true
    case Some(SaveRaises(landed, _)) => landed
    case Some(f) => !f.DiesBeforeSave?
  }

  /** The row is there, and its key is given back. */
  predicate GivesBack(fault: Option<Fault>) {
    fault == Some(SaveRaises(true, true))
  }

  /** How a write under a key just claimed ends, if the next row gets this id. */
  function EndOf(fault: Option<Fault>, id: int): Outcome {
    match fault
    case None => Event(id)
    case Some(DiesBeforeSave) => Die
    case Some(DiesAfterSave) => Die
    case _ => Raise
  }

  /** What becomes of the claimed key. */
  function StatusAfter(fault: Option<Fault>): Status {
    match fault
    case None => Completed
    case Some(SaveRaises(_, releases)) => if releases then Failed else InProgress
    case Some(CompleteRaises(landed)) => if landed then Completed else InProgress
    case _ => InProgress
  }

  function RowsUnder(rows: seq<Row>, key: string): nat {
    if rows == [] then 0
    else RowsUnder(rows[..|rows| - 1], key) + if rows[|rows| - 1].key == Some(key) then 1 else 0
  }

  lemma RowsUnderSnoc(rows: seq<Row>, row: Row, key: string)
    ensures RowsUnder(rows + [row], key) == RowsUnder(rows, key) + if row.key == Some(key) then 1 else 0
  {
    assert (rows + [row])[..|rows|] == rows;
  }

  datatype Outcome = Event(id: int) | Raise | Die

  datatype End = Finished | Raised | Died

  datatype Step = Skip(reason: SkipReason) | Save(saved: Saved) | Stop(end: End)

  lemma FlatObject(ms: seq<Member>)
    requires DistinctKeys(ms) && forall i :: 0 <= i < |ms| ==> ms[i].value.Int? || ms[i].value.Str?
    ensures WellFormed(Obj(ms))
  {
  }

  function EntryMembers(e: Entry): seq<Member> {
    [Member("content_id", Int(e.contentId)), Member("platform", Str(e.platform)), Member("scheduled_date", Str(e.date))]
  }

  function EntryArgs(e: Entry): Args {
    assert |"content_id"| != |"platform"| && |"content_id"| != |"scheduled_date"| && |"platform"| != |"scheduled_date"|;
    FlatObject(EntryMembers(e));
    Obj(EntryMembers(e))
  }

  function EntryText(e: Entry): string {
    Canonical(EntryArgs(e))
  }

  lemma EntryTextInjective(e: Entry, f: Entry)
    requires EntryText(e) == EntryText(f)
    ensures e == f
  {
    CanonicalIffSameMeaning(EntryArgs(e), EntryArgs(f));
    EntryFields(e);
    EntryFields(f);
  }

  lemma FirstField(m: Member, ms: seq<Member>)
    ensures Fields([m] + ms) == map[m.key := Meaning(m.value)] + Fields(ms)
  {
    assert ([m] + ms)[1..] == ms;
  }

  lemma EntryFields(e: Entry)
    ensures Meaning(EntryArgs(e)).VObj?
    ensures var m := Meaning(EntryArgs(e)).fields;
            && "content_id" in m && m["content_id"] == VInt(e.contentId)
            && "platform" in m && m["platform"] == VStr(e.platform)
            && "scheduled_date" in m && m["scheduled_date"] == VStr(e.date)
  {
    var (a, b, c) := (Member("content_id", Int(e.contentId)), Member("platform", Str(e.platform)),
                      Member("scheduled_date", Str(e.date)));
    FirstField(a, [b, c]);
    FirstField(b, [c]);
    FirstField(c, []);
    assert [a] + [b, c] == [a, b, c] && [b] + [c] == [b, c] && [c] + [] == [c];
    assert |"content_id"| != |"platform"| && |"content_id"| != |"scheduled_date"| && |"platform"| != |"scheduled_date"|;
  }

  function CalendarKey(key: string): Key {
    Key(CalendarCommit, key)
  }

  class Calendar {
    const parses: string -> bool
    var contents: set<int>
    var ledger: Ledger
    var rows: seq<Row>
    ghost var released: multiset<string>     // the keys given back after their row had landed

    ghost predicate Valid()
      reads this
    {
      forall k: string :: Tallied(rows, released, ledger, k)
    }

    /** One row under a key for every time it was given back with its row, and at most one more. */
    static ghost predicate Tallied(rows: seq<Row>, released: multiset<string>, ledger: Ledger, k: string) {
      && released[k] <= RowsUnder(rows, k) <= released[k] + 1
      && (IsVacant(ledger, k) ==> RowsUnder(rows, k) == released[k])
      && (IsCompleted(ledger, k) ==> RowsUnder(rows, k) == released[k] + 1 && Replays(rows, ledger, k))
    }

    /** No attempt has returned under the key, and none is in flight. */
    static ghost predicate IsVacant(ledger: Ledger, k: string) {
      CalendarKey(k) !in ledger || ledger[CalendarKey(k)].status == Failed
    }

    static ghost predicate IsCompleted(ledger: Ledger, k: string) {
      CalendarKey(k) in ledger && ledger[CalendarKey(k)].status == Completed
    }

    /** A completed key replays the id of a row of its own, for the arguments it stands for. */
    static ghost predicate Replays(rows: seq<Row>, ledger: Ledger, k: string)
      requires CalendarKey(k) in ledger
    {
      var result := ledger[CalendarKey(k)].result;
      && result.Some? && result.value.Int? && 0 <= result.value.n < |rows|
      && rows[result.value.n].key == Some(k) && EntryText(rows[result.value.n].entry) == ledger[CalendarKey(k)].text
    }

    constructor (parses: string -> bool, contents: set<int>)
      ensures Valid() && rows == [] && ledger == map[] && this.contents == contents && this.parses == parses
      ensures released == multiset{}
    {
      this.parses, this.contents, ledger, rows, released := parses, contents, map[], [], multiset{};
    }

    /** A retry of this entry under this key can succeed. */
    static ghost predicate Open(ledger: Ledger, k: string, e: Entry) {
      || IsVacant(ledger, k)
      || (ledger[CalendarKey(k)].status == Completed && ledger[CalendarKey(k)].text == EntryText(e))
    }

    /** The write under a key just claimed. */
    method SaveClaimed(key: string, e: Entry, fault: Option<Fault>) returns (o: Outcome)
      requires forall k: string :: k != key ==> Tallied(rows, released, ledger, k)
      requires CalendarKey(key) in ledger && ledger[CalendarKey(key)] == Record(EntryText(e), InProgress, None)
      requires RowsUnder(rows, key) == released[key]
      modifies this`ledger, this`rows, this`released
      ensures Valid()
      ensures rows == if Lands(fault) then old(rows) + [Row(Some(key), e)] else old(rows)
      ensures released == if GivesBack(fault) then old(released) + multiset{key} else old(released)
      ensures o == EndOf(fault, |old(rows)|)
      ensures CalendarKey(key) in ledger && ledger[CalendarKey(key)].status == StatusAfter(fault)
      ensures forall k :: k != CalendarKey(key) ==> SameRow(old(ledger), ledger, k)
    {
      if Lands(fault) {
        rows := rows + [Row(Some(key), e)];
      }
      if fault == Some(DiesBeforeSave) || fault == Some(DiesAfterSave) {
        o := Die;
      } else if fault.Some? && fault.value.SaveRaises? {
        if fault.value.releases {
          ledger := FailKey(ledger, CalendarKey(key));
          if fault.value.landed {
            released := released + multiset{key};
          }
        }
        o := Raise;
      } else {
        var id := |rows| - 1;
        if fault == None || fault.value.landed {
          ledger := CompleteKey(ledger, CalendarKey(key), Int(id));
        }
        o := if fault == None then Event(id) else Raise;
      }
      TalliedAfter(old(rows), old(released), old(ledger), key, e, fault);
    }

    /** The other keys' rows are the same as before. */
    lemma TalliedAfter(
      was: seq<Row>, releasedThen: multiset<string>, ledgerThen: Ledger, key: string, e: Entry, fault: Option<Fault>)
      requires rows == if Lands(fault) then was + [Row(Some(key), e)] else was
      requires forall k: string :: k != key ==> Tallied(was, releasedThen, ledgerThen, k)
      requires forall k :: k != CalendarKey(key) ==> SameRow(ledgerThen, ledger, k)
      requires forall k: string :: k != key ==> released[k] == releasedThen[k]
      requires CalendarKey(key) in ledger && RowsUnder(was, key) == releasedThen[key]
      requires released[key] == releasedThen[key] + if GivesBack(fault) then 1 else 0
      requires match ledger[CalendarKey(key)].status
               case InProgress => true
               case Failed => Lands(fault) ==> GivesBack(fault)
               case Completed => Lands(fault) && !GivesBack(fault)
                                 && ledger[CalendarKey(key)] == Record(EntryText(e), Completed, Some(Int(|was|)))
      requires GivesBack(fault) ==> Lands(fault)
      ensures Valid()
    {
      forall k: string ensures Tallied(rows, released, ledger, k) {
        if Lands(fault) {
          RowsUnderSnoc(was, Row(Some(key), e), k);
        }
        if k != key {
          assert Tallied(was, releasedThen, ledgerThen, k) && SameRow(ledgerThen, ledger, CalendarKey(k));
        }
      }
    }

    /** The keyed write of one calendar row. */
    method SaveOnce(key: string, e: Entry, fault: Option<Fault>) returns (o: Outcome)
      requires Valid()
      modifies this`ledger, this`rows, this`released
      ensures Valid()
      ensures rows == if IsVacant(old(ledger), key) && Lands(fault) then old(rows) + [Row(Some(key), e)] else old(rows)
      ensures released == if IsVacant(old(ledger), key) && GivesBack(fault) then old(released) + multiset{key}
                          else old(released)
      ensures IsVacant(old(ledger), key) ==>
                && o == EndOf(fault, |old(rows)|)
                && CalendarKey(key) in ledger && ledger[CalendarKey(key)].status == StatusAfter(fault)
      ensures !IsVacant(old(ledger), key) ==> if Open(old(ledger), key, e) then o.Event? else o.Raise?
      ensures o.Event? ==> 0 <= o.id < |rows| && rows[o.id] == Row(Some(key), e) && IsCompleted(ledger, key)
      ensures forall k :: k != CalendarKey(key) ==> SameRow(old(ledger), ledger, k)
    {
      assert Tallied(rows, released, ledger, key);
      var (claim, claimed) := ClaimKey(ledger, CalendarKey(key), EntryText(e));
      match claim
      case Replay(result) =>
        EntryTextInjective(rows[result.value.n].entry, e);
        return Event(result.value.n);
      case InFlight =>
        return Raise;
      case Conflict =>
        return Raise;
      case Claimed =>
        ledger := claimed;
        StillTallied(old(ledger), key);
        o := SaveClaimed(key, e, fault);
        forall k | k != CalendarKey(key) ensures SameRow(old(ledger), ledger, k) {
          assert SameRow(claimed, ledger, k);
        }
    }

    lemma StillTallied(before: Ledger, key: string)
      requires forall k: string :: Tallied(rows, released, before, k)
      requires forall k :: k != CalendarKey(key) ==> SameRow(before, ledger, k)
      ensures forall k: string :: k != key ==> Tallied(rows, released, ledger, k)
    {
      forall k: string | k != key ensures Tallied(rows, released, ledger, k) {
        assert Tallied(rows, released, before, k) && SameRow(before, ledger, CalendarKey(k));
      }
    }

    /** A write under a vacant key repeats a row exactly if the key was given back after its row had landed. */
    lemma RepeatsIff(key: string)
      requires Valid() && IsVacant(ledger, key)
      ensures RowsUnder(rows, key) >= 1 <==> released[key] >= 1
    {
      assert Tallied(rows, released, ledger, key);
    }

    /** An error after the row has landed, and a retry: two rows under one key. */
    method RaisesThenRetries(key: string, e: Entry)
      requires Valid() && IsVacant(ledger, key)
      modifies this`ledger, this`rows, this`released
      ensures Valid()
      ensures rows == old(rows) + [Row(Some(key), e), Row(Some(key), e)]
    {
      var first := SaveOnce(key, e, Some(SaveRaises(true, true)));
      assert Tallied(old(rows), old(released), old(ledger), key) && Tallied(rows, released, ledger, key);
      RowsUnderSnoc(old(rows), Row(Some(key), e), key);
      var second := SaveOnce(key, e, None);
    }

    /** Without a request key nothing was promised about retries: every call writes, and nothing is completed. */
    method SaveUnkeyed(e: Entry, fault: Option<Fault>) returns (o: Outcome)
      requires Valid()
      modifies this`rows
      ensures Valid()
      ensures rows == if Lands(fault) then old(rows) + [Row(None, e)] else old(rows)
      ensures o == if fault.Some? && fault.value.CompleteRaises? then Event(|old(rows)|) else EndOf(fault, |old(rows)|)
    {
      o := if fault.Some? && fault.value.CompleteRaises? then Event(|rows|) else EndOf(fault, |rows|);
      if Lands(fault) {
        rows := rows + [Row(None, e)];
        forall k: string ensures Tallied(rows, released, ledger, k) {
          assert Tallied(old(rows), released, ledger, k);
          RowsUnderSnoc(old(rows), Row(None, e), k);
        }
      }
    }

    predicate Dated(item: Item) {
      item.date != "" && parses(item.date)
    }

    predicate Writable(item: Item)
      reads this`contents
    {
      Dated(item) && item.contentId.Some? && item.contentId.value in contents
    }

    function EntryOf(item: Item): Entry
      requires item.contentId.Some?
    {
      Entry(item.contentId.value, if item.platform == "" then "unknown" else item.platform, item.date)
    }

    /** The row came from some entry of the plan whose key was free when the commit began. */
    ghost predicate FillsGap(row: Row, plan: seq<Item>, batch: string, upTo: nat, before: Ledger)
      requires upTo <= |plan|
      reads this`contents
    {
      exists i :: 0 <= i < upTo && Fills(row, plan[i], i, batch, before)
    }

    ghost predicate Fills(row: Row, item: Item, i: nat, batch: string, before: Ledger)
      reads this`contents
    {
      && Writable(item) && row == Row(Some(EntryKey(batch, i)), EntryOf(item))
      && IsVacant(before, EntryKey(batch, i))
    }

    ghost predicate AllLanded(now: seq<Row>, ledger: Ledger, plan: seq<Item>, batch: string, upTo: nat)
      requires upTo <= |plan|
      reads this`contents
    {
      forall i :: 0 <= i < upTo && Writable(plan[i]) ==>
        Row(Some(EntryKey(batch, i)), EntryOf(plan[i])) in now && IsCompleted(ledger, EntryKey(batch, i))
    }

    /** Only gaps have been filled since. */
    ghost predicate OnlyGapsFilled(
      was: seq<Row>, now: seq<Row>, plan: seq<Item>, batch: string, upTo: nat, before: Ledger)
      requires upTo <= |plan|
      reads this`contents
    {
      was <= now && forall r :: |was| <= r < |now| ==> FillsGap(now[r], plan, batch, upTo, before)
    }

    static ghost predicate RestUntouched(before: Ledger, after: Ledger, plan: seq<Item>, batch: string, from: nat) {
      forall i :: from <= i < |plan| ==> SameRow(before, after, CalendarKey(EntryKey(batch, i)))
    }

    lemma GapsAfterItem(
      start: seq<Row>, was: seq<Row>, now: seq<Row>, plan: seq<Item>, batch: string, index: nat, before: Ledger)
      requires index < |plan| && OnlyGapsFilled(start, was, plan, batch, index, before)
      requires now == was || (now == was + [Row(Some(EntryKey(batch, index)), EntryIfAny(plan[index]))]
                              && Fills(now[|was|], plan[index], index, batch, before))
      ensures OnlyGapsFilled(start, now, plan, batch, index + 1, before)
      ensures OnlyGapsFilled(start, now, plan, batch, |plan|, before)
    {
      forall r | |start| <= r < |now|
        ensures FillsGap(now[r], plan, batch, index + 1, before) && FillsGap(now[r], plan, batch, |plan|, before)
      {
        if r < |was| {
          assert now[r] == was[r];
          var i :| 0 <= i < index && Fills(was[r], plan[i], i, batch, before);
          assert Fills(now[r], plan[i], i, batch, before);
        } else {
          assert Fills(now[r], plan[index], index, batch, before);
        }
      }
    }

    lemma RestAfterItem(before: Ledger, was: Ledger, now: Ledger, plan: seq<Item>, batch: string, index: nat)
      requires index < |plan| && RestUntouched(before, was, plan, batch, index)
      requires forall k :: k != CalendarKey(EntryKey(batch, index)) ==> SameRow(was, now, k)
      ensures RestUntouched(before, now, plan, batch, index + 1)
    {
      forall i | index + 1 <= i < |plan| ensures SameRow(before, now, CalendarKey(EntryKey(batch, i))) {
        LaterKeysDiffer(batch, index, i);
        assert SameRow(before, was, CalendarKey(EntryKey(batch, i)));
        assert SameRow(was, now, CalendarKey(EntryKey(batch, i)));
      }
    }

    lemma LandedAfterItem(
      was: seq<Row>, now: seq<Row>, before: Ledger, after: Ledger, plan: seq<Item>, batch: string, index: nat)
      requires index < |plan| && AllLanded(was, before, plan, batch, index) && was <= now
      requires Writable(plan[index]) ==>
                 && Row(Some(EntryKey(batch, index)), EntryOf(plan[index])) in now
                 && IsCompleted(after, EntryKey(batch, index))
      requires forall k :: k != CalendarKey(EntryKey(batch, index)) ==> SameRow(before, after, k)
      ensures AllLanded(now, after, plan, batch, index + 1)
    {
      forall i | 0 <= i <= index && Writable(plan[i])
        ensures Row(Some(EntryKey(batch, i)), EntryOf(plan[i])) in now && IsCompleted(after, EntryKey(batch, i))
      {
        if i < index {
          assert Row(Some(EntryKey(batch, i)), EntryOf(plan[i])) in was;
          LaterKeysDiffer(batch, i, index);
          assert SameRow(before, after, CalendarKey(EntryKey(batch, i)));
        }
      }
    }

    lemma ShowsStill(saved: seq<Saved>, was: seq<Row>)
      requires was <= rows && Shows(saved, was)
      ensures Shows(saved, rows)
    {
    }

    function EntryIfAny(item: Item): Entry {
      if item.contentId.Some? then EntryOf(item) else Entry(0, "", "")
    }

    /** Every event reported is a row for the content and day reported. */
    static ghost predicate Shows(saved: seq<Saved>, now: seq<Row>) {
      forall s :: s in saved ==>
        0 <= s.eventId < |now| && now[s.eventId].entry.contentId == s.contentId && now[s.eventId].entry.date == s.date
    }

    ghost predicate ItemCanFinish(before: Ledger, item: Item, batch: string, index: nat)
      reads this`contents
    {
      && (Dated(item) ==> item.contentId.Some?)
      && (Writable(item) ==> Open(before, EntryKey(batch, index), EntryOf(item)))
    }

    ghost predicate CanFinish(before: Ledger, plan: seq<Item>, batch: string)
      reads this`contents
    {
      forall i :: 0 <= i < |plan| ==> ItemCanFinish(before, plan[i], batch, i)
    }

    /** One item of the plan: skipped, saved, or the end of the commit. */
    method CommitItem(item: Item, batch: string, index: nat, fault: Option<Fault>) returns (step: Step)
      requires Valid()
      modifies this`ledger, this`rows, this`released
      ensures Valid()
      ensures released == if Writable(item) && IsVacant(old(ledger), EntryKey(batch, index)) && GivesBack(fault)
                          then old(released) + multiset{EntryKey(batch, index)} else old(released)
      ensures rows == old(rows)
           || (Writable(item) && rows == old(rows) + [Row(Some(EntryKey(batch, index)), EntryOf(item))]
               && IsVacant(old(ledger), EntryKey(batch, index)))
      ensures step.Skip? ==> !Writable(item)
      ensures step.Stop? ==> !step.end.Finished?
      ensures step.Save? ==> Writable(item) && 0 <= step.saved.eventId < |rows|
                             && rows[step.saved.eventId] == Row(Some(EntryKey(batch, index)), EntryOf(item))
                             && IsCompleted(ledger, EntryKey(batch, index))
                             && step.saved == Saved(step.saved.eventId, item.contentId.value, item.platform, item.date)
      ensures fault == None && ItemCanFinish(old(ledger), item, batch, index) ==> !step.Stop?
      ensures forall k :: k != CalendarKey(EntryKey(batch, index)) ==> SameRow(old(ledger), ledger, k)
    {
      if item.date == "" {
        return Skip(NoDate);
      }
      if !parses(item.date) {
        return Skip(BadDate);
      }
      if item.contentId == None {
        return Stop(Raised);
      }
      if item.contentId.value !in contents {
        return Skip(NotFound);
      }
      var o := SaveOnce(EntryKey(batch, index), EntryOf(item), fault);
      match o {
        case Event(id) => return Save(Saved(id, item.contentId.value, item.platform, item.date));
        case Raise => return Stop(Raised);
        case Die => return Stop(Died);
      }
    }

    /** The entries after this one are committed under other keys. */
    lemma LaterKeysDiffer(batch: string, index: nat, i: nat)
      requires index < i
      ensures CalendarKey(EntryKey(batch, i)) != CalendarKey(EntryKey(batch, index))
    {
      if EntryKey(batch, i) == EntryKey(batch, index) {
        EntryKeyInjective(batch, i, batch, index);
      }
    }

    /** What a commit of the first `upTo` entries has established. */
    ghost predicate Progress(start: seq<Row>, before: Ledger, plan: seq<Item>, batch: string, upTo: nat)
      requires upTo <= |plan|
      reads this
    {
      && OnlyGapsFilled(start, rows, plan, batch, upTo, before)
      && AllLanded(rows, ledger, plan, batch, upTo)
      && RestUntouched(before, ledger, plan, batch, upTo)
    }

    method CommitNext(
      plan: seq<Item>, batch: string, index: nat, fault: Option<Fault>, ghost start: seq<Row>, ghost before: Ledger)
      returns (step: Step)
      requires Valid() && index < |plan| && Progress(start, before, plan, batch, index)
      modifies this`ledger, this`rows, this`released
      ensures Valid() && old(rows) <= rows
      ensures !GivesBack(fault) ==> released == old(released)
      ensures OnlyGapsFilled(start, rows, plan, batch, |plan|, before)
      ensures !step.Stop? ==> Progress(start, before, plan, batch, index + 1)
      ensures step.Save? ==> Shows([step.saved], rows)
      ensures step.Stop? ==> !step.end.Finished?
      ensures fault == None && ItemCanFinish(before, plan[index], batch, index) ==> !step.Stop?
    {
      ghost var (rowsThen, ledgerThen) := (rows, ledger);
      assert SameRow(before, ledger, CalendarKey(EntryKey(batch, index)));
      step := CommitItem(plan[index], batch, index, fault);
      GapsAfterItem(start, rowsThen, rows, plan, batch, index, before);
      if !step.Stop? {
        LandedAfterItem(rowsThen, rows, ledgerThen, ledger, plan, batch, index);
        RestAfterItem(before, ledgerThen, ledger, plan, batch, index);
      }
    }

    /**
     * A commit under a request key, retry or not: it keeps every row there is, adds rows only under
     * keys that are free, and if it finishes, every entry worth a row has one (identical entries one
     * each), and one more for every time its key was given back after its row had landed; so
     * exactly one if that never happened. Without faults it finishes unless some entry's key is in
     * flight or stands for a different entry.
     */
    method Commit(plan: seq<Item>, batch: string, faults: map<nat, Fault>)
      returns (saved: seq<Saved>, skipped: seq<SkipReason>, end: End)
      requires Valid()
      modifies this`ledger, this`rows, this`released
      ensures Valid()
      ensures OnlyGapsFilled(old(rows), rows, plan, batch, |plan|, old(ledger))
      ensures end.Finished? ==> AllLanded(rows, ledger, plan, batch, |plan|) && |saved| + |skipped| == |plan|
      ensures end.Finished? ==>
                forall i :: 0 <= i < |plan| && Writable(plan[i]) ==>
                  RowsUnder(rows, EntryKey(batch, i)) == released[EntryKey(batch, i)] + 1
      ensures (forall i :: i in faults ==> !GivesBack(Some(faults[i]))) ==> released == old(released)
      ensures Shows(saved, rows)
      ensures faults == map[] && CanFinish(old(ledger), plan, batch) ==> end.Finished?
    {
      saved, skipped := [], [];
      var index := 0;
      while index < |plan|
        invariant index <= |plan| && Valid() && Progress(old(rows), old(ledger), plan, batch, index)
        invariant |saved| + |skipped| == index && Shows(saved, rows)
        invariant (forall i :: i in faults ==> !GivesBack(Some(faults[i]))) ==> released == old(released)
      {
        ghost var rowsThen := rows;
        var fault := if index in faults then Some(faults[index]) else None;
        var step := CommitNext(plan, batch, index, fault, old(rows), old(ledger));
        ShowsStill(saved, rowsThen);
        match step {
          case Stop(e) => return saved, skipped, e;
          case Skip(reason) => skipped := skipped + [reason];
          case Save(row) => saved := saved + [row];
        }
        index := index + 1;
      }
      end := Finished;
      forall i | 0 <= i < |plan| && Writable(plan[i])
        ensures RowsUnder(rows, EntryKey(batch, i)) == released[EntryKey(batch, i)] + 1
      {
        assert Tallied(rows, released, ledger, EntryKey(batch, i));
      }
    }
  }
}
