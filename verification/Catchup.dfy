/**
 The scheduler tick's watermark, one per database: yesterday's catch-up,
 today's digest, and the calls that may raise on the way.  Times count from an
 epoch, in UTC; a window holds its start and not its end.
 */
module Catchup {
  import opened Wrappers

  const DAY := 86400

  function DayOf(x: int): int { x / DAY }

  datatype Gap = Gap(from: int, to: int)

  /** What is kept of one database: its watermark, where the digest of each day
      ends (it starts at midnight), the uncovered stretches said on stderr, and
      those that reached the run record. */
  datatype Share = Share(mark: Option<int>, digests: map<int, int>, printed: seq<Gap>, recorded: seq<Gap>)

  /** Writing a digest and its rendering: neither, both, or the digest alone. */
  datatype Emitting = Whole | Nothing | Half

  /** Where the catch-up of yesterday raises, if it does. */
  datatype Yesterday = CaughtUp | NoCompact | NoEmit(written: bool) | NoDecision | NoIngest

  /** For each call of today's part, whether it raises if it is made: reading the
      watermarks, compacting, emitting, writing the watermark, deciding, adding
      the facts to the run record, recording a skip, recording the decision in
      the handler, ingesting, and reading the ledger after an ingest.  `skips` is
      what the decision is. */
  datatype Today = Today(
    read: bool, compact: bool, emit: Emitting, mark: bool, decide: bool, facts: bool,
    skips: bool, record: bool, again: bool, ingest: bool, reread: bool)

  datatype Faults = Faults(yesterday: Yesterday, today: Today)

  /** The calls inside the first `try`, by where they stand. */
  datatype Call = Read | Compact | Emit | Mark | Decide | Facts | Record

  datatype Stage = CompactStage | IngestStage

  datatype Outcome =
    | Returned(stage: Stage, error: bool, catchupError: bool)
    | Raised

  // ---- one database, one tick --------------------------------------------

  /** The day before `day` when the watermark stops short of its midnight. */
  function CatchupDay(mark: Option<int>, day: int): Option<int> {
    if mark.None? || mark.value >= day * DAY then None else Some(day - 1)
  }

  /** Yesterday is asked for and does not come through. */
  predicate Owed(s: Share, t1: int, f: Faults) {
    CatchupDay(s.mark, DayOf(t1)).Some? && f.yesterday != CaughtUp
  }

  /** The stretch before yesterday that a catch-up will not reach. */
  function Missed(s: Share, t1: int): Option<Gap> {
    match CatchupDay(s.mark, DayOf(t1))
    case None => None
    case Some(yday) => if s.mark.value < yday * DAY then Some(Gap(s.mark.value, yday * DAY)) else None
  }

  function Noted(gaps: seq<Gap>, g: Option<Gap>): seq<Gap> {
    if g.Some? then gaps + [g.value] else gaps
  }

  function AfterCatchUp(s: Share, yday: int, y: Yesterday): Share {
    if y == NoCompact || y == NoEmit(false) then s else s.(digests := s.digests[yday := (yday + 1) * DAY])
  }

  /** The share with the catch-up behind it: yesterday's digest, and the line on
      stderr about what was missed. */
  function CaughtUpShare(s: Share, t1: int, f: Faults): Share {
    var yday := CatchupDay(s.mark, DayOf(t1));
    (if yday.Some? then AfterCatchUp(s, yday.value, f.yesterday) else s).(printed := Noted(s.printed, Missed(s, t1)))
  }

  /** The first call of the first `try` that raises; the watermark is not written
      while yesterday is owed. */
  function FirstError(t: Today, owed: bool): Option<Call> {
    if t.read then Some(Read)
    else if t.compact then Some(Compact)
    else if !t.emit.Whole? then Some(Emit)
    else if t.mark && !owed then Some(Mark)
    else if t.decide then Some(Decide)
    else if t.facts then Some(Facts)
    else if t.skips && t.record then Some(Record)
    else None
  }

  predicate Decided(c: Call) { c.Facts? || c.Record? }

  /** The handler records the decision, if there is one, before anything else; if
      that raises, the facts it would have added are lost. */
  predicate Unhandled(t: Today, owed: bool) {
    var e := FirstError(t, owed);
    e.Some? && Decided(e.value) && t.again
  }

  function AfterToday(s: Share, t1: int, owed: bool, t: Today): Share {
    if t.compact || t.emit.Nothing? then s
    else
      var emitted := s.(digests := s.digests[DayOf(t1) := t1]);
      if owed || t.emit.Half? || t.mark then emitted else emitted.(mark := Some(t1))
  }

  /** What the catch-up tells the run record, if it is reached. */
  function Told(s: Share, t1: int, f: Faults): Option<Gap> {
    if f.today.read then None else Missed(s, t1)
  }

  /** The share as the first `try` leaves it: the facts are in when nothing raised,
      or only the record of a skip did. */
  function AfterTry(s: Share, t1: int, f: Faults): Share {
    if f.today.read then s
    else
      var t := AfterToday(CaughtUpShare(s, t1, f), t1, Owed(s, t1, f), f.today);
      if Added(FirstError(f.today, Owed(s, t1, f))) then t.(recorded := Noted(t.recorded, Told(s, t1, f))) else t
  }

  predicate Added(e: Option<Call>) {
    e.None? || e.value.Record?
  }

  /** And as the handler leaves it. */
  function Handled(s: Share, error: Call, told: Option<Gap>, again: bool): Share {
    if (Decided(error) && again) || error.Record? then s else s.(recorded := Noted(s.recorded, told))
  }

  function AfterTick(s: Share, t1: int, f: Faults): Share {
    match FirstError(f.today, Owed(s, t1, f))
    case None => AfterTry(s, t1, f)
    case Some(c) => Handled(AfterTry(s, t1, f), c, Told(s, t1, f), f.today.again)
  }

  function OutcomeOf(s: Share, t1: int, f: Faults): Outcome {
    var owed := Owed(s, t1, f);
    match FirstError(f.today, owed)
    case Some(c) =>
      if Decided(c) && f.today.again then Raised else Returned(CompactStage, true, owed && !c.Read?)
    case None =>
      if f.today.skips then Returned(CompactStage, false, owed)
      else if f.today.ingest then Returned(IngestStage, true, owed)
      else if f.today.reread then Raised
      else Returned(IngestStage, false, owed)
  }

  // ---- when an error leaves the tick --------------------------------------

  /** Every call up to and with the decision came through. */
  predicate DecisionMade(t: Today, owed: bool) {
    !t.read && !t.compact && t.emit.Whole? && (owed || !t.mark) && !t.decide
  }

  /** Something after the decision raised, inside the first `try`. */
  predicate FailedLater(t: Today) {
    t.facts || (t.skips && t.record)
  }

  /** An error leaves `run_one_db` exactly when the decision was made and either a
      later call of the first `try` and the handler's own record of the decision
      both raise, or the ledger cannot be read after an ingest. */
  predicate Escapes(s: Share, t1: int, f: Faults) {
    && DecisionMade(f.today, Owed(s, t1, f))
    && if FailedLater(f.today) then f.today.again else !f.today.skips && !f.today.ingest && f.today.reread
  }

  lemma FirstErrorAt(t: Today, owed: bool)
    ensures FirstError(t, owed).None? <==> DecisionMade(t, owed) && !FailedLater(t)
    ensures FirstError(t, owed).Some? ==> (Decided(FirstError(t, owed).value) <==> DecisionMade(t, owed))
  {
  }

  lemma EscapesWhen(s: Share, t1: int, f: Faults)
    ensures OutcomeOf(s, t1, f) == Raised <==> Escapes(s, t1, f)
  {
    FirstErrorAt(f.today, Owed(s, t1, f));
  }

  // ---- the tick, in place ------------------------------------------------

  class Pipeline {
    var marks: map<string, int>
    var digests: map<string, map<int, int>>
    var printed: map<string, seq<Gap>>
    var recorded: map<string, seq<Gap>>

    constructor ()
      ensures forall db :: ShareOf(db) == Share(None, map[], [], [])
    {
      marks, digests, printed, recorded := map[], map[], map[], map[];
    }

    function ShareOf(db: string): Share
      reads this
    {
      Share(
        if db in marks then Some(marks[db]) else None,
        if db in digests then digests[db] else map[],
        if db in printed then printed[db] else [],
        if db in recorded then recorded[db] else [])
    }

    method EmitDay(db: string, day: int, end: int)
      modifies this`digests
      ensures ShareOf(db) == old(ShareOf(db)).(digests := old(ShareOf(db)).digests[day := end])
      ensures forall other | other != db :: ShareOf(other) == old(ShareOf(other))
    {
      digests := digests[db := (if db in digests then digests[db] else map[])[day := end]];
    }

    /** The facts of the run record: what the catch-up said, if it said anything. */
    method AddDb(db: string, told: Option<Gap>)
      modifies this`recorded
      ensures ShareOf(db) == old(ShareOf(db)).(recorded := Noted(old(ShareOf(db)).recorded, told))
      ensures forall other | other != db :: ShareOf(other) == old(ShareOf(other))
    {
      if told.Some? {
        recorded := recorded[db := (if db in recorded then recorded[db] else []) + [told.value]];
      }
    }

    /** Yesterday's whole day; an older watermark is said, not fixed. */
    method CatchUp(db: string, yday: int, mark: int, y: Yesterday) returns (failed: bool, told: Option<Gap>)
      modifies this`digests, this`printed
      ensures failed <==> y != CaughtUp
      ensures told == if mark < yday * DAY then Some(Gap(mark, yday * DAY)) else None
      ensures ShareOf(db) == AfterCatchUp(old(ShareOf(db)), yday, y).(printed := Noted(old(ShareOf(db)).printed, told))
      ensures forall other | other != db :: ShareOf(other) == old(ShareOf(other))
    {
      var y0, y1 := yday * DAY, (yday + 1) * DAY;
      told := None;
      if mark < y0 {
        told := Some(Gap(mark, y0));
        printed := printed[db := (if db in printed then printed[db] else []) + [told.value]];
      }
      if y == NoCompact || y == NoEmit(false) {
        return true, told;
      }
      EmitDay(db, yday, y1);
      return y != CaughtUp, told;
    }

    /** Today's part of the first `try`, after the catch-up: where it raises, if it
        does.  The facts are added between the decision and its record. */
    method CompactToday(db: string, t1: int, late: bool, told: Option<Gap>, t: Today) returns (error: Option<Call>)
      requires !t.read
      modifies this`marks, this`digests, this`recorded
      ensures error == FirstError(t, late)
      ensures var s := AfterToday(old(ShareOf(db)), t1, late, t);
              ShareOf(db) ==
                if Added(error) then s.(recorded := Noted(s.recorded, told)) else s
      ensures forall other | other != db :: ShareOf(other) == old(ShareOf(other))
    {
      if t.compact {
        return Some(Compact);
      }
      if t.emit.Nothing? {
        return Some(Emit);
      }
      EmitDay(db, DayOf(t1), t1);
      if t.emit.Half? {
        return Some(Emit);
      }
      if !late {
        if t.mark {
          return Some(Mark);
        }
        marks := marks[db := t1];
      }
      if t.decide {
        return Some(Decide);
      }
      if t.facts {
        return Some(Facts);
      }
      AddDb(db, told);
      return if t.skips && t.record then Some(Record) else None;
    }

    /** The first `try`: where it raised, if it did, and what the catch-up came to. */
    method FirstTry(db: string, t1: int, f: Faults) returns (error: Option<Call>, late: bool, told: Option<Gap>)
      modifies this
      ensures error == FirstError(f.today, Owed(old(ShareOf(db)), t1, f))
      ensures late == (!f.today.read && Owed(old(ShareOf(db)), t1, f)) && told == Told(old(ShareOf(db)), t1, f)
      ensures ShareOf(db) == AfterTry(old(ShareOf(db)), t1, f)
      ensures forall other | other != db :: ShareOf(other) == old(ShareOf(other))
    {
      late, told := false, None;
      if f.today.read {
        return Some(Read), late, told;
      }
      var before := ShareOf(db).mark;
      var yday := CatchupDay(before, DayOf(t1));
      if yday.Some? {
        late, told := CatchUp(db, yday.value, before.value, f.yesterday);
      }
      error := CompactToday(db, t1, late, told, f.today);
    }

    /** The handler of the first `try`: the decision recorded, if there is one, then
        the facts, if they are not there yet. */
    method Handle(db: string, error: Call, late: bool, told: Option<Gap>, t: Today) returns (r: Outcome)
      modifies this`recorded
      ensures r == if Decided(error) && t.again then Raised else Returned(CompactStage, true, late)
      ensures ShareOf(db) == Handled(old(ShareOf(db)), error, told, t.again)
      ensures forall other | other != db :: ShareOf(other) == old(ShareOf(other))
    {
      if Decided(error) && t.again {
        return Raised;
      }
      if !error.Record? {
        AddDb(db, told);
      }
      return Returned(CompactStage, true, late);
    }

    /** One database's share of a tick.  The watermark moves to `t1` only when
        yesterday needed no catch-up or got one. */
    method RunOneDb(db: string, t1: int, f: Faults) returns (r: Outcome)
      modifies this
      ensures ShareOf(db) == AfterTick(old(ShareOf(db)), t1, f)
      ensures r == OutcomeOf(old(ShareOf(db)), t1, f)
      ensures forall other | other != db :: ShareOf(other) == old(ShareOf(other))
    {
      var error, late, told := FirstTry(db, t1, f);
      if error.Some? {
        r := Handle(db, error.value, late, told, f.today);
        return;
      }
      if f.today.skips {
        return Returned(CompactStage, false, late);
      }
      if f.today.ingest {
        return Returned(IngestStage, true, late);
      }
      if f.today.reread {
        return Raised;
      }
      return Returned(IngestStage, false, late);
    }

    /** The databases of a tick, in turn.  One that fails does not touch the
        others; only an error that escapes ends the tick. */
    method RunAll(dbs: seq<string>, t1: int, faults: map<string, Faults>) returns (outcomes: seq<Outcome>)
      requires forall db | db in dbs :: db in faults
      requires forall i, j | 0 <= i < j < |dbs| :: dbs[i] != dbs[j]
      modifies this
      ensures |outcomes| <= |dbs|
      ensures forall i | 0 <= i < |outcomes| ::
                && outcomes[i] == OutcomeOf(old(ShareOf(dbs[i])), t1, faults[dbs[i]])
                && ShareOf(dbs[i]) == AfterTick(old(ShareOf(dbs[i])), t1, faults[dbs[i]])
                && (outcomes[i].Raised? ==> i == |outcomes| - 1)
      ensures forall db | db !in dbs[..|outcomes|] :: ShareOf(db) == old(ShareOf(db))
      ensures |outcomes| < |dbs| ==> outcomes != [] && outcomes[|outcomes| - 1].Raised?
    {
      hide OutcomeOf, AfterTick, ShareOf;
      ghost var done: map<string, Share> := map[];
      outcomes := [];
      while |outcomes| < |dbs|
        invariant |outcomes| <= |dbs| && done.Keys == set db | db in dbs[..|outcomes|]
        invariant forall db :: ShareOf(db) == if db in done then done[db] else old(ShareOf(db))
        invariant forall i | 0 <= i < |outcomes| ::
            && dbs[i] in done && done[dbs[i]] == AfterTick(old(ShareOf(dbs[i])), t1, faults[dbs[i]])
            && outcomes[i] == OutcomeOf(old(ShareOf(dbs[i])), t1, faults[dbs[i]])
            && !outcomes[i].Raised?
      {
        var n := |outcomes|;
        var db := dbs[n];
        assert dbs[..n + 1] == dbs[..n] + [db] && db !in dbs[..n];
        var r := RunOneDb(db, t1, faults[db]);
        done := done[db := ShareOf(db)];
        outcomes := outcomes + [r];
        if r.Raised? {
          return;
        }
      }
    }

    /** The tick over all databases: whether it ran to its end, and its exit status.
        It ends early exactly when some database's error escapes. */
    method RunTick(dbs: seq<string>, t1: int, faults: map<string, Faults>) returns (ended: bool, failed: bool)
      requires forall db | db in dbs :: db in faults
      requires forall i, j | 0 <= i < j < |dbs| :: dbs[i] != dbs[j]
      modifies this
      ensures ended <==> forall i | 0 <= i < |dbs| :: !Escapes(old(ShareOf(dbs[i])), t1, faults[dbs[i]])
      ensures ended ==>
                (failed <==> exists i :: 0 <= i < |dbs| && Failed(OutcomeOf(old(ShareOf(dbs[i])), t1, faults[dbs[i]])))
      ensures ended ==> forall i | 0 <= i < |dbs| ::
                ShareOf(dbs[i]) == AfterTick(old(ShareOf(dbs[i])), t1, faults[dbs[i]])
    {
      ghost var shares := seq(|dbs|, i requires 0 <= i < |dbs| reads this => ShareOf(dbs[i]));
      var outcomes := RunAll(dbs, t1, faults);
      forall i | 0 <= i < |dbs|
        ensures Escapes(shares[i], t1, faults[dbs[i]]) <==> OutcomeOf(shares[i], t1, faults[dbs[i]]).Raised?
      {
        EscapesWhen(shares[i], t1, faults[dbs[i]]);
      }
      ended := outcomes == [] || !outcomes[|outcomes| - 1].Raised?;
      failed := AnyFailed(outcomes);
    }
  }

  method AnyFailed(outcomes: seq<Outcome>) returns (b: bool)
    ensures b <==> exists i :: 0 <= i < |outcomes| && Failed(outcomes[i])
  {
    for i := 0 to |outcomes|
      invariant forall j | 0 <= j < i :: !Failed(outcomes[j])
    {
      if Failed(outcomes[i]) {
        return true;
      }
    }
    return false;
  }

  predicate Failed(r: Outcome) {
    r.Returned? && (r.error || r.catchupError)
  }

  /** Yesterday is caught up exactly when the watermark stops before today's
      midnight; there is nothing to catch up without one. */
  lemma CaughtUpWhen(mark: Option<int>, t1: int)
    ensures CatchupDay(mark, DayOf(t1)).Some? <==> mark.Some? && mark.value < t1 - t1 % 86400
    ensures CatchupDay(mark, DayOf(t1)).Some? ==> CatchupDay(mark, DayOf(t1)).value == DayOf(t1 - 86400)
  {
  }

  /** A returned error is one of the first `try` or of the ingest, and the catch-up's
      is said apart; the ingest is reached when nothing raised before it and the
      decision was not to skip. */
  lemma ReturnsWhen(s: Share, t1: int, f: Faults)
    requires !Escapes(s, t1, f)
    ensures var r, t := OutcomeOf(s, t1, f), f.today;
            var late := s.mark.Some? && s.mark.value < t1 - t1 % 86400 && f.yesterday != CaughtUp;
            var tripped := t.read || t.compact || t.emit != Whole || (t.mark && !late) || t.decide || t.facts
                           || (t.skips && t.record);
            && r.Returned?
            && (r.error <==> tripped || (!t.skips && t.ingest))
            && (r.catchupError <==> late && !t.read)
            && (r.stage == IngestStage <==> !tripped && !t.skips)
  {
    CaughtUpWhen(s.mark, t1);
    FirstErrorAt(f.today, Owed(s, t1, f));
  }

  /** What a tick leaves on disk: yesterday's digest to its midnight, if it was asked
      for and got out; today's to the tick's time, if that got out; every other day
      as it was. */
  lemma DigestsAfter(s: Share, t1: int, f: Faults, d: int)
    ensures var t, today := AfterTick(s, t1, f), DayOf(t1);
            var asked := !f.today.read && s.mark.Some? && s.mark.value < t1 - t1 % 86400;
            var late := asked && f.yesterday in {CaughtUp, NoEmit(true), NoDecision, NoIngest};
            var emitted := !f.today.read && !f.today.compact && f.today.emit != Nothing;
            && (d == today && emitted ==> d in t.digests && t.digests[d] == t1)
            && (d == today - 1 && late ==> d in t.digests && t.digests[d] == 86400 * today)
            && (!(d == today && emitted) && !(d == today - 1 && late) ==>
                  (d in t.digests <==> d in s.digests) && (d in s.digests ==> t.digests[d] == s.digests[d]))
  {
    hide AfterTick;
    CaughtUpWhen(s.mark, t1);
    TryKeepsDigests(s, t1, f);
  }

  lemma TryKeepsDigests(s: Share, t1: int, f: Faults)
    ensures AfterTick(s, t1, f).digests
              == if f.today.read then s.digests
                 else AfterToday(CaughtUpShare(s, t1, f), t1, Owed(s, t1, f), f.today).digests
  {
  }

  /** A database counts as failed exactly when it returns and something went wrong:
      a call of the first `try` raised, the ingest did, or yesterday, asked for, did
      not come through. */
  lemma FailedWhen(s: Share, t1: int, f: Faults)
    ensures var t := f.today;
            var late := s.mark.Some? && s.mark.value < t1 - t1 % 86400 && f.yesterday != CaughtUp;
            Failed(OutcomeOf(s, t1, f)) <==>
              && !Escapes(s, t1, f)
              && (|| late || t.read || t.compact || t.emit != Whole || t.mark || t.decide || t.facts
                  || (t.skips && t.record) || (!t.skips && t.ingest))
  {
    CaughtUpWhen(s.mark, t1);
    FirstErrorAt(f.today, Owed(s, t1, f));
  }

  // ---- what a tick promises ----------------------------------------------

  /** Nothing wrong up to and with the write of the watermark. */
  predicate Marks(t: Today) {
    !t.read && !t.compact && t.emit.Whole? && !t.mark
  }

  /** The watermark moves exactly when today's digest got out and yesterday is
      not owed; otherwise it stays: a failed catch-up never advances it. */
  lemma MovesOrStays(s: Share, t1: int, f: Faults)
    ensures AfterTick(s, t1, f).mark == if Marks(f.today) && !Owed(s, t1, f) then Some(t1) else s.mark
  {
  }

  /** A catch-up that failed is asked for again, whatever day the next tick
      falls on. */
  lemma AskedAgain(s: Share, t1: int, f: Faults, later: int)
    requires Owed(s, t1, f) && DayOf(t1) <= later
    ensures CatchupDay(AfterTick(s, t1, f).mark, later) == Some(later - 1)
  {
    MovesOrStays(s, t1, f);
    assert DayOf(t1) * DAY <= later * DAY;
  }

  /** A stretch is said to be uncovered exactly when the watermark is older than
      yesterday, and it is that stretch; the run record has it unless the error
      that followed was not handled. */
  lemma ReportsOldMarks(s: Share, t1: int, f: Faults)
    ensures var t := AfterTick(s, t1, f);
            var aged := s.mark.Some? && s.mark.value < (DayOf(t1) - 1) * DAY;
            && t.printed == (if aged && !f.today.read then s.printed + [Gap(s.mark.value, (DayOf(t1) - 1) * DAY)]
                             else s.printed)
            && (!Unhandled(f.today, Owed(s, t1, f)) ==>
                  t.recorded == s.recorded + t.printed[|s.printed|..])
  {
    if s.mark.Some? && s.mark.value < (DayOf(t1) - 1) * DAY {
      assert s.mark.value < DayOf(t1) * DAY;
    }
  }

  // ---- no interval is silently skipped -----------------------------------

  predicate Compacted(s: Share, x: int) {
    DayOf(x) in s.digests && x < s.digests[DayOf(x)]
  }

  ghost predicate Reported(gaps: seq<Gap>, x: int) {
    exists g :: g in gaps && g.from <= x < g.to
  }

  /** In a digest on disk, or in one of the gaps. */
  ghost predicate Accounted(s: Share, gaps: seq<Gap>, x: int) {
    Compacted(s, x) || Reported(gaps, x)
  }

  ghost predicate Covers(s: Share, gaps: seq<Gap>, a: int, b: int) {
    forall x :: a <= x < b ==> Accounted(s, gaps, x)
  }

  lemma DayBounds(x: int, d: int)
    ensures d * DAY <= x < (d + 1) * DAY <==> DayOf(x) == d
    ensures x < d * DAY <==> DayOf(x) < d
  {
  }

  lemma NotedReports(gaps: seq<Gap>, g: Option<Gap>, x: int)
    ensures Reported(Noted(gaps, g), x) <==> Reported(gaps, x) || (g.Some? && g.value.from <= x < g.value.to)
  {
    if g.Some? {
      var more := gaps + [g.value];
      assert more[|gaps|] == g.value;
      assert forall h :: h in more <==> h in gaps || h == g.value;
    }
  }

  /** A tick takes no day's digest away from an instant before it. */
  lemma StillCompacted(s: Share, t1: int, f: Faults, x: int)
    requires x < t1 && Compacted(s, x)
    ensures Compacted(AfterTick(s, t1, f), x)
  {
    var yday := CatchupDay(s.mark, DayOf(t1));
    if yday.Some? {
      DayBounds(x, yday.value);
    }
  }

  /** Where the watermark moves to the tick's time, everything since the old one is
      compacted, but for the stretch it was told it misses. */
  lemma NewlyCompacted(s: Share, t1: int, f: Faults, x: int)
    requires s.mark.Some? && s.mark.value <= x < t1 && AfterTick(s, t1, f).mark == Some(t1) && s.mark.value < t1
    ensures Compacted(AfterTick(s, t1, f), x)
            || (Missed(s, t1).Some? && Missed(s, t1).value.from <= x < Missed(s, t1).value.to)
  {
    MovesOrStays(s, t1, f);
    DayBounds(x, DayOf(t1));
    DayBounds(t1, DayOf(t1));
    DayBounds(x, DayOf(t1) - 1);
  }

  /** One tick, whatever raises in it, keeps everything up to the watermark in a
      digest or said on stderr, and never moves the watermark back. */
  lemma TickCovers(s: Share, a: int, t1: int, f: Faults)
    requires s.mark.Some? && s.mark.value <= t1 && Covers(s, s.printed, a, s.mark.value)
    ensures var t := AfterTick(s, t1, f);
            t.mark.Some? && s.mark.value <= t.mark.value <= t1 && Covers(t, t.printed, a, t.mark.value)
  {
    var t := AfterTick(s, t1, f);
    MovesOrStays(s, t1, f);
    forall x | a <= x < t.mark.value ensures Accounted(t, t.printed, x) {
      NotedReports(s.printed, Missed(s, t1), x);
      if x < s.mark.value {
        assert Accounted(s, s.printed, x);
        if Compacted(s, x) {
          StillCompacted(s, t1, f, x);
        }
      } else {
        NewlyCompacted(s, t1, f, x);
      }
    }
  }

  // ---- runs --------------------------------------------------------------

  datatype Tick = Tick(t1: int, faults: Faults)

  function After(s: Share, ticks: seq<Tick>): Share {
    if ticks == [] then s
    else
      var last := ticks[|ticks| - 1];
      AfterTick(After(s, ticks[..|ticks| - 1]), last.t1, last.faults)
  }

  /** The clock does not go back from one tick to the next. */
  predicate Ordered(ticks: seq<Tick>) {
    forall i, j | 0 <= i < j < |ticks| :: ticks[i].t1 <= ticks[j].t1
  }

  lemma {:induction false} MarkIsATick(s: Share, ticks: seq<Tick>)
    requires s.mark.None?
    ensures After(s, ticks).mark.Some? ==> exists i :: 0 <= i < |ticks| && ticks[i].t1 == After(s, ticks).mark.value
  {
    if ticks != [] {
      var front, last := ticks[..|ticks| - 1], ticks[|ticks| - 1];
      MarkIsATick(s, front);
      MovesOrStays(After(s, front), last.t1, last.faults);
      if After(s, ticks).mark.Some? && After(s, ticks).mark != Some(last.t1) {
        var i :| 0 <= i < |front| && front[i].t1 == After(s, front).mark.value;
        assert ticks[i] == front[i];
      } else {
        assert After(s, ticks).mark.Some? ==> ticks[|ticks| - 1].t1 == last.t1;
      }
    }
  }

  /** The watermark is never ahead of the next tick. */
  lemma MarkBehind(s: Share, ticks: seq<Tick>)
    requires s.mark.None? && Ordered(ticks) && ticks != []
    ensures var front := ticks[..|ticks| - 1];
            After(s, front).mark.Some? ==> After(s, front).mark.value <= ticks[|ticks| - 1].t1
  {
    MarkIsATick(s, ticks[..|ticks| - 1]);
  }

  /** Over any ticks with any failures, every instant between an earlier
      watermark and the current one is in a digest on disk or was said on stderr. */
  lemma {:induction false} NoSilentGap(s: Share, ticks: seq<Tick>, i: nat)
    requires s.mark.None? && Ordered(ticks) && i <= |ticks|
    requires After(s, ticks[..i]).mark.Some?
    ensures var from, now := After(s, ticks[..i]).mark.value, After(s, ticks);
            now.mark.Some? && from <= now.mark.value && Covers(now, now.printed, from, now.mark.value)
    decreases |ticks|
  {
    if i == |ticks| {
      assert ticks[..i] == ticks;
    } else {
      var front, last := ticks[..|ticks| - 1], ticks[|ticks| - 1];
      assert front[..i] == ticks[..i];
      NoSilentGap(s, front, i);
      MarkBehind(s, ticks);
      TickCovers(After(s, front), After(s, ticks[..i]).mark.value, last.t1, last.faults);
    }
  }

  // ---- the run record ----------------------------------------------------

  /** The tick moves the watermark past a stretch that no digest holds, and its
      report is lost: the facts could not be added and the handler then raised. */
  ghost predicate Loses(s: Share, t1: int, f: Faults) {
    && Missed(s, t1).Some? && !Owed(s, t1, f)
    && DecisionMade(f.today, false) && f.today.facts && f.today.again
    && !Covers(s, s.recorded, Missed(s, t1).value.from, Missed(s, t1).value.to)
  }

  /** What is lost lies before the day of the watermark, where nothing comes back. */
  ghost predicate LostIsPast(s: Share, a: int) {
    s.mark.Some? && forall x | a <= x < s.mark.value && !Accounted(s, s.recorded, x) :: DayOf(x) < DayOf(s.mark.value)
  }

  lemma StaysLost(s: Share, t1: int, f: Faults, x: int)
    requires s.mark.Some? && s.mark.value <= t1 && DayOf(x) < DayOf(s.mark.value) && !Accounted(s, s.recorded, x)
    ensures !Accounted(AfterTick(s, t1, f), AfterTick(s, t1, f).recorded, x)
  {
    NotedReports(s.recorded, Missed(s, t1), x);
    DayBounds(x, DayOf(s.mark.value));
    DayBounds(s.mark.value, DayOf(s.mark.value));
    DayBounds(s.mark.value, DayOf(t1));
  }

  lemma StaysRecorded(s: Share, t1: int, f: Faults, x: int)
    requires x < t1 && Accounted(s, s.recorded, x)
    ensures Accounted(AfterTick(s, t1, f), AfterTick(s, t1, f).recorded, x)
  {
    NotedReports(s.recorded, Missed(s, t1), x);
    if Compacted(s, x) {
      StillCompacted(s, t1, f, x);
    }
  }

  lemma LostStaysPast(s: Share, a: int, t1: int, f: Faults)
    requires LostIsPast(s, a) && s.mark.value <= t1
    ensures LostIsPast(AfterTick(s, t1, f), a)
  {
    var t := AfterTick(s, t1, f);
    MovesOrStays(s, t1, f);
    forall x | a <= x < t.mark.value && !Accounted(t, t.recorded, x) ensures DayOf(x) < DayOf(t.mark.value) {
      if t.mark == s.mark {
        if Accounted(s, s.recorded, x) {
          StaysRecorded(s, t1, f, x);
        }
      } else {
        DayBounds(x, DayOf(t1));
        DayBounds(t1, DayOf(t1));
      }
    }
  }

  /** A stretch whose report is lost is not in any digest afterwards either. */
  lemma LosingLoses(s: Share, a: int, t1: int, f: Faults)
    requires s.mark.Some? && a <= s.mark.value <= t1 && Loses(s, t1, f)
    ensures var t := AfterTick(s, t1, f); t.mark == Some(t1) && !Covers(t, t.recorded, a, t1)
  {
    var t, g := AfterTick(s, t1, f), Missed(s, t1).value;
    FirstErrorAt(f.today, false);
    var x :| g.from <= x < g.to && !Accounted(s, s.recorded, x);
    DayBounds(x, DayOf(t1) - 1);
    DayBounds(x, DayOf(t1));
    DayBounds(t1, DayOf(t1));
    assert !Accounted(t, t.recorded, x);
  }

  lemma KeepsRecorded(s: Share, a: int, t1: int, f: Faults)
    requires s.mark.Some? && s.mark.value <= t1 && Covers(s, s.recorded, a, s.mark.value) && !Loses(s, t1, f)
    ensures var t := AfterTick(s, t1, f); t.mark.Some? && Covers(t, t.recorded, a, t.mark.value)
  {
    var t := AfterTick(s, t1, f);
    MovesOrStays(s, t1, f);
    FirstErrorAt(f.today, Owed(s, t1, f));
    forall x | a <= x < t.mark.value ensures Accounted(t, t.recorded, x) {
      if x < s.mark.value {
        StaysRecorded(s, t1, f, x);
      } else {
        NewlyCompacted(s, t1, f, x);
        NotedReports(s.recorded, Missed(s, t1), x);
        if Accounted(s, s.recorded, x) {
          StaysRecorded(s, t1, f, x);
        }
      }
    }
  }

  /** One tick: the run record accounts for everything up to the watermark after it
      exactly when it did before and the tick does not lose a report. */
  lemma TickRecords(s: Share, a: int, t1: int, f: Faults)
    requires LostIsPast(s, a) && a <= s.mark.value <= t1
    ensures var t := AfterTick(s, t1, f);
            && t.mark.Some?
            && (Covers(t, t.recorded, a, t.mark.value) <==>
                  Covers(s, s.recorded, a, s.mark.value) && !Loses(s, t1, f))
  {
    var t := AfterTick(s, t1, f);
    MovesOrStays(s, t1, f);
    if Loses(s, t1, f) {
      LosingLoses(s, a, t1, f);
    } else if Covers(s, s.recorded, a, s.mark.value) {
      KeepsRecorded(s, a, t1, f);
    } else {
      var x :| a <= x < s.mark.value && !Accounted(s, s.recorded, x);
      StaysLost(s, t1, f, x);
      assert a <= x < t.mark.value;
    }
  }

  /** No tick from the `i`-th on loses a report. */
  ghost predicate NoneLost(s: Share, ticks: seq<Tick>, i: nat)
    decreases |ticks|
  {
    i >= |ticks|
    || (var front, last := ticks[..|ticks| - 1], ticks[|ticks| - 1];
        NoneLost(s, front, i) && !Loses(After(s, front), last.t1, last.faults))
  }

  /** Over any ticks, digests and run records account for every instant between an
      earlier watermark and the current one if and only if no tick since lost a
      report. */
  lemma {:induction false} RecordedUnlessLost(s: Share, ticks: seq<Tick>, i: nat, from: int)
    requires s.mark.None? && Ordered(ticks) && i <= |ticks|
    requires After(s, ticks[..i]).mark == Some(from)
    ensures var now := After(s, ticks);
            && LostIsPast(now, from) && from <= now.mark.value
            && (Covers(now, now.recorded, from, now.mark.value) <==> NoneLost(s, ticks, i))
    decreases |ticks|
  {
    if i == |ticks| {
      assert ticks[..i] == ticks;
    } else {
      var front, last := ticks[..|ticks| - 1], ticks[|ticks| - 1];
      assert front[..i] == ticks[..i];
      RecordedUnlessLost(s, front, i, from);
      MarkBehind(s, ticks);
      OneMoreTick(After(s, front), from, last.t1, last.faults);
    }
  }

  lemma OneMoreTick(s: Share, a: int, t1: int, f: Faults)
    requires LostIsPast(s, a) && a <= s.mark.value <= t1
    ensures var t := AfterTick(s, t1, f);
            && LostIsPast(t, a) && a <= t.mark.value
            && (Covers(t, t.recorded, a, t.mark.value) <==>
                  Covers(s, s.recorded, a, s.mark.value) && !Loses(s, t1, f))
  {
    MovesOrStays(s, t1, f);
    TickRecords(s, a, t1, f);
    LostStaysPast(s, a, t1, f);
  }

  // ---- when nothing is reported ------------------------------------------

  /** The time of the last tick that got today's digest out and owed no yesterday. */
  function LastMove(s: Share, ticks: seq<Tick>): Option<int> {
    if ticks == [] then None
    else
      var front, last := ticks[..|ticks| - 1], ticks[|ticks| - 1];
      if Marks(last.faults.today) && !Owed(After(s, front), last.t1, last.faults) then Some(last.t1)
      else LastMove(s, front)
  }

  /** Before every tick but the first ones, such a tick on that day or the day
      before. */
  predicate MovesDaily(s: Share, ticks: seq<Tick>) {
    ticks == []
    || (var front, last := ticks[..|ticks| - 1], ticks[|ticks| - 1];
        && MovesDaily(s, front)
        && (LastMove(s, front).None? || DayOf(LastMove(s, front).value) >= DayOf(last.t1) - 1))
  }

  lemma {:induction false} LastMoveIsMark(s: Share, ticks: seq<Tick>)
    requires s.mark.None?
    ensures After(s, ticks).mark == LastMove(s, ticks)
  {
    if ticks != [] {
      var front, last := ticks[..|ticks| - 1], ticks[|ticks| - 1];
      LastMoveIsMark(s, front);
      MovesOrStays(After(s, front), last.t1, last.faults);
    }
  }

  /** No gap is reported as long as the watermark moves at least once every day,
      whatever else fails; that ticks run every day is not enough. */
  lemma {:induction false} DailyMovesReportNothing(s: Share, ticks: seq<Tick>)
    requires s.mark.None? && MovesDaily(s, ticks)
    ensures After(s, ticks).printed == s.printed
  {
    if ticks != [] {
      var front, last := ticks[..|ticks| - 1], ticks[|ticks| - 1];
      DailyMovesReportNothing(s, front);
      LastMoveIsMark(s, front);
      RecentMark(After(s, front), last.t1, last.faults);
    }
  }

  lemma RecentMark(s: Share, t1: int, f: Faults)
    requires s.mark.None? || DayOf(s.mark.value) >= DayOf(t1) - 1
    ensures AfterTick(s, t1, f).printed == s.printed
  {
    ReportsOldMarks(s, t1, f);
    if s.mark.Some? {
      DayBounds(s.mark.value, DayOf(t1) - 1);
    }
  }
}
