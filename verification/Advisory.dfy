/**
 The advisory runner's accounting: the ledger, the spend window read from it,
 and the critical section that admits a run or refuses it.
 */
module Advisory {
  import opened Wrappers
  import opened Numbers

  type Tool = string
  type RunId = string
  type Price = r: real | r >= 0.0 witness 0.0

  /** One ledger line.  `at` is `None` when its stamp does not parse. */
  datatype Line = Line(tool: Tool, run: RunId, at: Option<int>, cost: Option<Price>)

  datatype Budget = Budget(window: int, maxRuns: int, maxCost: Option<real>)

  datatype Spend = Spend(runs: nat, measured: nat, cost: real)

  datatype Verdict = Go | MaxRuns | CostUnknown | MaxCost | Busy

  // ---- the spend window --------------------------------------------------

  /** `since` is `None` when the clock does not parse: then every line counts. */
  predicate Counts(l: Line, tool: Tool, since: Option<int>) {
    l.tool == tool && (since.None? || (l.at.Some? && l.at.value >= since.value))
  }

  function Plus(s: Spend, l: Line): Spend {
    if l.cost.Some? then Spend(s.runs + 1, s.measured + 1, s.cost + l.cost.value)
    else s.(runs := s.runs + 1)
  }

  function SpendOf(ledger: seq<Line>, tool: Tool, since: Option<int>): Spend {
    if ledger == [] then Spend(0, 0, 0.0)
    else
      var s := SpendOf(ledger[..|ledger| - 1], tool, since);
      var l := ledger[|ledger| - 1];
      if Counts(l, tool, since) then Plus(s, l) else s
  }

  function Since(now: Option<int>, b: Budget): Option<int> {
    if now.Some? then Some(now.value - b.window) else None
  }

  lemma SpendAppended(ledger: seq<Line>, l: Line, tool: Tool, since: Option<int>)
    ensures var s := SpendOf(ledger, tool, since);
            SpendOf(ledger + [l], tool, since) == if Counts(l, tool, since) then Plus(s, l) else s
  {
    assert (ledger + [l])[..|ledger|] == ledger;
  }

  /** A later window sees no more; an unreadable clock sees everything. */
  lemma {:induction false} SpendShrinks(ledger: seq<Line>, tool: Tool, early: Option<int>, late: Option<int>)
    requires early.None? || (late.Some? && early.value <= late.value)
    ensures var a, b := SpendOf(ledger, tool, early), SpendOf(ledger, tool, late);
            b.runs <= a.runs && b.cost <= a.cost && b.runs - b.measured <= a.runs - a.measured
    ensures SpendOf(ledger, tool, late).measured <= SpendOf(ledger, tool, late).runs
  {
    if ledger != [] {
      SpendShrinks(ledger[..|ledger| - 1], tool, early, late);
    }
  }

  // The same, over positions in the ledger.

  /** The tool's lines. */
  ghost function LinesOf(ledger: seq<Line>, tool: Tool): set<nat> {
    set i | 0 <= i < |ledger| && ledger[i].tool == tool
  }

  /** The tool's lines stamped at a time or later. */
  ghost function LinesSince(ledger: seq<Line>, tool: Tool, from: int): set<nat> {
    set i | 0 <= i < |ledger| && ledger[i].tool == tool && ledger[i].at.Some? && from <= ledger[i].at.value
  }

  ghost function Unpriced(ledger: seq<Line>, lines: set<nat>): set<nat> {
    set i | i in lines && i < |ledger| && ledger[i].cost.None?
  }

  /** What some lines cost. */
  ghost function CostOver(ledger: seq<Line>, lines: set<nat>): real {
    if ledger == [] then 0.0
    else
      var n := |ledger| - 1;
      CostOver(ledger[..n], lines) + if n in lines && ledger[n].cost.Some? then ledger[n].cost.value else 0.0
  }

  lemma {:induction false} CostOverSame(ledger: seq<Line>, a: set<nat>, b: set<nat>)
    requires forall i | 0 <= i < |ledger| :: i in a <==> i in b
    ensures CostOver(ledger, a) == CostOver(ledger, b)
  {
    if ledger != [] {
      CostOverSame(ledger[..|ledger| - 1], a, b);
    }
  }

  /** What a window counts: every line of the tool when there is no clock. */
  ghost function WindowLines(ledger: seq<Line>, tool: Tool, since: Option<int>): set<nat> {
    if since.None? then LinesOf(ledger, tool) else LinesSince(ledger, tool, since.value)
  }

  lemma WindowLonger(ledger: seq<Line>, tool: Tool, since: Option<int>)
    requires ledger != []
    ensures var n := |ledger| - 1;
            && n !in WindowLines(ledger[..n], tool, since)
            && WindowLines(ledger, tool, since)
                 == WindowLines(ledger[..n], tool, since) + if Counts(ledger[n], tool, since) then {n} else {}
  {
  }

  lemma UnpricedLonger(ledger: seq<Line>, lines: set<nat>)
    requires ledger != [] && forall i | i in lines :: i < |ledger| - 1
    ensures var n := |ledger| - 1;
            && Unpriced(ledger, lines) == Unpriced(ledger[..n], lines)
            && Unpriced(ledger, lines + {n}) == Unpriced(ledger[..n], lines) + if ledger[n].cost.None? then {n} else {}
  {
  }

  lemma NoLines(tool: Tool, since: Option<int>)
    ensures WindowLines([], tool, since) == {} && Unpriced([], {}) == {}
  {
  }

  /** The number of the lines, the number of those that are priced, and the sum of
      their prices. */
  ghost predicate Matches(spent: Spend, ledger: seq<Line>, lines: set<nat>) {
    && spent.runs == |lines| && spent.measured == |lines| - |Unpriced(ledger, lines)|
    && spent.cost == CostOver(ledger, lines)
  }

  lemma MatchesLonger(spent: Spend, ledger: seq<Line>, lines: set<nat>)
    requires ledger != [] && (forall i | i in lines :: i < |ledger| - 1)
    requires Matches(spent, ledger[..|ledger| - 1], lines)
    ensures Matches(spent, ledger, lines)
    ensures Matches(Plus(spent, ledger[|ledger| - 1]), ledger, lines + {|ledger| - 1})
  {
    var n := |ledger| - 1;
    UnpricedLonger(ledger, lines);
    assert n !in lines && n !in Unpriced(ledger[..n], lines);
    CostOverSame(ledger[..n], lines, lines + {n});
  }

  /** The spend of a window is that of its lines. */
  lemma {:induction false} SpendIs(ledger: seq<Line>, tool: Tool, since: Option<int>)
    ensures Matches(SpendOf(ledger, tool, since), ledger, WindowLines(ledger, tool, since))
  {
    if ledger == [] {
      NoLines(tool, since);
    } else {
      var n := |ledger| - 1;
      SpendIs(ledger[..n], tool, since);
      WindowLonger(ledger, tool, since);
      MatchesLonger(SpendOf(ledger[..n], tool, since), ledger, WindowLines(ledger[..n], tool, since));
    }
  }

  method ReadSpend(ledger: seq<Line>, tool: Tool, since: Option<int>) returns (spend: Spend)
    ensures spend == SpendOf(ledger, tool, since)
    ensures Matches(spend, ledger, WindowLines(ledger, tool, since))
  {
    SpendIs(ledger, tool, since);
    var runs, measured, cost: real := 0, 0, 0.0;
    for i := 0 to |ledger|
      invariant Spend(runs, measured, cost) == SpendOf(ledger[..i], tool, since)
    {
      assert ledger[..i + 1][..i] == ledger[..i];
      var row := ledger[i];
      if row.tool != tool {
        continue;
      }
      if since.Some? && (row.at.None? || row.at.value < since.value) {
        continue;
      }
      runs := runs + 1;
      if row.cost.Some? {
        measured, cost := measured + 1, cost + row.cost.value;
      }
    }
    assert ledger[..|ledger|] == ledger;
    return Spend(runs, measured, cost);
  }

  // ---- the check ---------------------------------------------------------

  function PlusReserved(s: Spend, reservations: nat): Spend {
    s.(runs := s.runs + reservations)
  }

  function Check(s: Spend, b: Budget): Verdict {
    if s.runs >= b.maxRuns then MaxRuns
    else if b.maxCost.None? then Go
    else if s.runs - s.measured != 0 then CostUnknown
    else if s.cost >= b.maxCost.value then MaxCost
    else Go
  }

  /** The decision taken under the lock, `spent` having been read under it. */
  function Admission(spent: Spend, reserved: map<Tool, nat>, free: nat, tool: Tool, b: Budget): Verdict {
    var v := Check(PlusReserved(spent, Tally(reserved, tool)), b);
    if v.Go? && free == 0 then Busy else v
  }

  /** The verdict the ceilings call for, given the lines in the window: first the
      count, then what it costs, then a free slot. */
  ghost predicate RightVerdict(v: Verdict, ledger: seq<Line>, lines: set<nat>, held: nat, free: nat, b: Budget) {
    var unpriced := |Unpriced(ledger, lines)| + held;
    var priced := b.maxCost.Some?;
    && (v == MaxRuns <==> |lines| + held >= b.maxRuns)
    && (v == CostUnknown <==> |lines| + held < b.maxRuns && priced && unpriced > 0)
    && (v == MaxCost <==> |lines| + held < b.maxRuns && priced && unpriced == 0
                          && CostOver(ledger, lines) >= b.maxCost.value)
    && (v == Busy <==> |lines| + held < b.maxRuns && free == 0
                       && (priced ==> unpriced == 0 && CostOver(ledger, lines) < b.maxCost.value))
  }

  /** With a clock, the lines are those of the last `b.window`; without, all. */
  lemma AdmissionIsCalled(ledger: seq<Line>, reserved: map<Tool, nat>, free: nat, tool: Tool, b: Budget,
                          now: Option<int>)
    ensures var v := Admission(SpendOf(ledger, tool, Since(now, b)), reserved, free, tool, b);
            var held := if tool in reserved then reserved[tool] else 0;
            && (now.Some? ==> RightVerdict(v, ledger, LinesSince(ledger, tool, now.value - b.window), held, free, b))
            && (now.None? ==> RightVerdict(v, ledger, LinesOf(ledger, tool), held, free, b))
  {
    SpendIs(ledger, tool, Since(now, b));
  }

  // ---- reservations and slots --------------------------------------------

  /** What the lock guards: reservations by tool, and the free slots. */
  datatype Pool = Pool(reserved: map<Tool, nat>, free: nat)

  /** An admission takes a slot and a reservation. */
  function Taken(p: Pool, tool: Tool): Pool
    requires p.free > 0
  {
    Pool(p.reserved[tool := Tally(p.reserved, tool) + 1], p.free - 1)
  }

  /** A release gives both back; reservations stop at zero. */
  function Given(p: Pool, tool: Tool): Pool {
    Pool(p.reserved[tool := Max(0, Tally(p.reserved, tool) - 1)], p.free + 1)
  }

  /** The same slots, and the same reservations of every tool. */
  ghost predicate SamePool(p: Pool, q: Pool) {
    p.free == q.free && forall tool: Tool :: Tally(p.reserved, tool) == Tally(q.reserved, tool)
  }

  /** A release undoes its admission. */
  lemma ReleaseUndoes(p: Pool, tool: Tool)
    requires p.free > 0
    ensures SamePool(Given(Taken(p, tool), tool), p)
  {
  }

  /** Whatever was admitted before it gives back, in either order: a release of
      a reservation held commutes with an admission. */
  lemma ReleaseCommutes(p: Pool, a: Tool, b: Tool)
    requires p.free > 0 && Tally(p.reserved, b) > 0
    ensures SamePool(Given(Taken(p, a), b), Taken(Given(p, b), a))
  {
  }

  // ---- run records -------------------------------------------------------

  datatype Status = Queued | Running | Succeeded | Failed | Refused | Interrupted

  predicate Terminal(s: Status) { !s.Queued? && !s.Running? }

  datatype Record = Record(tool: Tool, status: Status, boot: nat)

  /** A record in flight under another boot is a run whose process died. */
  function AsOf(r: Record, boot: nat): Record {
    if Terminal(r.status) || r.boot == boot then r else r.(status := Interrupted)
  }

  function Swept(records: map<RunId, Record>, boot: nat): map<RunId, Record> {
    map id | id in records :: AsOf(records[id], boot)
  }

  /** A sweep interrupts exactly the runs that another boot left queued or running,
      and a second sweep changes nothing. */
  lemma SweepTwice(records: map<RunId, Record>, boot: nat)
    ensures Swept(Swept(records, boot), boot) == Swept(records, boot)
    ensures Swept(records, boot).Keys == records.Keys
    ensures forall id | id in records ::
              var was, now := records[id], Swept(records, boot)[id];
              && now.tool == was.tool && now.boot == was.boot
              && now.status == if was.boot != boot && was.status in {Queued, Running} then Interrupted else was.status
  {
  }

  /** The runner's mutable state, as the methods under its lock change it. */
  class Runner {
    var ledger: seq<Line>
    var reserved: map<Tool, nat>
    var free: nat
    var records: map<RunId, Record>
    const boot: nat

    constructor (ledger: seq<Line>, records: map<RunId, Record>, maxConcurrent: int, boot: nat)
      ensures this.ledger == ledger && this.records == records && this.boot == boot
      ensures reserved == map[] && free == if maxConcurrent > 1 then maxConcurrent else 1
    {
      this.ledger, this.records, this.boot := ledger, records, boot;
      reserved, free := map[], if maxConcurrent > 1 then maxConcurrent else 1;
    }

    method Admit(tool: Tool, b: Budget, now: Option<int>) returns (v: Verdict)
      modifies this`reserved, this`free
      ensures v == Admission(SpendOf(ledger, tool, Since(now, b)), old(reserved), old(free), tool, b)
      ensures var held := if tool in old(reserved) then old(reserved)[tool] else 0;
              && (now.Some? ==> RightVerdict(v, ledger, LinesSince(ledger, tool, now.value - b.window), held, old(free), b))
              && (now.None? ==> RightVerdict(v, ledger, LinesOf(ledger, tool), held, old(free), b))
      ensures v.Go? ==> old(free) > 0 && Pool(reserved, free) == Taken(Pool(old(reserved), old(free)), tool)
      ensures !v.Go? ==> free == old(free) && reserved == old(reserved)
    {
      AdmissionIsCalled(ledger, reserved, free, tool, b, now);
      var spent := ReadSpend(ledger, tool, Since(now, b));
      v := Check(PlusReserved(spent, Tally(reserved, tool)), b);
      if !v.Go? {
        return;
      }
      if free == 0 {
        return Busy;
      }
      free := free - 1;
      reserved := reserved[tool := Tally(reserved, tool) + 1];
    }

    method Release(tool: Tool)
      modifies this`reserved, this`free
      ensures Pool(reserved, free) == Given(Pool(old(reserved), old(free)), tool)
    {
      reserved := reserved[tool := Max(0, Tally(reserved, tool) - 1)];
      free := free + 1;
    }

    method Sweep()
      modifies this`records
      ensures records == Swept(old(records), boot)
    {
      var todo := records.Keys;
      while todo != {}
        invariant todo <= old(records).Keys && records.Keys == old(records).Keys
        invariant forall id | id in old(records) ::
          records[id] == if id in todo then old(records)[id] else AsOf(old(records)[id], boot)
      {
        var id :| id in todo;
        var honest := AsOf(records[id], boot);
        if honest != records[id] {
          records := records[id := honest];
        }
        todo := todo - {id};
      }
    }
  }
}
