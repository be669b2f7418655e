/**
 Every interleaving of the advisory runner's request threads and workers.

 A step is one access to shared state, a clock reading going with the access
 before it.  Admission is two of them, the ledger read and the decision, with
 other threads' steps between: the lock keeps releases out of that gap, but not
 ledger lines.  A sweep loads a record in one step and rewrites it in a later
 one, whatever has become of the record meanwhile.  A `Ticket` is an admitted run
 until its slot is given back.
 */
module AdvisoryRuns {
  import opened Wrappers
  import opened Advisory
  import opened Numbers

  datatype Stage =
    | Packing                                  // reserved; its request thread packs and writes
    | Spawned                                  // the worker exists
    | Started                                  // record says running
    | Called                                   // the model has been asked
    | Stamped(line: Line, status: Status)      // finished, line not written yet
    | Logged(status: Status)                   // line written
    | Recorded                                 // terminal record written, slot still held

  datatype Ticket = Ticket(tool: Tool, run: RunId, stage: Stage)

  datatype Phase =
    | Entering
    | Reading
    | Admitting(now: int)
    | Counting(now: int, spent: Spend)
    | Denied
    | Holding(ticket: nat, written: bool)
    | Aborted

  datatype Request = Request(tool: Tool, run: RunId, phase: Phase)

  /** A record a sweep has loaded and is about to write again. */
  datatype Rewrite = Rewrite(run: RunId, record: Record)

  datatype State = State(
    budgets: map<Tool, Budget>,
    capacity: nat,
    clock: int,
    boot: nat,
    ledger: seq<Line>,
    records: map<RunId, Record>,
    reserved: map<Tool, nat>,
    free: nat,
    starting: Option<nat>,           // who holds each lock
    lock: Option<nat>,
    requests: map<nat, Request>,
    tickets: map<nat, Ticket>,
    sweeping: map<nat, Rewrite>,
    // history
    active: set<Tool>,               // tools that ever admitted a run
    called: map<RunId, nat>,
    pruned: map<RunId, nat>)

  datatype Step =
    | Pass(d: nat)
    | Arrive(th: nat, tool: Tool, run: RunId)
    | Enter(th: nat)
    | Read(th: nat)
    | Count(th: nat)
    | Decide(th: nat, k: nat)
    | Refuse(th: nat)
    | WriteQueued(th: nat)
    | Spawn(th: nat)
    | Abort(th: nat)
    | WriteFailed(th: nat)
    | Work(k: nat)
    | Ask(k: nat)
    | Finish(k: nat, cost: Option<Price>, ok: bool)
    | Log(k: nat)
    | WriteTerminal(k: nat)
    | Release(k: nat)
    | SweepLoad(th: nat, run: RunId)
    | SweepWrite(th: nat)
    | Prune(run: RunId)
    | Restart

  // ---- steps -------------------------------------------------------------

  predicate Holds(s: State, th: nat) {
    th in s.requests && s.requests[th].phase.Holding? && s.requests[th].phase.ticket in s.tickets
  }

  function GoTo(s: State, th: nat, p: Phase): State
    requires th in s.requests
  {
    s.(requests := s.requests[th := s.requests[th].(phase := p)])
  }

  /** The thread returns to its caller and gives `_starting` back. */
  function Leave(s: State, th: nat): State {
    s.(requests := s.requests - {th}, starting := None)
  }

  function SetStage(s: State, k: nat, stage: Stage): State
    requires k in s.tickets
  {
    s.(tickets := s.tickets[k := s.tickets[k].(stage := stage)])
  }

  function Bump(m: map<RunId, nat>, run: RunId): map<RunId, nat> {
    m[run := Tally(m, run) + 1]
  }

  function PoolOf(s: State): Pool {
    Pool(s.reserved, s.free)
  }

  function SetPool(s: State, p: Pool): State {
    s.(reserved := p.reserved, free := p.free)
  }

  /** Slot and reservation back; only while no admission is being decided. */
  function GiveBack(s: State, k: nat): State
    requires k in s.tickets
  {
    SetPool(s, Given(PoolOf(s), s.tickets[k].tool)).(tickets := s.tickets - {k})
  }

  predicate Standing(s: State, run: RunId) {
    run in s.records && !AsOf(s.records[run], s.boot).status.Refused?
  }

  // One step each; a step that is not possible in `s` changes nothing.

  function DoPass(s: State, d: nat): State {
    s.(clock := s.clock + d)
  }

  function DoArrive(s: State, th: nat, tool: Tool, run: RunId): State {
    if th in s.requests || tool !in s.budgets then s
    else s.(requests := s.requests[th := Request(tool, run, Entering)])
  }

  function DoEnter(s: State, th: nat): State {
    if th in s.requests && s.requests[th].phase.Entering? && s.starting.None? then
      GoTo(s, th, Reading).(starting := Some(th))
    else s
  }

  function DoRead(s: State, th: nat): State {
    if !(th in s.requests && s.requests[th].phase.Reading?) then s
    else if Standing(s, s.requests[th].run) then Leave(s, th)
    else GoTo(s, th, Admitting(s.clock))
  }

  function DoCount(s: State, th: nat): State {
    if !(th in s.requests && s.requests[th].phase.Admitting? && s.lock.None?
         && s.requests[th].tool in s.budgets) then s else
    var r := s.requests[th];
    GoTo(s, th, Counting(r.phase.now, SpendOf(s.ledger, r.tool, Since(Some(r.phase.now), s.budgets[r.tool]))))
      .(lock := Some(th))
  }

  function Deny(s: State, th: nat): State
    requires th in s.requests
  {
    GoTo(s, th, Denied).(lock := None)
  }

  function Admit(s: State, th: nat, k: nat): State
    requires th in s.requests && s.free > 0
  {
    var r := s.requests[th];
    SetPool(GoTo(s, th, Holding(k, false)), Taken(PoolOf(s), r.tool))
      .(lock := None,
        tickets := s.tickets[k := Ticket(r.tool, r.run, Packing)],
        active := s.active + {r.tool})
  }

  predicate CanDecide(s: State, th: nat, k: nat) {
    th in s.requests && s.requests[th].phase.Counting? && s.requests[th].tool in s.budgets && k !in s.tickets
  }

  predicate Admits(s: State, th: nat)
    requires th in s.requests && s.requests[th].phase.Counting? && s.requests[th].tool in s.budgets
  {
    var r := s.requests[th];
    Admission(r.phase.spent, s.reserved, s.free, r.tool, s.budgets[r.tool]).Go?
  }

  function DoDecide(s: State, th: nat, k: nat): State {
    if !CanDecide(s, th, k) then s
    else if Admits(s, th) then Admit(s, th, k)
    else Deny(s, th)
  }

  function DoRefuse(s: State, th: nat): State {
    if !(th in s.requests && s.requests[th].phase.Denied?) then s else
    var r := s.requests[th];
    Leave(s, th).(records := s.records[r.run := Record(r.tool, Status.Refused, s.boot)])
  }

  function DoWriteQueued(s: State, th: nat): State {
    if !Holds(s, th) || s.requests[th].phase.written then s else
    var r := s.requests[th];
    GoTo(s, th, r.phase.(written := true))
      .(records := s.records[r.run := Record(r.tool, Queued, s.boot)])
  }

  function DoSpawn(s: State, th: nat): State {
    if !Holds(s, th) || !s.requests[th].phase.written then s else
    SetStage(Leave(s, th), s.requests[th].phase.ticket, Spawned)
  }

  function DoAbort(s: State, th: nat): State {
    if !Holds(s, th) || s.lock.Some? then s else
    GoTo(GiveBack(s, s.requests[th].phase.ticket), th, Aborted)
  }

  function DoWriteFailed(s: State, th: nat): State {
    if !(th in s.requests && s.requests[th].phase.Aborted?) then s else
    var r := s.requests[th];
    Leave(s, th).(records := s.records[r.run := Record(r.tool, Failed, s.boot)])
  }

  function DoWork(s: State, k: nat): State {
    if !(k in s.tickets && s.tickets[k].stage.Spawned?) then s else
    var t := s.tickets[k];
    SetStage(s, k, Started).(records := s.records[t.run := Record(t.tool, Running, s.boot)])
  }

  function DoAsk(s: State, k: nat): State {
    if !(k in s.tickets && s.tickets[k].stage.Started?) then s else
    SetStage(s, k, Called).(called := Bump(s.called, s.tickets[k].run))
  }

  function DoFinish(s: State, k: nat, cost: Option<Price>, ok: bool): State {
    if !(k in s.tickets && (s.tickets[k].stage.Started? || s.tickets[k].stage.Called?)) then s else
    var t := s.tickets[k];
    SetStage(s, k, Stamped(Line(t.tool, t.run, Some(s.clock), cost), if ok then Succeeded else Failed))
  }

  function DoLog(s: State, k: nat): State {
    if !(k in s.tickets && s.tickets[k].stage.Stamped?) then s else
    var st := s.tickets[k].stage;
    SetStage(s, k, Logged(st.status)).(ledger := s.ledger + [st.line])
  }

  function DoWriteTerminal(s: State, k: nat): State {
    if !(k in s.tickets && s.tickets[k].stage.Logged?) then s else
    var t := s.tickets[k];
    SetStage(s, k, Recorded).(records := s.records[t.run := Record(t.tool, t.stage.status, s.boot)])
  }

  function DoRelease(s: State, k: nat): State {
    if !(k in s.tickets && s.tickets[k].stage.Recorded? && s.lock.None?) then s
    else GiveBack(s, k)
  }

  function DoSweepLoad(s: State, th: nat, run: RunId): State {
    if run !in s.records || AsOf(s.records[run], s.boot) == s.records[run] then s
    else s.(sweeping := s.sweeping[th := Rewrite(run, AsOf(s.records[run], s.boot))])
  }

  function DoSweepWrite(s: State, th: nat): State {
    if th !in s.sweeping then s
    else s.(records := s.records[s.sweeping[th].run := s.sweeping[th].record], sweeping := s.sweeping - {th})
  }

  function DoPrune(s: State, run: RunId): State {
    if run !in s.records then s
    else s.(records := s.records - {run}, pruned := Bump(s.pruned, run))
  }

  function DoRestart(s: State): State {
    s.(boot := s.boot + 1, reserved := map[], free := s.capacity, starting := None, lock := None,
       requests := map[], tickets := map[], sweeping := map[])
  }

  function Apply(s: State, step: Step): State {
    match step
    case Pass(d) => DoPass(s, d)
    case Arrive(th, tool, run) => DoArrive(s, th, tool, run)
    case Enter(th) => DoEnter(s, th)
    case Read(th) => DoRead(s, th)
    case Count(th) => DoCount(s, th)
    case Decide(th, k) => DoDecide(s, th, k)
    case Refuse(th) => DoRefuse(s, th)
    case WriteQueued(th) => DoWriteQueued(s, th)
    case Spawn(th) => DoSpawn(s, th)
    case Abort(th) => DoAbort(s, th)
    case WriteFailed(th) => DoWriteFailed(s, th)
    case Work(k) => DoWork(s, k)
    case Ask(k) => DoAsk(s, k)
    case Finish(k, cost, ok) => DoFinish(s, k, cost, ok)
    case Log(k) => DoLog(s, k)
    case WriteTerminal(k) => DoWriteTerminal(s, k)
    case Release(k) => DoRelease(s, k)
    case SweepLoad(th, run) => DoSweepLoad(s, th, run)
    case SweepWrite(th) => DoSweepWrite(s, th)
    case Prune(run) => DoPrune(s, run)
    case Restart => DoRestart(s)
  }

  function Start(budgets: map<Tool, Budget>, maxConcurrent: int, clock: int, ledger: seq<Line>,
                 records: map<RunId, Record>): State {
    var slots: nat := if maxConcurrent > 1 then maxConcurrent else 1;
    State(budgets, slots, clock, 0, ledger, records, map[], slots, None, None, map[], map[], map[], {}, map[], map[])
  }

  function Run(start: State, steps: seq<Step>): State {
    if steps == [] then start
    else Apply(Run(start, steps[..|steps| - 1]), steps[|steps| - 1])
  }

  // ---- counting tickets --------------------------------------------------

  datatype Sel =
    | OfTool(tool: Tool)
    | Unlogged(tool: Tool)
    | LoggedHeld(tool: Tool)
    | Unasked(run: RunId)

  predicate Picks(sel: Sel, t: Ticket) {
    match sel
    case OfTool(tool) => t.tool == tool
    case Unlogged(tool) => t.tool == tool && !t.stage.Logged? && !t.stage.Recorded?
    case LoggedHeld(tool) => t.tool == tool && (t.stage.Logged? || t.stage.Recorded?)
    case Unasked(run) => t.run == run && (t.stage.Packing? || t.stage.Spawned? || t.stage.Started?)
  }

  function Picked(tickets: map<nat, Ticket>, sel: Sel): set<nat> {
    set k | k in tickets && Picks(sel, tickets[k])
  }

  function HowMany(tickets: map<nat, Ticket>, sel: Sel): nat {
    |Picked(tickets, sel)|
  }

  lemma HowManyDropped(tickets: map<nat, Ticket>, k: nat, sel: Sel)
    ensures HowMany(tickets - {k}, sel)
              == HowMany(tickets, sel) - One(k in tickets && Picks(sel, tickets[k]))
  {
    assert Picked(tickets - {k}, sel) == Picked(tickets, sel) - {k};
  }

  lemma HowManyPut(tickets: map<nat, Ticket>, k: nat, t: Ticket, sel: Sel)
    ensures HowMany(tickets[k := t], sel)
              == HowMany(tickets, sel) - One(k in tickets && Picks(sel, tickets[k])) + One(Picks(sel, t))
  {
    HowManyDropped(tickets, k, sel);
    HowManyDropped(tickets[k := t], k, sel);
    assert tickets[k := t] - {k} == tickets - {k};
  }

  lemma HowManyOfTool(tickets: map<nat, Ticket>, tool: Tool)
    ensures HowMany(tickets, OfTool(tool)) == HowMany(tickets, Unlogged(tool)) + HowMany(tickets, LoggedHeld(tool))
  {
    assert Picked(tickets, OfTool(tool)) == Picked(tickets, Unlogged(tool)) + Picked(tickets, LoggedHeld(tool));
  }

  lemma HowManyHas(tickets: map<nat, Ticket>, k: nat, sel: Sel)
    requires k in tickets && Picks(sel, tickets[k])
    ensures HowMany(tickets, sel) > 0
  {
    assert k in Picked(tickets, sel);
  }

  // ---- invariants --------------------------------------------------------

  /** Past the door a thread holds `_starting`, and what its phase remembers
      still holds. */
  predicate ThreadOk(s: State, th: nat)
    requires th in s.requests
  {
    var r := s.requests[th];
    && r.tool in s.budgets
    && (!r.phase.Entering? ==> s.starting == Some(th))
    && (r.phase.Counting? ==> s.lock == Some(th))
    && (r.phase.Admitting? || r.phase.Counting? ==> r.phase.now <= s.clock)
    && (r.phase.Holding? ==>
          r.phase.ticket in s.tickets && s.tickets[r.phase.ticket] == Ticket(r.tool, r.run, Packing))
  }

  predicate TicketOk(t: Ticket) {
    t.stage.Stamped? ==> t.stage.line.tool == t.tool
  }

  /** Each lock has one holder. */
  ghost predicate Locks(s: State) {
    && (forall th | th in s.requests :: ThreadOk(s, th))
    && (s.lock.Some? ==> s.lock.value in s.requests && s.requests[s.lock.value].phase.Counting?)
    && (forall k | k in s.tickets :: TicketOk(s.tickets[k]))
  }

  /** Every slot is free or held by one ticket, and reservations count tickets. */
  ghost predicate Slots(s: State) {
    && s.free + |s.tickets| == s.capacity
    && forall tool: Tool :: Tally(s.reserved, tool) == HowMany(s.tickets, OfTool(tool))
  }

  function InWindow(s: State, tool: Tool): Spend
    requires tool in s.budgets
  {
    SpendOf(s.ledger, tool, Since(Some(s.clock), s.budgets[tool]))
  }

  /** The window's lines and the runs still to be logged are within the ceiling. */
  ghost predicate Within(s: State, tool: Tool)
    requires tool in s.budgets
  {
    InWindow(s, tool).runs + HowMany(s.tickets, Unlogged(tool)) <= s.budgets[tool].maxRuns
  }

  /** What a thread counted misses at most the lines of runs that hold a slot. */
  ghost predicate Seen(s: State, tool: Tool, spent: Spend)
    requires tool in s.budgets
  {
    InWindow(s, tool).runs <= spent.runs + HowMany(s.tickets, LoggedHeld(tool)) && spent.measured <= spent.runs
  }

  predicate Counts(s: State, th: nat) {
    th in s.requests && s.requests[th].phase.Counting? && s.requests[th].tool in s.budgets
  }

  ghost predicate Window(s: State) {
    && (forall tool | tool in s.budgets && tool in s.active :: Within(s, tool))
    && (forall k | k in s.tickets :: s.tickets[k].tool in s.active && s.tickets[k].tool in s.budgets)
    && (forall th | Counts(s, th) :: Seen(s, s.requests[th].tool, s.requests[th].phase.spent))
  }

  /** The ledger without `tool`'s last line. */
  function WithoutLast(ledger: seq<Line>, tool: Tool): seq<Line> {
    if ledger == [] then []
    else
      var front, l := ledger[..|ledger| - 1], ledger[|ledger| - 1];
      if l.tool == tool then front else WithoutLast(front, tool) + [l]
  }

  /** What the window has cost, the run last logged left out. */
  function Settled(s: State, tool: Tool): real
    requires tool in s.budgets
  {
    if HowMany(s.tickets, Unlogged(tool)) > 0 then InWindow(s, tool).cost
    else SpendOf(WithoutLast(s.ledger, tool), tool, Since(Some(s.clock), s.budgets[tool])).cost
  }

  ghost predicate Solvent(s: State, tool: Tool)
    requires tool in s.budgets
  {
    s.budgets[tool].maxCost.Some? ==>
      HowMany(s.tickets, OfTool(tool)) <= 1 && Settled(s, tool) < s.budgets[tool].maxCost.value
  }

  /** With no run of its tool in a slot, what a thread counted is the ledger's. */
  ghost predicate Exact(s: State, tool: Tool, now: int, spent: Spend)
    requires tool in s.budgets
  {
    HowMany(s.tickets, OfTool(tool)) == 0 ==> spent == SpendOf(s.ledger, tool, Since(Some(now), s.budgets[tool]))
  }

  ghost predicate Money(s: State) {
    && (forall tool | tool in s.budgets && tool in s.active :: Solvent(s, tool))
    && (forall th | Counts(s, th) ::
          Exact(s, s.requests[th].tool, s.requests[th].phase.now, s.requests[th].phase.spent))
  }

  ghost predicate Inv(s: State) {
    Locks(s) && Slots(s) && Window(s) && Money(s)
  }

  // ---- every step keeps them ---------------------------------------------

  /** Threads still deciding are threads that were deciding. */
  ghost predicate NoNewCount(s: State, s': State) {
    forall th | th in s'.requests && s'.requests[th].phase.Counting? ::
      th in s.requests && s'.requests[th] == s.requests[th]
  }

  ghost predicate SameSetup(s: State, s': State) {
    s'.budgets == s.budgets && s'.capacity == s.capacity
  }

  ghost predicate SameCounts(s: State, s': State) {
    && |s'.tickets| == |s.tickets|
    && (forall tool: Tool :: HowMany(s'.tickets, OfTool(tool)) == HowMany(s.tickets, OfTool(tool)))
    && (forall tool: Tool :: HowMany(s'.tickets, Unlogged(tool)) == HowMany(s.tickets, Unlogged(tool)))
    && (forall tool: Tool :: HowMany(s'.tickets, LoggedHeld(tool)) == HowMany(s.tickets, LoggedHeld(tool)))
    && (forall k | k in s'.tickets :: k in s.tickets && s'.tickets[k].tool == s.tickets[k].tool)
  }

  /** Steps that neither admit, nor write a line, nor give a slot back. */
  lemma SameCountsKeep(s: State, s': State)
    requires Inv(s) && Locks(s') && NoNewCount(s, s') && SameSetup(s, s') && SameCounts(s, s')
    requires s'.ledger == s.ledger && s'.reserved == s.reserved
             && s'.free == s.free && s'.active == s.active && s'.clock == s.clock
    ensures Inv(s')
  {
    SameWindow(s, s');
    SameMoney(s, s');
  }

  lemma SameWindow(s: State, s': State)
    requires Window(s) && NoNewCount(s, s') && SameSetup(s, s') && SameCounts(s, s')
    requires s'.ledger == s.ledger && s'.active == s.active && s'.clock == s.clock
    ensures Window(s')
  {
    forall th | Counts(s', th) ensures Seen(s', s'.requests[th].tool, s'.requests[th].phase.spent) {
      assert Counts(s, th);
    }
    forall tool | tool in s'.budgets && tool in s'.active ensures Within(s', tool) {
      assert Within(s, tool);
    }
  }

  lemma SameMoney(s: State, s': State)
    requires Money(s) && NoNewCount(s, s') && SameSetup(s, s') && SameCounts(s, s')
    requires s'.ledger == s.ledger && s'.active == s.active && s'.clock == s.clock
    ensures Money(s')
  {
    forall th | Counts(s', th)
      ensures Exact(s', s'.requests[th].tool, s'.requests[th].phase.now, s'.requests[th].phase.spent)
    {
      assert Counts(s, th);
    }
    forall tool | tool in s'.budgets && tool in s'.active ensures Solvent(s', tool) {
      assert Solvent(s, tool) && Settled(s', tool) == Settled(s, tool);
    }
  }

  /** A step of a request thread, or of the record files alone. */
  ghost predicate Quiet(s: State, s': State) {
    && NoNewCount(s, s') && SameSetup(s, s')
    && s'.tickets == s.tickets && s'.ledger == s.ledger && s'.reserved == s.reserved
    && s'.free == s.free && s'.active == s.active && s'.clock == s.clock
  }

  lemma QuietKeeps(s: State, s': State)
    requires Inv(s) && Locks(s') && Quiet(s, s')
    ensures Inv(s')
  {
    SameCountsKeep(s, s');
  }

  /** A ticket that moves on within its class counts as it did. */
  lemma StageCounts(s: State, s': State, k: nat)
    requires k in s.tickets && k in s'.tickets && s'.tickets == s.tickets[k := s'.tickets[k]]
    requires s'.tickets[k].tool == s.tickets[k].tool
    requires var a, b := s.tickets[k].stage, s'.tickets[k].stage;
             (a.Logged? || a.Recorded?) == (b.Logged? || b.Recorded?)
    ensures SameCounts(s, s')
  {
    forall tool: Tool
      ensures HowMany(s'.tickets, OfTool(tool)) == HowMany(s.tickets, OfTool(tool))
      ensures HowMany(s'.tickets, Unlogged(tool)) == HowMany(s.tickets, Unlogged(tool))
      ensures HowMany(s'.tickets, LoggedHeld(tool)) == HowMany(s.tickets, LoggedHeld(tool))
    {
      HowManyPut(s.tickets, k, s'.tickets[k], OfTool(tool));
      HowManyPut(s.tickets, k, s'.tickets[k], Unlogged(tool));
      HowManyPut(s.tickets, k, s'.tickets[k], LoggedHeld(tool));
    }
    assert s'.tickets.Keys == s.tickets.Keys;
    assert |s.tickets.Keys| == |s.tickets| && |s'.tickets.Keys| == |s'.tickets|;
  }

  /** A step that changes one thread's request, and that thread is in order. */
  lemma OneThread(s: State, s': State, th: nat)
    requires Locks(s) && SameSetup(s, s') && s'.tickets == s.tickets && s'.clock == s.clock
    requires s'.starting == s.starting && s'.lock == s.lock && s.lock != Some(th)
    requires th in s'.requests && s'.requests == s.requests[th := s'.requests[th]] && ThreadOk(s', th)
    ensures Locks(s')
  {
    forall t | t in s'.requests ensures ThreadOk(s', t) {
      if t != th {
        assert ThreadOk(s, t);
      }
    }
  }

  lemma EnterLocks(s: State, th: nat)
    requires Locks(s)
    ensures Locks(DoEnter(s, th))
    ensures Quiet(s, DoEnter(s, th))
  {
  }

  lemma EnterKeeps(s: State, th: nat)
    requires Inv(s)
    ensures Inv(DoEnter(s, th))
  {
    EnterLocks(s, th);
    QuietKeeps(s, DoEnter(s, th));
  }

  lemma LeaveLocks(s: State, th: nat)
    requires Locks(s) && th in s.requests && !s.requests[th].phase.Entering? && !s.requests[th].phase.Counting?
    ensures Locks(Leave(s, th)) && Quiet(s, Leave(s, th))
  {
  }

  /** Record files are not what the locks guard. */
  lemma RecordsQuiet(s: State, s': State, records: map<RunId, Record>)
    requires Locks(s') && Quiet(s, s')
    ensures Locks(s'.(records := records)) && Quiet(s, s'.(records := records))
  {
    var t := s'.(records := records);
    assert forall th | th in t.requests :: ThreadOk(s', th) ==> ThreadOk(t, th);
  }

  lemma AdmittingLocks(s: State, th: nat)
    requires Locks(s) && th in s.requests && s.requests[th].phase.Reading?
    ensures Locks(GoTo(s, th, Admitting(s.clock))) && Quiet(s, GoTo(s, th, Admitting(s.clock)))
  {
  }

  lemma ReadLocks(s: State, th: nat)
    requires Locks(s)
    ensures Locks(DoRead(s, th))
    ensures Quiet(s, DoRead(s, th))
  {
    if th in s.requests && s.requests[th].phase.Reading? {
      LeaveLocks(s, th);
      AdmittingLocks(s, th);
    }
  }

  lemma ReadKeeps(s: State, th: nat)
    requires Inv(s)
    ensures Inv(DoRead(s, th))
  {
    ReadLocks(s, th);
    QuietKeeps(s, DoRead(s, th));
  }

  lemma RefuseLocks(s: State, th: nat)
    requires Locks(s)
    ensures Locks(DoRefuse(s, th))
    ensures Quiet(s, DoRefuse(s, th))
  {
    if th in s.requests && s.requests[th].phase.Denied? {
      LeaveLocks(s, th);
      RecordsQuiet(s, Leave(s, th), DoRefuse(s, th).records);
    }
  }

  lemma RefuseKeeps(s: State, th: nat)
    requires Inv(s)
    ensures Inv(DoRefuse(s, th))
  {
    RefuseLocks(s, th);
    QuietKeeps(s, DoRefuse(s, th));
  }

  lemma WriteQueuedLocks(s: State, th: nat)
    requires Locks(s)
    ensures Locks(DoWriteQueued(s, th))
    ensures Quiet(s, DoWriteQueued(s, th))
  {
    if Holds(s, th) {
      assert ThreadOk(s, th) && s.lock != Some(th);
      if !s.requests[th].phase.written {
        OneThread(s, DoWriteQueued(s, th), th);
      }
    }
  }

  lemma WriteQueuedKeeps(s: State, th: nat)
    requires Inv(s)
    ensures Inv(DoWriteQueued(s, th))
  {
    WriteQueuedLocks(s, th);
    QuietKeeps(s, DoWriteQueued(s, th));
  }

  lemma WriteFailedLocks(s: State, th: nat)
    requires Locks(s)
    ensures Locks(DoWriteFailed(s, th))
    ensures Quiet(s, DoWriteFailed(s, th))
  {
    if th in s.requests && s.requests[th].phase.Aborted? {
      LeaveLocks(s, th);
      RecordsQuiet(s, Leave(s, th), DoWriteFailed(s, th).records);
    }
  }

  lemma WriteFailedKeeps(s: State, th: nat)
    requires Inv(s)
    ensures Inv(DoWriteFailed(s, th))
  {
    WriteFailedLocks(s, th);
    QuietKeeps(s, DoWriteFailed(s, th));
  }

  lemma ArriveLocks(s: State, th: nat, tool: Tool, run: RunId)
    requires Locks(s)
    ensures Locks(DoArrive(s, th, tool, run))
    ensures Quiet(s, DoArrive(s, th, tool, run))
  {
    if th !in s.requests && tool in s.budgets {
      OneThread(s, DoArrive(s, th, tool, run), th);
    }
  }

  lemma ArriveKeeps(s: State, th: nat, tool: Tool, run: RunId)
    requires Inv(s)
    ensures Inv(DoArrive(s, th, tool, run))
  {
    ArriveLocks(s, th, tool, run);
    QuietKeeps(s, DoArrive(s, th, tool, run));
  }

  lemma SweepLoadKeeps(s: State, th: nat, run: RunId)
    requires Inv(s)
    ensures Inv(DoSweepLoad(s, th, run))
  {
    var s' := DoSweepLoad(s, th, run);
    assert forall t | t in s'.requests :: ThreadOk(s, t) ==> ThreadOk(s', t);
    QuietKeeps(s, s');
  }

  lemma SweepWriteKeeps(s: State, th: nat)
    requires Inv(s)
    ensures Inv(DoSweepWrite(s, th))
  {
    var s' := DoSweepWrite(s, th);
    assert forall t | t in s'.requests :: ThreadOk(s, t) ==> ThreadOk(s', t);
    QuietKeeps(s, s');
  }

  lemma PruneLocks(s: State, run: RunId)
    requires Locks(s)
    ensures Locks(DoPrune(s, run))
    ensures Quiet(s, DoPrune(s, run))
  {
  }

  lemma PruneKeeps(s: State, run: RunId)
    requires Inv(s)
    ensures Inv(DoPrune(s, run))
  {
    PruneLocks(s, run);
    QuietKeeps(s, DoPrune(s, run));
  }

  lemma WorkLocks(s: State, k: nat)
    requires Locks(s)
    ensures Locks(DoWork(s, k))
  {
  }

  lemma WorkKeeps(s: State, k: nat)
    requires Inv(s)
    ensures Inv(DoWork(s, k))
  {
    var s' := DoWork(s, k);
    WorkLocks(s, k);
    if s'.tickets != s.tickets {
      StageCounts(s, s', k);
      SameCountsKeep(s, s');
    }
  }

  lemma AskLocks(s: State, k: nat)
    requires Locks(s)
    ensures Locks(DoAsk(s, k))
  {
  }

  lemma AskKeeps(s: State, k: nat)
    requires Inv(s)
    ensures Inv(DoAsk(s, k))
  {
    var s' := DoAsk(s, k);
    AskLocks(s, k);
    if s'.tickets != s.tickets {
      StageCounts(s, s', k);
      SameCountsKeep(s, s');
    }
  }

  lemma WriteTerminalLocks(s: State, k: nat)
    requires Locks(s)
    ensures Locks(DoWriteTerminal(s, k))
  {
  }

  lemma WriteTerminalKeeps(s: State, k: nat)
    requires Inv(s)
    ensures Inv(DoWriteTerminal(s, k))
  {
    var s' := DoWriteTerminal(s, k);
    WriteTerminalLocks(s, k);
    if s'.tickets != s.tickets {
      StageCounts(s, s', k);
      SameCountsKeep(s, s');
    }
  }

  lemma FinishLocks(s: State, k: nat, cost: Option<Price>, ok: bool)
    requires Locks(s)
    ensures Locks(DoFinish(s, k, cost, ok))
  {
  }

  lemma FinishKeeps(s: State, k: nat, cost: Option<Price>, ok: bool)
    requires Inv(s)
    ensures Inv(DoFinish(s, k, cost, ok))
  {
    var s' := DoFinish(s, k, cost, ok);
    FinishLocks(s, k, cost, ok);
    if s'.tickets != s.tickets {
      StageCounts(s, s', k);
      SameCountsKeep(s, s');
    }
  }

  lemma SpawnLocks(s: State, th: nat)
    requires Locks(s)
    ensures Locks(DoSpawn(s, th))
  {
  }

  lemma SpawnKeeps(s: State, th: nat)
    requires Inv(s)
    ensures Inv(DoSpawn(s, th))
  {
    var s' := DoSpawn(s, th);
    SpawnLocks(s, th);
    if s'.tickets != s.tickets {
      StageCounts(s, s', s.requests[th].phase.ticket);
      SameCountsKeep(s, s');
    }
  }

  lemma CountLocks(s: State, th: nat)
    requires Locks(s)
    ensures Locks(DoCount(s, th))
  {
  }

  lemma AbortLocks(s: State, th: nat)
    requires Locks(s)
    ensures Locks(DoAbort(s, th))
  {
  }

  lemma LogLocks(s: State, k: nat)
    requires Locks(s)
    ensures Locks(DoLog(s, k))
  {
  }

  lemma ReleaseLocks(s: State, k: nat)
    requires Locks(s)
    ensures Locks(DoRelease(s, k))
  {
  }

  lemma PassLocks(s: State, d: nat)
    requires Locks(s)
    ensures Locks(DoPass(s, d))
  {
  }

  lemma RestartLocks(s: State)
    requires Locks(s)
    ensures Locks(DoRestart(s))
  {
  }

  lemma DecideLocks(s: State, th: nat, k: nat)
    requires Locks(s) && CanDecide(s, th, k)
    ensures Locks(Deny(s, th))
    ensures s.free > 0 ==> Locks(Admit(s, th, k))
  {
  }

  /** The count read under the lock covers the window at every later moment. */
  lemma CountKeeps(s: State, th: nat)
    requires Inv(s)
    ensures Inv(DoCount(s, th))
  {
    CountLocks(s, th);
    CountWindow(s, th);
    CountMoney(s, th);
  }

  lemma CountWindow(s: State, th: nat)
    requires Locks(s) && Window(s) && Locks(DoCount(s, th))
    ensures Window(DoCount(s, th))
  {
    var s' := DoCount(s, th);
    if s'.lock != s.lock {
      var r := s.requests[th];
      var b := s.budgets[r.tool];
      SpendShrinks(s.ledger, r.tool, Since(Some(r.phase.now), b), Since(Some(s.clock), b));
      SpendShrinks(s.ledger, r.tool, Since(Some(r.phase.now), b), Since(Some(r.phase.now), b));
      OnlyCounter(s', th);
      forall tool | tool in s'.budgets && tool in s'.active ensures Within(s', tool) {
        assert Within(s, tool);
      }
    }
  }

  lemma CountMoney(s: State, th: nat)
    requires Locks(s) && Money(s) && Locks(DoCount(s, th))
    ensures Money(DoCount(s, th))
  {
    var s' := DoCount(s, th);
    if s'.lock != s.lock {
      OnlyCounter(s', th);
      forall tool | tool in s'.budgets && tool in s'.active ensures Solvent(s', tool) {
        assert Solvent(s, tool) && Settled(s', tool) == Settled(s, tool);
      }
    }
  }

  lemma OnlyCounter(s: State, th: nat)
    requires Locks(s) && s.lock == Some(th)
    ensures forall t | t in s.requests && s.requests[t].phase.Counting? :: t == th
  {
  }

  lemma WithoutLastCheaper(ledger: seq<Line>, tool: Tool, since: Option<int>)
    ensures SpendOf(WithoutLast(ledger, tool), tool, since).cost <= SpendOf(ledger, tool, since).cost
  {
    if ledger != [] {
      var front, l := ledger[..|ledger| - 1], ledger[|ledger| - 1];
      if l.tool != tool {
        WithoutLastCheaper(front, tool, since);
        SpendAppended(WithoutLast(front, tool), l, tool, since);
      }
    }
  }

  /** How a step changes the counts the invariants use. */
  ghost predicate Shifted(s: State, s': State, tool: Tool, unlogged: int, held: int) {
    && |s'.tickets| == |s.tickets| + unlogged + held
    && (forall t: Tool :: HowMany(s'.tickets, Unlogged(t))
          == HowMany(s.tickets, Unlogged(t)) + if t == tool then unlogged else 0)
    && (forall t: Tool :: HowMany(s'.tickets, LoggedHeld(t))
          == HowMany(s.tickets, LoggedHeld(t)) + if t == tool then held else 0)
    && (forall t: Tool :: HowMany(s'.tickets, OfTool(t))
          == HowMany(s.tickets, OfTool(t)) + if t == tool then unlogged + held else 0)
  }

  lemma NewShifts(s: State, s': State, k: nat, t: Ticket)
    requires k !in s.tickets && s'.tickets == s.tickets[k := t] && t.stage.Packing?
    ensures Shifted(s, s', t.tool, 1, 0)
  {
    forall tool: Tool
      ensures HowMany(s'.tickets, OfTool(tool)) == HowMany(s.tickets, OfTool(tool)) + if tool == t.tool then 1 else 0
      ensures HowMany(s'.tickets, Unlogged(tool)) == HowMany(s.tickets, Unlogged(tool)) + if tool == t.tool then 1 else 0
      ensures HowMany(s'.tickets, LoggedHeld(tool)) == HowMany(s.tickets, LoggedHeld(tool))
    {
      HowManyPut(s.tickets, k, t, OfTool(tool));
      HowManyPut(s.tickets, k, t, Unlogged(tool));
      HowManyPut(s.tickets, k, t, LoggedHeld(tool));
    }
    assert s'.tickets.Keys == s.tickets.Keys + {k};
    assert |s.tickets.Keys| == |s.tickets| && |s'.tickets.Keys| == |s'.tickets|;
  }

  lemma LogShifts(s: State, s': State, k: nat, t: Ticket)
    requires k in s.tickets && s'.tickets == s.tickets[k := t] && t.stage.Logged?
    requires s.tickets[k].stage.Stamped? && s.tickets[k].tool == t.tool
    ensures Shifted(s, s', t.tool, -1, 1)
  {
    forall tool: Tool
      ensures HowMany(s'.tickets, OfTool(tool)) == HowMany(s.tickets, OfTool(tool))
      ensures HowMany(s'.tickets, Unlogged(tool)) == HowMany(s.tickets, Unlogged(tool)) + if tool == t.tool then -1 else 0
      ensures HowMany(s'.tickets, LoggedHeld(tool)) == HowMany(s.tickets, LoggedHeld(tool)) + if tool == t.tool then 1 else 0
    {
      HowManyPut(s.tickets, k, t, OfTool(tool));
      HowManyPut(s.tickets, k, t, Unlogged(tool));
      HowManyPut(s.tickets, k, t, LoggedHeld(tool));
    }
    assert s'.tickets.Keys == s.tickets.Keys;
    assert |s.tickets.Keys| == |s.tickets| && |s'.tickets.Keys| == |s'.tickets|;
  }

  lemma DropShifts(s: State, s': State, k: nat)
    requires k in s.tickets && s'.tickets == s.tickets - {k}
    ensures var open := Picks(Unlogged(s.tickets[k].tool), s.tickets[k]);
            Shifted(s, s', s.tickets[k].tool, if open then -1 else 0, if open then 0 else -1)
  {
    var t := s.tickets[k];
    var open := Picks(Unlogged(t.tool), t);
    forall tool: Tool
      ensures HowMany(s'.tickets, OfTool(tool)) == HowMany(s.tickets, OfTool(tool)) + if tool == t.tool then -1 else 0
      ensures HowMany(s'.tickets, Unlogged(tool)) == HowMany(s.tickets, Unlogged(tool)) + if tool == t.tool && open then -1 else 0
      ensures HowMany(s'.tickets, LoggedHeld(tool)) == HowMany(s.tickets, LoggedHeld(tool)) + if tool == t.tool && !open then -1 else 0
    {
      HowManyDropped(s.tickets, k, OfTool(tool));
      HowManyDropped(s.tickets, k, Unlogged(tool));
      HowManyDropped(s.tickets, k, LoggedHeld(tool));
    }
    assert s'.tickets.Keys == s.tickets.Keys - {k};
    assert |s.tickets.Keys| == |s.tickets| && |s'.tickets.Keys| == |s'.tickets|;
  }

  // Admission.

  lemma AdmitSlots(s: State, th: nat, k: nat)
    requires Slots(s) && CanDecide(s, th, k) && s.free > 0
    ensures Slots(Admit(s, th, k))
  {
    var r := s.requests[th];
    NewShifts(s, Admit(s, th, k), k, Ticket(r.tool, r.run, Packing));
  }

  /** Why the ceiling holds: what the check did not see in the ledger it saw as
      a reservation. */
  lemma AdmitRoom(s: State, th: nat, k: nat)
    requires Slots(s) && Window(s) && CanDecide(s, th, k) && Admits(s, th)
    ensures var tool := s.requests[th].tool;
            var b := s.budgets[tool];
            && InWindow(s, tool).runs + HowMany(s.tickets, Unlogged(tool)) + 1 <= b.maxRuns
            && InWindow(s, tool).runs == |LinesSince(s.ledger, tool, s.clock - b.window)|
  {
    var tool := s.requests[th].tool;
    HowManyOfTool(s.tickets, tool);
    assert Tally(s.reserved, tool) == HowMany(s.tickets, OfTool(tool));
    SpendIs(s.ledger, tool, Since(Some(s.clock), s.budgets[tool]));
  }

  lemma NoCounter(s: State, th: nat, k: nat)
    requires Locks(s) && CanDecide(s, th, k) && s.free > 0
    ensures forall t | t in Admit(s, th, k).requests :: !Admit(s, th, k).requests[t].phase.Counting?
  {
    OnlyCounter(s, th);
  }

  lemma AdmitWindow(s: State, s': State, th: nat, k: nat)
    requires Locks(s) && Slots(s) && Window(s) && CanDecide(s, th, k) && Admits(s, th)
    requires s' == Admit(s, th, k) && forall t | t in s'.requests :: !s'.requests[t].phase.Counting?
    requires Shifted(s, s', s.requests[th].tool, 1, 0)
    ensures Window(s')
  {
    AdmitRoom(s, th, k);
    forall tool | tool in s'.budgets && tool in s'.active ensures Within(s', tool) {
      assert InWindow(s', tool) == InWindow(s, tool);
      if tool != s.requests[th].tool {
        assert Within(s, tool);
      }
    }
  }

  /** With a dollar ceiling one run at a time: a reservation is an unpriced run. */
  lemma AdmitAlone(s: State, th: nat, k: nat)
    requires Locks(s) && Slots(s) && Window(s) && Money(s) && CanDecide(s, th, k) && Admits(s, th)
    requires s.budgets[s.requests[th].tool].maxCost.Some?
    ensures var tool := s.requests[th].tool;
            && HowMany(s.tickets, OfTool(tool)) == 0
            && InWindow(s, tool).cost < s.budgets[tool].maxCost.value
  {
    var r := s.requests[th];
    var b := s.budgets[r.tool];
    assert Tally(s.reserved, r.tool) == HowMany(s.tickets, OfTool(r.tool));
    SpendShrinks(s.ledger, r.tool, Since(Some(r.phase.now), b), Since(Some(s.clock), b));
  }

  lemma AdmitMoney(s: State, s': State, th: nat, k: nat)
    requires Locks(s) && Slots(s) && Window(s) && Money(s) && CanDecide(s, th, k) && Admits(s, th)
    requires s' == Admit(s, th, k) && forall t | t in s'.requests :: !s'.requests[t].phase.Counting?
    requires Shifted(s, s', s.requests[th].tool, 1, 0)
    ensures Money(s')
  {
    hide SpendOf, WithoutLast, Check, Taken;
    forall tool | tool in s'.budgets && tool in s'.active ensures Solvent(s', tool) {
      assert InWindow(s', tool) == InWindow(s, tool);
      if tool == s.requests[th].tool {
        if s.budgets[tool].maxCost.Some? {
          AdmitAlone(s, th, k);
        }
      } else {
        assert Solvent(s, tool) && Settled(s', tool) == Settled(s, tool);
      }
    }
  }

  lemma DecideKeeps(s: State, th: nat, k: nat)
    requires Inv(s)
    ensures Inv(DoDecide(s, th, k))
  {
    if CanDecide(s, th, k) {
      DecideLocks(s, th, k);
      if Admits(s, th) {
        var s', r := Admit(s, th, k), s.requests[th];
        NewShifts(s, s', k, Ticket(r.tool, r.run, Packing));
        NoCounter(s, th, k);
        AdmitSlots(s, th, k);
        AdmitWindow(s, s', th, k);
        AdmitMoney(s, s', th, k);
      } else {
        QuietKeeps(s, Deny(s, th));
      }
    }
  }

  // Giving a slot back: a worker that is through, or a start that failed.

  ghost predicate Dropped(s: State, s': State, k: nat) {
    && k in s.tickets && s.lock.None? && SameSetup(s, s')
    && s'.tickets == s.tickets - {k} && s'.ledger == s.ledger && s'.clock == s.clock && s'.active == s.active
    && s'.reserved == GiveBack(s, k).reserved && s'.free == s.free + 1
    && (s.tickets[k].stage.Packing? || s.tickets[k].stage.Recorded?)
    && (forall th | th in s'.requests :: !s'.requests[th].phase.Counting?)
  }

  lemma DroppedSlots(s: State, s': State, k: nat)
    requires Slots(s) && Dropped(s, s', k)
    ensures Slots(s')
  {
    DropShifts(s, s', k);
    var tool := s.tickets[k].tool;
    HowManyHas(s.tickets, k, OfTool(tool));
    assert Tally(s.reserved, tool) == HowMany(s.tickets, OfTool(tool));
  }

  lemma DroppedWindow(s: State, s': State, k: nat)
    requires Window(s) && Dropped(s, s', k)
    ensures Window(s')
  {
    DropShifts(s, s', k);
    FewerWithin(s, s');
  }

  /** Fewer runs unlogged, the same ledger, nobody deciding. */
  lemma FewerWithin(s: State, s': State)
    requires Window(s) && SameSetup(s, s') && s'.ledger == s.ledger && s'.clock == s.clock && s'.active == s.active
    requires forall k | k in s'.tickets :: k in s.tickets && s'.tickets[k] == s.tickets[k]
    requires forall t: Tool :: HowMany(s'.tickets, Unlogged(t)) <= HowMany(s.tickets, Unlogged(t))
    requires forall th | th in s'.requests :: !s'.requests[th].phase.Counting?
    ensures Window(s')
  {
    forall tool | tool in s'.budgets && tool in s'.active ensures Within(s', tool) {
      assert Within(s, tool) && InWindow(s', tool) == InWindow(s, tool);
    }
  }

  lemma DroppedMoney(s: State, s': State, k: nat)
    requires Money(s) && Dropped(s, s', k)
    ensures Money(s')
  {
    DropShifts(s, s', k);
    forall tool | tool in s'.budgets && tool in s'.active ensures Solvent(s', tool) {
      assert Solvent(s, tool) && InWindow(s', tool) == InWindow(s, tool);
      HowManyOfTool(s.tickets, tool);
      WithoutLastCheaper(s.ledger, tool, Since(Some(s.clock), s.budgets[tool]));
    }
  }

  lemma DroppedKeeps(s: State, s': State, k: nat)
    requires Inv(s) && Locks(s') && Dropped(s, s', k)
    ensures Inv(s')
  {
    DroppedSlots(s, s', k);
    DroppedWindow(s, s', k);
    DroppedMoney(s, s', k);
  }

  lemma AbortKeeps(s: State, th: nat)
    requires Inv(s)
    ensures Inv(DoAbort(s, th))
  {
    AbortLocks(s, th);
    if Holds(s, th) && s.lock.None? {
      DroppedKeeps(s, DoAbort(s, th), s.requests[th].phase.ticket);
    }
  }

  lemma ReleaseKeeps(s: State, k: nat)
    requires Inv(s)
    ensures Inv(DoRelease(s, k))
  {
    ReleaseLocks(s, k);
    if k in s.tickets && s.tickets[k].stage.Recorded? && s.lock.None? {
      DroppedKeeps(s, DoRelease(s, k), k);
    }
  }

  // A ledger line.

  ghost predicate LineWritten(s: State, s': State, k: nat) {
    && k in s.tickets && s.tickets[k].stage.Stamped? && s' == DoLog(s, k)
    && s.tickets[k].stage.line.tool == s.tickets[k].tool
  }

  lemma WithoutNewLine(ledger: seq<Line>, l: Line, tool: Tool)
    ensures WithoutLast(ledger + [l], tool)
              == if l.tool == tool then ledger else WithoutLast(ledger, tool) + [l]
  {
    assert (ledger + [l])[..|ledger|] == ledger;
  }

  lemma LogWindow(s: State, s': State, k: nat)
    requires Window(s) && LineWritten(s, s', k) && Shifted(s, s', s.tickets[k].tool, -1, 1)
    ensures Window(s')
  {
    hide SpendOf;
    var l := s.tickets[k].stage.line;
    forall tool | tool in s'.budgets && tool in s'.active ensures Within(s', tool) {
      assert Within(s, tool);
      SpendAppended(s.ledger, l, tool, Since(Some(s.clock), s.budgets[tool]));
    }
    forall th | Counts(s', th) ensures Seen(s', s'.requests[th].tool, s'.requests[th].phase.spent) {
      var tool := s.requests[th].tool;
      assert Counts(s, th) && Seen(s, tool, s.requests[th].phase.spent);
      SpendAppended(s.ledger, l, tool, Since(Some(s.clock), s.budgets[tool]));
    }
  }

  lemma LogSolvent(s: State, s': State, k: nat, tool: Tool)
    requires LineWritten(s, s', k) && Shifted(s, s', s.tickets[k].tool, -1, 1)
    requires tool in s.budgets && Solvent(s, tool)
    ensures Solvent(s', tool)
  {
    var l := s.tickets[k].stage.line;
    var since := Since(Some(s.clock), s.budgets[tool]);
    HowManyHas(s.tickets, k, Unlogged(l.tool));
    WithoutNewLine(s.ledger, l, tool);
    HowManyOfTool(s.tickets, tool);
    if tool != l.tool {
      SpendAppended(s.ledger, l, tool, since);
      SpendAppended(WithoutLast(s.ledger, tool), l, tool, since);
    }
  }

  lemma LogMoney(s: State, s': State, k: nat)
    requires Money(s) && LineWritten(s, s', k) && Shifted(s, s', s.tickets[k].tool, -1, 1)
    ensures Money(s')
  {
    var l := s.tickets[k].stage.line;
    forall tool | tool in s'.budgets && tool in s'.active ensures Solvent(s', tool) {
      LogSolvent(s, s', k, tool);
    }
    forall th | Counts(s', th)
      ensures Exact(s', s'.requests[th].tool, s'.requests[th].phase.now, s'.requests[th].phase.spent)
    {
      var r := s.requests[th];
      assert Counts(s, th) && Exact(s, r.tool, r.phase.now, r.phase.spent);
      HowManyHas(s'.tickets, k, OfTool(l.tool));
      SpendAppended(s.ledger, l, r.tool, Since(Some(r.phase.now), s.budgets[r.tool]));
    }
  }

  lemma LogKeeps(s: State, k: nat)
    requires Inv(s)
    ensures Inv(DoLog(s, k))
  {
    LogLocks(s, k);
    var s' := DoLog(s, k);
    if k in s.tickets && s.tickets[k].stage.Stamped? {
      LogShifts(s, s', k, s'.tickets[k]);
      LogWindow(s, s', k);
      LogMoney(s, s', k);
    }
  }

  // The clock, and a restart.

  /** A later clock sees a narrower window. */
  lemma LaterWindow(s: State, d: nat, tool: Tool)
    requires tool in s.budgets
    ensures InWindow(DoPass(s, d), tool).runs <= InWindow(s, tool).runs
    ensures Settled(DoPass(s, d), tool) <= Settled(s, tool)
  {
    var b := s.budgets[tool];
    var early, late := Since(Some(s.clock), b), Since(Some(s.clock + d), b);
    SpendShrinks(s.ledger, tool, early, late);
    SpendShrinks(WithoutLast(s.ledger, tool), tool, early, late);
  }

  lemma PassKeeps(s: State, d: nat)
    requires Inv(s)
    ensures Inv(DoPass(s, d))
  {
    PassLocks(s, d);
    forall tool | tool in s.budgets
      ensures InWindow(DoPass(s, d), tool).runs <= InWindow(s, tool).runs
      ensures Settled(DoPass(s, d), tool) <= Settled(s, tool)
    {
      LaterWindow(s, d, tool);
    }
  }

  lemma RestartKeeps(s: State)
    requires Inv(s)
    ensures Inv(DoRestart(s))
  {
    RestartLocks(s);
    var s' := DoRestart(s);
    forall sel: Sel ensures HowMany(s'.tickets, sel) == 0 {
      assert Picked(s'.tickets, sel) == {};
    }
    forall tool | tool in s.budgets
      ensures InWindow(s', tool) == InWindow(s, tool)
      ensures Settled(s', tool) <= Settled(s, tool)
    {
      WithoutLastCheaper(s.ledger, tool, Since(Some(s.clock), s.budgets[tool]));
    }
  }

  predicate OfThread(step: Step) {
    step.Pass? || step.Arrive? || step.Enter? || step.Read? || step.Count? || step.Decide? || step.Refuse?
  }

  predicate OfStart(step: Step) {
    step.WriteQueued? || step.Spawn? || step.Abort? || step.WriteFailed?
  }

  predicate OfRecords(step: Step) {
    step.SweepLoad? || step.SweepWrite? || step.Prune? || step.Restart?
  }

  predicate OfWorker(step: Step) {
    step.Work? || step.Ask? || step.Finish? || step.Log? || step.WriteTerminal? || step.Release?
  }

  lemma ThreadKeeps(s: State, step: Step)
    requires Inv(s) && OfThread(step)
    ensures Inv(Apply(s, step))
  {
    hide Inv;
    match step
    case Pass(d) => PassKeeps(s, d);
    case Arrive(th, tool, run) => ArriveKeeps(s, th, tool, run);
    case Enter(th) => EnterKeeps(s, th);
    case Read(th) => ReadKeeps(s, th);
    case Count(th) => CountKeeps(s, th);
    case Decide(th, k) => DecideKeeps(s, th, k);
    case Refuse(th) => RefuseKeeps(s, th);
  }

  lemma StartKeeps(s: State, step: Step)
    requires Inv(s) && OfStart(step)
    ensures Inv(Apply(s, step))
  {
    hide Inv;
    match step
    case WriteQueued(th) => WriteQueuedKeeps(s, th);
    case Spawn(th) => SpawnKeeps(s, th);
    case Abort(th) => AbortKeeps(s, th);
    case WriteFailed(th) => WriteFailedKeeps(s, th);
  }

  lemma RecordsKeep(s: State, step: Step)
    requires Inv(s) && OfRecords(step)
    ensures Inv(Apply(s, step))
  {
    hide Inv;
    match step
    case SweepLoad(th, run) => SweepLoadKeeps(s, th, run);
    case SweepWrite(th) => SweepWriteKeeps(s, th);
    case Prune(run) => PruneKeeps(s, run);
    case Restart => RestartKeeps(s);
  }

  lemma WorkerKeeps(s: State, step: Step)
    requires Inv(s) && OfWorker(step)
    ensures Inv(Apply(s, step))
  {
    hide Inv;
    match step
    case Work(k) => WorkKeeps(s, k);
    case Ask(k) => AskKeeps(s, k);
    case Finish(k, cost, ok) => FinishKeeps(s, k, cost, ok);
    case Log(k) => LogKeeps(s, k);
    case WriteTerminal(k) => WriteTerminalKeeps(s, k);
    case Release(k) => ReleaseKeeps(s, k);
  }

  lemma ApplyKeeps(s: State, step: Step)
    requires Inv(s)
    ensures Inv(Apply(s, step))
  {
    hide Inv, Apply;
    if OfThread(step) {
      ThreadKeeps(s, step);
    } else if OfStart(step) {
      StartKeeps(s, step);
    } else if OfRecords(step) {
      RecordsKeep(s, step);
    } else {
      WorkerKeeps(s, step);
    }
  }

  // ---- the runner's methods are these steps ------------------------------

  /** `Runner.Admit` is the count and the decision with no step between: on a go
      the pool is taken from and a ticket issued, otherwise nothing moves. */
  lemma AdmitIsStep(s: State, th: nat, k: nat)
    requires th in s.requests && s.requests[th].phase.Admitting? && s.requests[th].tool in s.budgets
    requires s.lock.None? && k !in s.tickets
    ensures var r := s.requests[th];
            var b := s.budgets[r.tool];
            var v := Admission(SpendOf(s.ledger, r.tool, Since(Some(r.phase.now), b)), s.reserved, s.free, r.tool, b);
            var s' := DoDecide(DoCount(s, th), th, k);
            && s'.ledger == s.ledger && s'.records == s.records && s'.lock.None?
            && (v.Go? ==> s.free > 0 && PoolOf(s') == Taken(PoolOf(s), r.tool)
                          && s'.tickets == s.tickets[k := Ticket(r.tool, r.run, Packing)])
            && (!v.Go? ==> PoolOf(s') == PoolOf(s) && s'.tickets == s.tickets && s'.requests[th].phase.Denied?)
  {
    hide SpendOf, Since, Check, Tally, Taken;
    var c := DoCount(s, th);
    assert CanDecide(c, th, k);
  }

  /** `Runner.Release` is the release step of a worker that is through, and what
      a failed start does too. */
  lemma ReleaseIsStep(s: State, k: nat, th: nat)
    requires s.lock.None?
    ensures k in s.tickets && s.tickets[k].stage.Recorded? ==>
              DoRelease(s, k) == SetPool(s, Given(PoolOf(s), s.tickets[k].tool)).(tickets := s.tickets - {k})
    ensures Holds(s, th) ==> PoolOf(DoAbort(s, th)) == Given(PoolOf(s), s.tickets[s.requests[th].phase.ticket].tool)
  {
  }

  // ---- the lives of a request, undisturbed -------------------------------

  /** The server starts with a slot for each concurrent run, and at least one. */
  lemma StartsWhole(budgets: map<Tool, Budget>, maxConcurrent: int, clock: int, ledger: seq<Line>,
                    records: map<RunId, Record>)
    ensures var s := Start(budgets, maxConcurrent, clock, ledger, records);
            s.capacity == s.free == Max(1, maxConcurrent) && s.reserved == map[] && s.tickets == map[]
  {
  }

  /** `th` has been admitted on ticket `k` and has written nothing yet. */
  predicate Admitted(s: State, th: nat, k: nat) {
    && th in s.requests && s.requests[th].phase == Holding(k, false)
    && k in s.tickets && s.tickets[k] == Ticket(s.requests[th].tool, s.requests[th].run, Packing)
  }

  lemma SpawnIs(s: State, th: nat, k: nat)
    requires th in s.requests && s.requests[th].phase == Holding(k, true) && k in s.tickets
    ensures DoSpawn(s, th) == s.(requests := s.requests - {th}, starting := None,
                                 tickets := s.tickets[k := s.tickets[k].(stage := Spawned)])
  {
  }

  lemma QueuedIs(s: State, th: nat, k: nat)
    requires Admitted(s, th, k)
    ensures var r := s.requests[th];
            DoWriteQueued(s, th) == s.(requests := s.requests[th := r.(phase := Holding(k, true))],
                                       records := s.records[r.run := Record(r.tool, Queued, s.boot)])
  {
  }

  lemma WorkIs(s: State, k: nat)
    requires k in s.tickets && s.tickets[k].stage.Spawned?
    ensures var t := s.tickets[k];
            DoWork(s, k) == s.(tickets := s.tickets[k := t.(stage := Started)],
                               records := s.records[t.run := Record(t.tool, Running, s.boot)])
  {
  }

  /** The start, up to the worker's first step: the record is queued, then running. */
  lemma Starts(s: State, th: nat, k: nat)
    requires Admitted(s, th, k)
    ensures var r := s.requests[th];
            var s' := DoWork(DoSpawn(DoWriteQueued(s, th), th), k);
            && s'.records == s.records[r.run := Record(r.tool, Running, s.boot)]
            && s'.tickets == s.tickets[k := Ticket(r.tool, r.run, Started)]
            && s'.requests == s.requests - {th} && s'.starting == None
            && PoolOf(s') == PoolOf(s) && s'.ledger == s.ledger && s'.called == s.called
  {
    hide DoWriteQueued, DoSpawn, DoWork;
    var r := s.requests[th];
    QueuedIs(s, th, k);
    var a := DoWriteQueued(s, th);
    SpawnIs(a, th, k);
    var b := DoSpawn(a, th);
    WorkIs(b, k);
    assert a.requests - {th} == s.requests - {th};
    assert b.tickets[k := Ticket(r.tool, r.run, Started)] == s.tickets[k := Ticket(r.tool, r.run, Started)];
    assert b.records[r.run := Record(r.tool, Running, s.boot)] == s.records[r.run := Record(r.tool, Running, s.boot)];
  }

  /** Where a worker has got with ticket `k`: its stage, and what it has changed. */
  predicate Reached(s: State, now: State, k: nat, stage: Stage, called: map<RunId, nat>, ledger: seq<Line>,
                    records: map<RunId, Record>) {
    && k in s.tickets && now.tickets == s.tickets[k := s.tickets[k].(stage := stage)]
    && now.called == called && now.ledger == ledger && now.records == records
    && now.requests == s.requests && now.reserved == s.reserved && now.free == s.free
    && now.clock == s.clock && now.boot == s.boot && now.lock == s.lock
  }

  lemma AsksAndFinishes(s: State, k: nat, cost: Option<Price>, ok: bool)
    requires k in s.tickets && s.tickets[k].stage.Started?
    ensures var t := s.tickets[k];
            Reached(s, DoFinish(DoAsk(s, k), k, cost, ok), k,
                    Stamped(Line(t.tool, t.run, Some(s.clock), cost), if ok then Succeeded else Failed),
                    s.called[t.run := Tally(s.called, t.run) + 1], s.ledger, s.records)
  {
    var a := DoAsk(s, k);
    assert Reached(s, a, k, Stage.Called, s.called[s.tickets[k].run := Tally(s.called, s.tickets[k].run) + 1], s.ledger, s.records);
  }

  lemma Logs(s: State, a: State, k: nat, line: Line, status: Status, called: map<RunId, nat>)
    requires Reached(s, a, k, Stamped(line, status), called, s.ledger, s.records)
    ensures Reached(s, DoLog(a, k), k, Logged(status), called, s.ledger + [line], s.records)
  {
  }

  lemma Records(s: State, a: State, k: nat, status: Status, called: map<RunId, nat>, ledger: seq<Line>)
    requires Reached(s, a, k, Logged(status), called, ledger, s.records)
    ensures Reached(s, DoWriteTerminal(a, k), k, Recorded, called, ledger,
                    s.records[s.tickets[k].run := Record(s.tickets[k].tool, status, s.boot)])
  {
  }

  lemma Releases(s: State, a: State, k: nat, called: map<RunId, nat>, ledger: seq<Line>, records: map<RunId, Record>)
    requires Reached(s, a, k, Recorded, called, ledger, records) && s.lock.None?
    ensures var s' := DoRelease(a, k);
            && s'.called == called && s'.ledger == ledger && s'.records == records && s'.requests == s.requests
            && s'.tickets == s.tickets - {k} && PoolOf(s') == Given(PoolOf(s), s.tickets[k].tool)
  {
    hide Given;
    assert a.tickets - {k} == s.tickets - {k};
  }

  /** The worker, from its first step to its last: one call, one line stamped with the
      present time, a record that says how it went, and the slot given back. */
  lemma Works(s: State, k: nat, cost: Option<Price>, ok: bool)
    requires k in s.tickets && s.tickets[k].stage.Started? && s.lock.None?
    ensures var t := s.tickets[k];
            var s' := DoRelease(DoWriteTerminal(DoLog(DoFinish(DoAsk(s, k), k, cost, ok), k), k), k);
            && s'.called == s.called[t.run := Tally(s.called, t.run) + 1]
            && s'.ledger == s.ledger + [Line(t.tool, t.run, Some(s.clock), cost)]
            && s'.records == s.records[t.run := Record(t.tool, if ok then Succeeded else Failed, s.boot)]
            && s'.tickets == s.tickets - {k} && PoolOf(s') == Given(PoolOf(s), t.tool) && s'.requests == s.requests
  {
    hide Reached, DoRelease, DoWriteTerminal, DoLog, DoFinish, DoAsk, Given;
    var t := s.tickets[k];
    var called := s.called[t.run := Tally(s.called, t.run) + 1];
    var line, status := Line(t.tool, t.run, Some(s.clock), cost), if ok then Succeeded else Failed;
    var a := DoFinish(DoAsk(s, k), k, cost, ok);
    AsksAndFinishes(s, k, cost, ok);
    Logs(s, a, k, line, status, called);
    Records(s, DoLog(a, k), k, status, called, s.ledger + [line]);
    Releases(s, DoWriteTerminal(DoLog(a, k), k), k, called, s.ledger + [line],
             s.records[t.run := Record(t.tool, status, s.boot)]);
  }

  /** A start that fails after admission leaves a failed record and nothing else: no
      line, no call, and slot and reservation back. */
  lemma FailsToStart(s: State, th: nat, k: nat)
    requires Admitted(s, th, k) && s.lock.None?
    ensures var r := s.requests[th];
            var s' := DoWriteFailed(DoAbort(s, th), th);
            && s'.records == s.records[r.run := Record(r.tool, Failed, s.boot)]
            && s'.tickets == s.tickets - {k} && PoolOf(s') == Given(PoolOf(s), r.tool)
            && s'.requests == s.requests - {th} && s'.starting == None
            && s'.ledger == s.ledger && s'.called == s.called
  {
    hide Given;
    assert DoAbort(s, th).requests - {th} == s.requests - {th};
  }

  /** A refusal leaves a refused record, and spends nothing. */
  lemma IsRefused(s: State, th: nat)
    requires th in s.requests && s.requests[th].phase.Denied?
    ensures var r := s.requests[th];
            DoRefuse(s, th) == s.(records := s.records[r.run := Record(r.tool, Status.Refused, s.boot)],
                                  requests := s.requests - {th}, starting := None)
  {
  }

  /** A request whose run has a record that stands, not a refused one, is answered
      with it; any other goes on to be admitted. */
  lemma IsAnswered(s: State, th: nat)
    requires th in s.requests && s.requests[th].phase.Reading?
    ensures var run := s.requests[th].run;
            if run in s.records && s.records[run].status != Status.Refused
            then DoRead(s, th) == s.(requests := s.requests - {th}, starting := None)
            else DoRead(s, th).requests == s.requests[th := s.requests[th].(phase := Admitting(s.clock))]
  {
  }
}
