/**
 What the advisory runner promises, over every run of `AdvisoryRuns`: the count
 ceiling, the dollar ceiling, the slots, and one model call per run id.
 */
module AdvisoryPromises {
  import opened Wrappers
  import opened Advisory
  import opened AdvisoryRuns
  import opened Numbers

  // ---- one model call per run id -----------------------------------------

  /** A record a re-post is answered with, instead of a second call. */
  predicate Present(s: State, run: RunId) {
    run in s.records && !s.records[run].status.Refused?
  }

  /** Admitted, and the queued record not written yet. */
  ghost predicate InProgress(s: State, run: RunId) {
    exists th :: th in s.requests && s.requests[th].run == run
      && s.requests[th].phase.Holding? && !s.requests[th].phase.written
  }

  /** Calls made for `run`, and calls its tickets may still make. */
  function Calls(s: State, run: RunId): nat {
    Tally(s.called, run) + HowMany(s.tickets, Unasked(run))
  }

  ghost predicate Allowed(s: State, run: RunId) {
    Calls(s, run) <= Tally(s.pruned, run) + One(Present(s, run) || InProgress(s, run))
  }

  predicate Deciding(p: Phase) {
    p.Admitting? || p.Counting? || p.Denied?
  }

  ghost predicate CallsBounded(s: State) {
    && (forall run: RunId :: Allowed(s, run))
    && (forall th | th in s.requests && Deciding(s.requests[th].phase) ::
          Calls(s, s.requests[th].run) <= Tally(s.pruned, s.requests[th].run))
    && (forall k | k in s.tickets ::
          && (s.tickets[k].stage.Stamped? ==> !s.tickets[k].stage.status.Refused?)
          && (s.tickets[k].stage.Logged? ==> !s.tickets[k].stage.status.Refused?))
    && Rewrites(s)
  }

  /** No sweep writes a refusal. */
  ghost predicate Rewrites(s: State) {
    forall th | th in s.sweeping :: !s.sweeping[th].record.status.Refused?
  }

  /** A thread past the door has it to itself. */
  ghost predicate Alone(s: State, th: nat) {
    forall t | t in s.requests && !s.requests[t].phase.Entering? :: t == th
  }

  lemma OneStarting(s: State, th: nat)
    requires Locks(s) && th in s.requests && !s.requests[th].phase.Entering?
    ensures Alone(s, th)
  {
  }

  /** Steps after which every run has no more calls than before, and as much
      reason to have them. */
  lemma CallsKept(s: State, s': State)
    requires CallsBounded(s) && s'.pruned == s.pruned
    requires forall run: RunId :: Calls(s', run) <= Calls(s, run)
    requires forall run: RunId :: Present(s, run) || InProgress(s, run) ==> Present(s', run) || InProgress(s', run)
    requires forall th | th in s'.requests && Deciding(s'.requests[th].phase) ::
               th in s.requests && s.requests[th].run == s'.requests[th].run && Deciding(s.requests[th].phase)
    requires forall k | k in s'.tickets && (s'.tickets[k].stage.Stamped? || s'.tickets[k].stage.Logged?) ::
               !s'.tickets[k].stage.status.Refused?
    requires Rewrites(s')
    ensures CallsBounded(s')
  {
    forall run: RunId ensures Allowed(s', run) {
      assert Allowed(s, run);
    }
  }

  lemma PassCalls(s: State, d: nat)
    requires CallsBounded(s)
    ensures CallsBounded(DoPass(s, d))
  {
    CallsKept(s, DoPass(s, d));
  }

  lemma ArriveCalls(s: State, th: nat, tool: Tool, run: RunId)
    requires CallsBounded(s)
    ensures CallsBounded(DoArrive(s, th, tool, run))
  {
    var s' := DoArrive(s, th, tool, run);
    forall r: RunId | InProgress(s, r) ensures InProgress(s', r) {
      var t :| t in s.requests && s.requests[t].run == r && s.requests[t].phase.Holding? && !s.requests[t].phase.written;
      assert s'.requests[t] == s.requests[t];
    }
    CallsKept(s, s');
  }

  lemma StillInProgress(s: State, s': State, th: nat)
    requires forall t | t in s.requests && t != th :: t in s'.requests && s'.requests[t] == s.requests[t]
    requires th in s.requests && s.requests[th].phase.Holding? ==> s.requests[th].phase.written
    ensures forall r: RunId :: InProgress(s, r) ==> InProgress(s', r)
  {
    forall r: RunId | InProgress(s, r) ensures InProgress(s', r) {
      var t :| t in s.requests && s.requests[t].run == r && s.requests[t].phase.Holding? && !s.requests[t].phase.written;
      assert s'.requests[t] == s.requests[t];
    }
  }

  lemma EnterCalls(s: State, th: nat)
    requires CallsBounded(s)
    ensures CallsBounded(DoEnter(s, th))
  {
    if DoEnter(s, th) != s {
      StillInProgress(s, DoEnter(s, th), th);
      CallsKept(s, DoEnter(s, th));
    }
  }

  lemma LeaveCalls(s: State, th: nat)
    requires CallsBounded(s) && th in s.requests && s.requests[th].phase.Reading?
    ensures CallsBounded(Leave(s, th))
  {
    StillInProgress(s, Leave(s, th), th);
    CallsKept(s, Leave(s, th));
  }

  /** A thread that found no standing record: nothing is owed for its run. */
  lemma AdmittingCalls(s: State, th: nat)
    requires CallsBounded(s) && th in s.requests && s.requests[th].phase.Reading? && Alone(s, th)
    requires !Standing(s, s.requests[th].run)
    ensures CallsBounded(GoTo(s, th, Admitting(s.clock)))
  {
    var s' := GoTo(s, th, Admitting(s.clock));
    var run := s.requests[th].run;
    StillInProgress(s, s', th);
    assert !Present(s, run) && !InProgress(s, run);
    assert Allowed(s, run);
    forall r: RunId ensures Allowed(s', r) {
      assert Allowed(s, r);
      assert Calls(s', r) == Calls(s, r) && Present(s', r) == Present(s, r);
    }
    forall t | t in s'.requests && Deciding(s'.requests[t].phase)
      ensures Calls(s', s'.requests[t].run) <= Tally(s'.pruned, s'.requests[t].run)
    {
      assert t == th;
    }
  }

  lemma CountCalls(s: State, th: nat)
    requires CallsBounded(s)
    ensures CallsBounded(DoCount(s, th))
  {
    if DoCount(s, th) != s {
      StillInProgress(s, DoCount(s, th), th);
      CallsKept(s, DoCount(s, th));
    }
  }

  lemma DenyCalls(s: State, th: nat, k: nat)
    requires CallsBounded(s) && CanDecide(s, th, k)
    ensures CallsBounded(Deny(s, th))
  {
    StillInProgress(s, Deny(s, th), th);
    CallsKept(s, Deny(s, th));
  }

  lemma AdmitAllows(s: State, s': State, th: nat, k: nat, run: RunId)
    requires CallsBounded(s) && CanDecide(s, th, k) && s.free > 0 && s' == Admit(s, th, k)
    requires InProgress(s, run) ==> InProgress(s', run)
    ensures Allowed(s', run)
  {
    var r := s.requests[th];
    assert Allowed(s, run);
    HowManyPut(s.tickets, k, Ticket(r.tool, r.run, Packing), Unasked(run));
    assert s'.requests[th].phase.Holding? && !s'.requests[th].phase.written;
  }

  lemma AdmitCalls(s: State, th: nat, k: nat)
    requires CallsBounded(s) && CanDecide(s, th, k) && s.free > 0 && Alone(s, th)
    ensures CallsBounded(Admit(s, th, k))
  {
    var s' := Admit(s, th, k);
    StillInProgress(s, s', th);
    forall run: RunId ensures Allowed(s', run) {
      AdmitAllows(s, s', th, k, run);
    }
  }

  lemma RefuseCalls(s: State, th: nat)
    requires CallsBounded(s) && (th in s.requests && s.requests[th].phase.Denied? ==> Alone(s, th))
    ensures CallsBounded(DoRefuse(s, th))
  {
    var s' := DoRefuse(s, th);
    if th in s.requests && s.requests[th].phase.Denied? {
      StillInProgress(s, s', th);
      forall run: RunId ensures Allowed(s', run) {
        assert Allowed(s, run);
        assert run != s.requests[th].run ==> Present(s', run) == Present(s, run);
      }
    }
  }

  lemma WriteCalls(s: State, th: nat)
    requires CallsBounded(s)
    ensures CallsBounded(DoWriteQueued(s, th)) && CallsBounded(DoWriteFailed(s, th))
  {
    if DoWriteQueued(s, th) != s {
      WrittenKept(s, DoWriteQueued(s, th), th);
    }
    if DoWriteFailed(s, th) != s {
      WrittenKept(s, DoWriteFailed(s, th), th);
    }
  }

  /** The thread's record now stands, whatever it was doing. */
  lemma WrittenKept(s: State, s': State, th: nat)
    requires CallsBounded(s) && th in s.requests
    requires s'.tickets == s.tickets && s'.called == s.called && s'.pruned == s.pruned && Rewrites(s')
    requires forall t | t in s.requests && t != th :: t in s'.requests && s'.requests[t] == s.requests[t]
    requires forall t | t in s'.requests :: t in s.requests
    requires th in s'.requests ==> !Deciding(s'.requests[th].phase)
    requires Present(s', s.requests[th].run)
    requires forall r: RunId | r != s.requests[th].run :: Present(s', r) == Present(s, r)
    ensures CallsBounded(s')
  {
    forall r: RunId | InProgress(s, r) && r != s.requests[th].run ensures InProgress(s', r) {
      var t :| t in s.requests && s.requests[t].run == r && s.requests[t].phase.Holding? && !s.requests[t].phase.written;
      assert s'.requests[t] == s.requests[t];
    }
    CallsKept(s, s');
  }

  lemma TicketCalls(s: State, s': State, k: nat, run: RunId)
    requires k in s.tickets && k in s'.tickets && s'.tickets == s.tickets[k := s'.tickets[k]]
    requires s'.tickets[k].run == s.tickets[k].run
    requires Picks(Unasked(run), s'.tickets[k]) ==> Picks(Unasked(run), s.tickets[k])
    requires s'.called == s.called
      || (s'.called == Bump(s.called, s.tickets[k].run) && Picks(Unasked(s.tickets[k].run), s.tickets[k])
          && !Picks(Unasked(s.tickets[k].run), s'.tickets[k]))
    ensures Calls(s', run) <= Calls(s, run)
  {
    HowManyPut(s.tickets, k, s'.tickets[k], Unasked(run));
  }

  lemma SpawnCalls(s: State, th: nat)
    requires CallsBounded(s) && Holds(s, th) && s.requests[th].phase.written
    requires s.tickets[s.requests[th].phase.ticket].stage.Packing?
    ensures CallsBounded(DoSpawn(s, th))
  {
    var s' := DoSpawn(s, th);
    StillInProgress(s, s', th);
    forall run: RunId ensures Calls(s', run) <= Calls(s, run) {
      TicketCalls(s, s', s.requests[th].phase.ticket, run);
    }
    CallsKept(s, s');
  }

  /** What a worker does: at most one call, and its record stands. */
  lemma WorkerCalls(s: State, s': State, k: nat)
    requires CallsBounded(s) && k in s.tickets
    requires s' == DoWork(s, k) || s' == DoAsk(s, k) || s' == DoLog(s, k) || s' == DoWriteTerminal(s, k)
      || exists cost, ok :: s' == DoFinish(s, k, cost, ok)
    ensures CallsBounded(s')
  {
    if s' != s {
      forall run: RunId ensures Calls(s', run) <= Calls(s, run) {
        TicketCalls(s, s', k, run);
      }
      CallsKept(s, s');
    }
  }

  lemma DropCalls(s: State, s': State, k: nat, run: RunId)
    requires k in s.tickets && s'.tickets == s.tickets - {k} && s'.called == s.called
    ensures Calls(s', run) == Calls(s, run) - One(Picks(Unasked(run), s.tickets[k]))
  {
    HowManyDropped(s.tickets, k, Unasked(run));
  }

  lemma ReleaseCalls(s: State, k: nat)
    requires CallsBounded(s)
    ensures CallsBounded(DoRelease(s, k))
  {
    var s' := DoRelease(s, k);
    if s' != s {
      forall run: RunId ensures Calls(s', run) <= Calls(s, run) {
        DropCalls(s, s', k, run);
      }
      CallsKept(s, s');
    }
  }

  /** A start that fails after admission gives its call back with its slot. */
  lemma AbortCalls(s: State, th: nat)
    requires Locks(s) && CallsBounded(s)
    ensures CallsBounded(DoAbort(s, th))
  {
    if Holds(s, th) && s.lock.None? {
      OneStarting(s, th);
      AbortBounded(s, th);
    }
  }

  lemma AbortBounded(s: State, th: nat)
    requires CallsBounded(s) && Holds(s, th) && s.lock.None? && Alone(s, th)
    requires s.tickets[s.requests[th].phase.ticket] == Ticket(s.requests[th].tool, s.requests[th].run, Packing)
    ensures CallsBounded(DoAbort(s, th))
  {
    var s' := DoAbort(s, th);
    forall run: RunId ensures Allowed(s', run) {
      assert Allowed(s, run);
      DropCalls(s, s', s.requests[th].phase.ticket, run);
      assert InProgress(s, run) ==> run == s.requests[th].run;
    }
  }

  lemma PruneCalls(s: State, run: RunId)
    requires CallsBounded(s)
    ensures CallsBounded(DoPrune(s, run))
  {
    var s' := DoPrune(s, run);
    if run in s.records {
      forall r: RunId ensures Allowed(s', r) {
        assert Allowed(s, r);
        assert Calls(s', r) == Calls(s, r) && InProgress(s', r) == InProgress(s, r);
      }
    }
  }

  lemma SweepLoadCalls(s: State, th: nat, run: RunId)
    requires CallsBounded(s)
    ensures CallsBounded(DoSweepLoad(s, th, run))
  {
    var s' := DoSweepLoad(s, th, run);
    forall r: RunId ensures Present(s', r) == Present(s, r) && InProgress(s', r) == InProgress(s, r) {
    }
    CallsKept(s, s');
  }

  /** However late it comes, the write puts back a record that stands. */
  lemma SweepWriteCalls(s: State, th: nat)
    requires CallsBounded(s)
    ensures CallsBounded(DoSweepWrite(s, th))
  {
    var s' := DoSweepWrite(s, th);
    forall r: RunId ensures InProgress(s', r) == InProgress(s, r) && (Present(s, r) ==> Present(s', r)) {
    }
    CallsKept(s, s');
  }

  /** A crash loses the tickets, so a run admitted but never recorded may be
      admitted again: its call was not made. */
  lemma RestartCalls(s: State)
    requires Locks(s) && CallsBounded(s)
    ensures CallsBounded(DoRestart(s))
  {
    var s' := DoRestart(s);
    forall run: RunId ensures Allowed(s', run) {
      assert Allowed(s, run);
      assert Picked(s'.tickets, Unasked(run)) == {};
      if InProgress(s, run) {
        var t :| t in s.requests && s.requests[t].run == run && s.requests[t].phase.Holding? && !s.requests[t].phase.written;
        HowManyHas(s.tickets, s.requests[t].phase.ticket, Unasked(run));
      }
    }
  }

  lemma ThreadCalls(s: State, step: Step)
    requires Locks(s) && CallsBounded(s) && OfThread(step)
    ensures CallsBounded(Apply(s, step))
  {
    hide CallsBounded;
    match step
    case Pass(d) => PassCalls(s, d);
    case Arrive(th, tool, run) => ArriveCalls(s, th, tool, run);
    case Enter(th) => EnterCalls(s, th);
    case Read(th) =>
      if th in s.requests && s.requests[th].phase.Reading? {
        OneStarting(s, th);
        if Standing(s, s.requests[th].run) { LeaveCalls(s, th); } else { AdmittingCalls(s, th); }
      }
    case Count(th) => CountCalls(s, th);
    case Decide(th, k) =>
      if CanDecide(s, th, k) {
        OneStarting(s, th);
        if Admits(s, th) { AdmitCalls(s, th, k); } else { DenyCalls(s, th, k); }
      }
    case Refuse(th) =>
      if th in s.requests && s.requests[th].phase.Denied? { OneStarting(s, th); }
      RefuseCalls(s, th);
  }

  lemma StartCalls(s: State, step: Step)
    requires Locks(s) && CallsBounded(s) && OfStart(step)
    ensures CallsBounded(Apply(s, step))
  {
    match step
    case WriteQueued(th) => WriteCalls(s, th);
    case WriteFailed(th) => WriteCalls(s, th);
    case Spawn(th) => if Holds(s, th) && s.requests[th].phase.written { SpawnCalls(s, th); }
    case Abort(th) => AbortCalls(s, th);
  }

  lemma RecordCalls(s: State, step: Step)
    requires Locks(s) && CallsBounded(s) && OfRecords(step)
    ensures CallsBounded(Apply(s, step))
  {
    match step
    case SweepLoad(th, run) => SweepLoadCalls(s, th, run);
    case SweepWrite(th) => SweepWriteCalls(s, th);
    case Prune(run) => PruneCalls(s, run);
    case Restart => RestartCalls(s);
  }

  lemma TicketStepCalls(s: State, step: Step)
    requires CallsBounded(s) && OfWorker(step)
    ensures CallsBounded(Apply(s, step))
  {
    hide CallsBounded;
    match step
    case Work(k) => if k in s.tickets { WorkerCalls(s, DoWork(s, k), k); }
    case Ask(k) => if k in s.tickets { WorkerCalls(s, DoAsk(s, k), k); }
    case Finish(k, cost, ok) => if k in s.tickets { WorkerCalls(s, DoFinish(s, k, cost, ok), k); }
    case Log(k) => if k in s.tickets { WorkerCalls(s, DoLog(s, k), k); }
    case WriteTerminal(k) => if k in s.tickets { WorkerCalls(s, DoWriteTerminal(s, k), k); }
    case Release(k) => ReleaseCalls(s, k);
  }

  lemma ApplyCalls(s: State, step: Step)
    requires Locks(s) && CallsBounded(s)
    ensures CallsBounded(Apply(s, step))
  {
    hide CallsBounded, Apply;
    if OfThread(step) {
      ThreadCalls(s, step);
    } else if OfStart(step) {
      StartCalls(s, step);
    } else if OfRecords(step) {
      RecordCalls(s, step);
    } else {
      TicketStepCalls(s, step);
    }
  }

  // ---- the promises ------------------------------------------------------

  lemma StartInv(budgets: map<Tool, Budget>, maxConcurrent: int, clock: int, ledger: seq<Line>,
                 records: map<RunId, Record>)
    ensures var s := Start(budgets, maxConcurrent, clock, ledger, records);
            Inv(s) && CallsBounded(s)
  {
    var s := Start(budgets, maxConcurrent, clock, ledger, records);
    forall sel: Sel ensures HowMany(s.tickets, sel) == 0 {
      assert Picked(s.tickets, sel) == {};
    }
  }

  ghost predicate Initial(s: State) {
    exists budgets, maxConcurrent, clock, ledger, records ::
      s == Start(budgets, maxConcurrent, clock, ledger, records)
  }

  lemma {:induction false} RunInv(start: State, steps: seq<Step>)
    requires Initial(start)
    ensures Inv(Run(start, steps)) && CallsBounded(Run(start, steps))
  {
    if steps == [] {
      var budgets, maxConcurrent, clock, ledger, records :|
        start == Start(budgets, maxConcurrent, clock, ledger, records);
      StartInv(budgets, maxConcurrent, clock, ledger, records);
    } else {
      var front, last := steps[..|steps| - 1], steps[|steps| - 1];
      RunInv(start, front);
      ApplyKeeps(Run(start, front), last);
      ApplyCalls(Run(start, front), last);
    }
  }

  lemma {:induction false} RunSetup(start: State, steps: seq<Step>)
    ensures SameSetup(start, Run(start, steps)) && start.clock <= Run(start, steps).clock
  {
    if steps != [] {
      RunSetup(start, steps[..|steps| - 1]);
      StepSetup(Run(start, steps[..|steps| - 1]), steps[|steps| - 1]);
    }
  }

  /** Budgets and capacity stay, the clock and the admitted tools only grow. */
  ghost predicate Onward(s: State, s': State) {
    SameSetup(s, s') && s.clock <= s'.clock && s.active <= s'.active
  }

  /** Neither a line nor a newly admitted tool. */
  ghost predicate Steady(s: State, s': State) {
    SameSetup(s, s') && s.clock <= s'.clock && s'.active == s.active && s'.ledger == s.ledger
  }

  lemma AdmitOnward(s: State, th: nat, k: nat)
    requires th in s.requests && s.free > 0
    ensures Onward(s, Admit(s, th, k)) && Admit(s, th, k).ledger == s.ledger
  {
    hide Taken;
  }

  lemma DenySteady(s: State, th: nat)
    requires th in s.requests
    ensures Steady(s, Deny(s, th))
  {
  }

  lemma DecideOnward(s: State, th: nat, k: nat)
    ensures Onward(s, DoDecide(s, th, k)) && DoDecide(s, th, k).ledger == s.ledger
  {
    hide Admit, Deny, Check;
    if CanDecide(s, th, k) {
      DenySteady(s, th);
      if Admits(s, th) {
        AdmitOnward(s, th, k);
      }
    }
  }

  lemma ArriveSteady(s: State, th: nat, tool: Tool, run: RunId)
    ensures Steady(s, DoArrive(s, th, tool, run)) && DoArrive(s, th, tool, run).tickets == s.tickets
  {
  }

  lemma EnterSteady(s: State, th: nat)
    ensures Steady(s, DoEnter(s, th)) && DoEnter(s, th).tickets == s.tickets
  {
  }

  lemma LeaveSteady(s: State, th: nat)
    ensures Steady(s, Leave(s, th)) && Leave(s, th).tickets == s.tickets
  {
  }

  lemma GoToSteady(s: State, th: nat, p: Phase)
    requires th in s.requests
    ensures Steady(s, GoTo(s, th, p)) && GoTo(s, th, p).tickets == s.tickets
  {
  }

  lemma ReadSteady(s: State, th: nat)
    ensures Steady(s, DoRead(s, th)) && DoRead(s, th).tickets == s.tickets
  {
    hide Leave, GoTo, Standing;
    LeaveSteady(s, th);
    if th in s.requests {
      GoToSteady(s, th, Admitting(s.clock));
    }
  }

  lemma CountSteady(s: State, th: nat)
    ensures Steady(s, DoCount(s, th)) && DoCount(s, th).tickets == s.tickets
  {
    hide SpendOf, Since;
  }

  lemma RefuseSteady(s: State, th: nat)
    ensures Steady(s, DoRefuse(s, th)) && DoRefuse(s, th).tickets == s.tickets
  {
  }

  lemma ThreadSteady(s: State, step: Step)
    requires OfThread(step) && !step.Decide?
    ensures Steady(s, Apply(s, step)) && Apply(s, step).tickets == s.tickets
  {
    match step
    case Pass(d) =>
    case Arrive(th, tool, run) => ArriveSteady(s, th, tool, run);
    case Enter(th) => EnterSteady(s, th);
    case Read(th) => ReadSteady(s, th);
    case Count(th) => CountSteady(s, th);
    case Refuse(th) => RefuseSteady(s, th);
  }

  lemma WriteSteady(s: State, th: nat)
    ensures Steady(s, DoWriteQueued(s, th)) && Steady(s, DoWriteFailed(s, th))
  {
  }

  lemma SpawnSteady(s: State, th: nat)
    ensures Steady(s, DoSpawn(s, th))
  {
  }

  lemma AbortSteady(s: State, th: nat)
    ensures Steady(s, DoAbort(s, th))
  {
    hide Given;
  }

  lemma StartSteady(s: State, step: Step)
    requires OfStart(step)
    ensures Steady(s, Apply(s, step))
  {
    match step
    case WriteQueued(th) => WriteSteady(s, th);
    case Spawn(th) => SpawnSteady(s, th);
    case Abort(th) => AbortSteady(s, th);
    case WriteFailed(th) => WriteSteady(s, th);
  }

  lemma RestartSteady(s: State)
    ensures Steady(s, DoRestart(s))
  {
  }

  lemma RecordsSteady(s: State, step: Step)
    requires OfRecords(step)
    ensures Steady(s, Apply(s, step))
  {
    hide AsOf, Bump, DoRestart;
    if step.Restart? {
      RestartSteady(s);
    }
  }

  lemma WorkSteady(s: State, k: nat)
    ensures Steady(s, DoWork(s, k))
  {
  }

  lemma AskSteady(s: State, k: nat)
    ensures Steady(s, DoAsk(s, k))
  {
    hide Bump;
  }

  lemma FinishSteady(s: State, k: nat, cost: Option<Price>, ok: bool)
    ensures Steady(s, DoFinish(s, k, cost, ok))
  {
  }

  lemma WriteTerminalSteady(s: State, k: nat)
    ensures Steady(s, DoWriteTerminal(s, k))
  {
  }

  lemma ReleaseSteady(s: State, k: nat)
    ensures Steady(s, DoRelease(s, k))
  {
    hide Given;
  }

  lemma WorkerSteady(s: State, step: Step)
    requires OfWorker(step) && !step.Log?
    ensures Steady(s, Apply(s, step))
  {
    match step
    case Work(k) => WorkSteady(s, k);
    case Ask(k) => AskSteady(s, k);
    case Finish(k, cost, ok) => FinishSteady(s, k, cost, ok);
    case WriteTerminal(k) => WriteTerminalSteady(s, k);
    case Release(k) => ReleaseSteady(s, k);
  }

  lemma LogOnward(s: State, k: nat)
    ensures Onward(s, DoLog(s, k))
    ensures DoLog(s, k).ledger ==
              if k in s.tickets && s.tickets[k].stage.Stamped? then s.ledger + [s.tickets[k].stage.line] else s.ledger
  {
  }

  /** The ledger changes by a finished run's own line, and by nothing else. */
  lemma StepSetup(s: State, step: Step)
    ensures Onward(s, Apply(s, step))
    ensures Apply(s, step).ledger ==
              if step.Log? && step.k in s.tickets && s.tickets[step.k].stage.Stamped? then
                s.ledger + [s.tickets[step.k].stage.line]
              else s.ledger
  {
    if step.Decide? {
      DecideOnward(s, step.th, step.k);
    } else if OfThread(step) {
      ThreadSteady(s, step);
    } else if OfStart(step) {
      StartSteady(s, step);
    } else if OfRecords(step) {
      RecordsSteady(s, step);
    } else if step.Log? {
      LogOnward(s, step.k);
    } else {
      WorkerSteady(s, step);
    }
  }

  lemma IdleStep(s: State, step: Step, tool: Tool, since: Option<int>)
    requires Window(s) && tool !in Apply(s, step).active
    requires forall k | k in s.tickets && s.tickets[k].stage.Stamped? ::
               s.tickets[k].stage.line.tool == s.tickets[k].tool
    ensures tool !in s.active && SpendOf(Apply(s, step).ledger, tool, since) == SpendOf(s.ledger, tool, since)
  {
    StepSetup(s, step);
    if step.Log? && step.k in s.tickets && s.tickets[step.k].stage.Stamped? {
      SpendAppended(s.ledger, s.tickets[step.k].stage.line, tool, since);
    }
  }

  /** A tool that never admitted a run owns no new ledger line. */
  lemma {:induction false} IdleTool(start: State, steps: seq<Step>, tool: Tool, since: Option<int>)
    requires Initial(start)
    requires tool !in Run(start, steps).active
    ensures SpendOf(Run(start, steps).ledger, tool, since) == SpendOf(start.ledger, tool, since)
  {
    if steps != [] {
      var front, last := steps[..|steps| - 1], steps[|steps| - 1];
      RunInv(start, front);
      IdleStep(Run(start, front), last, tool, since);
      IdleTool(start, front, tool, since);
    }
  }

  /** The admitted runs of a tool whose ledger line is not written yet. */
  function Unwritten(s: State, tool: Tool): set<nat> {
    set k | k in s.tickets && s.tickets[k].tool == tool && !s.tickets[k].stage.Logged? && !s.tickets[k].stage.Recorded?
  }

  /** What the invariants call the window is the tool's lines of the last
      `window`, and what they call unlogged its runs without a line. */
  lemma WindowIs(s: State, tool: Tool)
    requires tool in s.budgets
    ensures var lines := LinesSince(s.ledger, tool, s.clock - s.budgets[tool].window);
            InWindow(s, tool).runs == |lines| && InWindow(s, tool).cost == CostOver(s.ledger, lines)
    ensures HowMany(s.tickets, Unlogged(tool)) == |Unwritten(s, tool)|
  {
    SpendIs(s.ledger, tool, Since(Some(s.clock), s.budgets[tool]));
    assert Picked(s.tickets, Unlogged(tool)) == Unwritten(s, tool);
  }

  lemma CeilingOfWindow(start: State, steps: seq<Step>, tool: Tool)
    requires Initial(start) && tool in start.budgets
    ensures var s := Run(start, steps);
            var b := start.budgets[tool];
            && tool in s.budgets && s.budgets[tool] == b
            && (InWindow(s, tool).runs + HowMany(s.tickets, Unlogged(tool)) <= b.maxRuns <==>
                  tool in s.active || SpendOf(start.ledger, tool, Since(Some(s.clock), b)).runs <= b.maxRuns)
  {
    hide Run, Initial, SpendOf;
    var s := Run(start, steps);
    RunInv(start, steps);
    RunSetup(start, steps);
    if tool in s.active {
      assert Within(s, tool);
    } else {
      IdleTool(start, steps, tool, Since(Some(s.clock), start.budgets[tool]));
      assert Picked(s.tickets, Unlogged(tool)) == {};
    }
  }

  /** The count ceiling.  The tool's lines stamped within the last `window` and its
      admitted runs without a line stay within `max_runs` in every reachable state,
      restarts included, exactly when the tool has admitted a run or the lines
      found at the start and still in the window are within it. */
  lemma CountCeiling(start: State, steps: seq<Step>, tool: Tool)
    requires Initial(start) && tool in start.budgets
    ensures var s := Run(start, steps);
            var b := start.budgets[tool];
            |LinesSince(s.ledger, tool, s.clock - b.window)| + |Unwritten(s, tool)| <= b.maxRuns <==>
              tool in s.active || |LinesSince(start.ledger, tool, s.clock - b.window)| <= b.maxRuns
  {
    hide Run, Initial, LinesSince, SpendOf, CostOver, Unwritten, Unpriced;
    var s := Run(start, steps);
    CeilingOfWindow(start, steps, tool);
    WindowIs(s, tool);
    SpendIs(start.ledger, tool, Since(Some(s.clock), start.budgets[tool]));
  }

  /** A ledger within the ceiling at the start stays so: time only narrows the
      window. */
  lemma CeilingFromTheStart(start: State, steps: seq<Step>, tool: Tool)
    requires Initial(start) && tool in start.budgets
    requires |LinesSince(start.ledger, tool, start.clock - start.budgets[tool].window)| <= start.budgets[tool].maxRuns
    ensures var s := Run(start, steps);
            var b := start.budgets[tool];
            |LinesSince(s.ledger, tool, s.clock - b.window)| + |Unwritten(s, tool)| <= b.maxRuns
  {
    hide Run, Initial, LinesSince, SpendOf, CostOver, Unwritten;
    var s, b := Run(start, steps), start.budgets[tool];
    CeilingOfWindow(start, steps, tool);
    RunSetup(start, steps);
    SpendShrinks(start.ledger, tool, Since(Some(start.clock), b), Since(Some(s.clock), b));
    WindowIs(start, tool);
    WindowIs(s, tool);
  }

  /** The tool's last line in the ledger. */
  ghost predicate IsLastOf(ledger: seq<Line>, tool: Tool, k: nat) {
    && k < |ledger| && ledger[k].tool == tool
    && forall i | k < i < |ledger| :: ledger[i].tool != tool
  }

  /** Taking a tool's last line out of the ledger takes its price out of the cost. */
  lemma {:induction false} WithoutLastCost(ledger: seq<Line>, tool: Tool, since: Option<int>, k: nat)
    requires IsLastOf(ledger, tool, k)
    ensures SpendOf(WithoutLast(ledger, tool), tool, since).cost
              == CostOver(ledger, WindowLines(ledger, tool, since) - {k})
  {
    var n := |ledger| - 1;
    var front, lines := ledger[..n], WindowLines(ledger, tool, since);
    WindowLonger(ledger, tool, since);
    if k == n {
      SpendIs(front, tool, since);
      CostOverSame(front, WindowLines(front, tool, since), lines - {k});
    } else {
      WithoutLastCost(front, tool, since, k);
      SpendAppended(WithoutLast(front, tool), ledger[n], tool, since);
      assert lines == WindowLines(front, tool, since);
    }
  }

  lemma SolventNow(start: State, steps: seq<Step>, tool: Tool)
    requires Initial(start) && tool in start.budgets && start.budgets[tool].maxCost.Some?
    requires tool in Run(start, steps).active
    ensures var s := Run(start, steps);
            && tool in s.budgets && s.budgets[tool] == start.budgets[tool]
            && HowMany(s.tickets, OfTool(tool)) <= 1
            && SpendOf(WithoutLast(s.ledger, tool), tool, Since(Some(s.clock), s.budgets[tool])).cost
                 < start.budgets[tool].maxCost.value
            && (HowMany(s.tickets, Unlogged(tool)) > 0 ==> InWindow(s, tool).cost < start.budgets[tool].maxCost.value)
  {
    var s := Run(start, steps);
    RunInv(start, steps);
    RunSetup(start, steps);
    WithoutLastCheaper(s.ledger, tool, Since(Some(s.clock), s.budgets[tool]));
  }

  /** The dollar ceiling.  It admits one run of the tool at a time, and what the
      window's lines cost without the tool's last line is below it: a budget is
      never overrun by more than one run. */
  lemma DollarCeiling(start: State, steps: seq<Step>, tool: Tool)
    requires Initial(start) && tool in start.budgets && start.budgets[tool].maxCost.Some?
    requires tool in Run(start, steps).active
    ensures var s := Run(start, steps);
            var b := start.budgets[tool];
            var lines := LinesSince(s.ledger, tool, s.clock - b.window);
            && (forall j, k | j in s.tickets && k in s.tickets && s.tickets[j].tool == s.tickets[k].tool == tool :: j == k)
            && (forall k | IsLastOf(s.ledger, tool, k) :: CostOver(s.ledger, lines - {k}) < b.maxCost.value)
            && (Unwritten(s, tool) != {} ==> CostOver(s.ledger, lines) < b.maxCost.value)
  {
    hide Run, Initial, CostOver, LinesSince, SpendOf, IsLastOf;
    var s, b := Run(start, steps), start.budgets[tool];
    SolventNow(start, steps, tool);
    WindowIs(s, tool);
    forall j, k | j in s.tickets && k in s.tickets && s.tickets[j].tool == s.tickets[k].tool == tool ensures j == k {
      OneOfAtMostOne(Picked(s.tickets, OfTool(tool)), j, k);
    }
    forall k | IsLastOf(s.ledger, tool, k)
      ensures CostOver(s.ledger, LinesSince(s.ledger, tool, s.clock - b.window) - {k}) < b.maxCost.value
    {
      LastLineOut(s, tool, k);
    }
  }

  lemma LastLineOut(s: State, tool: Tool, k: nat)
    requires tool in s.budgets && IsLastOf(s.ledger, tool, k)
    ensures var b := s.budgets[tool];
            SpendOf(WithoutLast(s.ledger, tool), tool, Since(Some(s.clock), b)).cost
              == CostOver(s.ledger, LinesSince(s.ledger, tool, s.clock - b.window) - {k})
  {
    WithoutLastCost(s.ledger, tool, Since(Some(s.clock), s.budgets[tool]), k);
  }

  lemma OneOfAtMostOne(s: set<nat>, j: nat, k: nat)
    requires j in s && k in s && |s| <= 1
    ensures j == k
  {
    assert |s - {j}| == 0;
  }

  /** One model call per run id, over re-posts, failures and restarts, as long
      as its record is retained; each prune of it allows one more. */
  lemma OneCallPerRun(start: State, steps: seq<Step>, run: RunId)
    requires Initial(start)
    ensures var s := Run(start, steps);
            Tally(s.called, run) <= 1 + Tally(s.pruned, run)
  {
    RunInv(start, steps);
    assert Allowed(Run(start, steps), run);
  }

  /** The tickets of other tools. */
  function OtherTickets(tickets: map<nat, Ticket>, tool: Tool): map<nat, Ticket> {
    tickets - Picked(tickets, OfTool(tool))
  }

  lemma TicketsOfOne(tickets: map<nat, Ticket>, tool: Tool)
    ensures |tickets| == HowMany(tickets, OfTool(tool)) + |OtherTickets(tickets, tool)|
    ensures forall t: Tool :: HowMany(OtherTickets(tickets, tool), OfTool(t))
                                == if t == tool then 0 else HowMany(tickets, OfTool(t))
  {
    var others := OtherTickets(tickets, tool);
    assert tickets.Keys == Picked(tickets, OfTool(tool)) + others.Keys;
    assert |tickets.Keys| == |tickets| && |others.Keys| == |others|;
    forall t: Tool ensures HowMany(others, OfTool(t)) == if t == tool then 0 else HowMany(tickets, OfTool(t)) {
      assert Picked(others, OfTool(t)) == if t == tool then {} else Picked(tickets, OfTool(t));
    }
  }

  /** Reservations that count the tickets of each tool count all tickets. */
  lemma {:induction false} ReservationsAddUp(reserved: map<Tool, nat>, tickets: map<nat, Ticket>)
    requires forall tool: Tool :: Tally(reserved, tool) == HowMany(tickets, OfTool(tool))
    ensures Total(reserved) == |tickets|
    decreases |reserved|
  {
    if reserved == map[] {
      forall k | k in tickets ensures false {
        HowManyHas(tickets, k, OfTool(tickets[k].tool));
      }
      assert tickets == map[];
    } else {
      var tool :| tool in reserved;
      OneLess(reserved, tool);
      TotalTakes(reserved, tool);
      TicketsOfOne(tickets, tool);
      ReservationsAddUp(reserved - {tool}, OtherTickets(tickets, tool));
    }
  }

  /** Free slots and the sum of all reservations always make up the capacity, so
      no admission is released twice and none is forgotten. */
  lemma SlotsAddUp(start: State, steps: seq<Step>)
    requires Initial(start)
    ensures var s := Run(start, steps);
            s.free + Total(s.reserved) == start.capacity && start.capacity >= 1
  {
    var s := Run(start, steps);
    RunInv(start, steps);
    RunSetup(start, steps);
    ReservationsAddUp(s.reserved, s.tickets);
  }

  // ---- what the ledger tells ---------------------------------------------

  /** Step `p` finishes a run, and this is the line that says so: its tool, its id,
      the time of that step, and what it cost. */
  ghost predicate FinishedBy(start: State, steps: seq<Step>, p: nat, line: Line) {
    && p < |steps| && steps[p].Finish?
    && var s := Run(start, steps[..p]);
    && steps[p].k in s.tickets
    && line.tool == s.tickets[steps[p].k].tool && line.run == s.tickets[steps[p].k].run
    && line.at == Some(s.clock) && line.cost == steps[p].cost
  }

  ghost predicate Finished(start: State, steps: seq<Step>, line: Line) {
    exists p: nat :: FinishedBy(start, steps, p, line)
  }

  lemma StillFinished(start: State, steps: seq<Step>, last: Step, line: Line)
    requires Finished(start, steps, line)
    ensures Finished(start, steps + [last], line)
  {
    var p: nat :| FinishedBy(start, steps, p, line);
    assert (steps + [last])[..p] == steps[..p];
    assert FinishedBy(start, steps + [last], p, line);
  }

  /** A ticket waits with a line only when it did so before or has just finished. */
  lemma StampedFrom(s: State, step: Step, k: nat)
    requires k in Apply(s, step).tickets && Apply(s, step).tickets[k].stage.Stamped?
    requires !step.Finish? || step.k != k
    ensures k in s.tickets && s.tickets[k].stage == Apply(s, step).tickets[k].stage
  {
    hide Apply;
    if OfThread(step) {
      StampedThread(s, step, k);
    } else if OfStart(step) {
      StampedStart(s, step, k);
    } else if OfRecords(step) {
      StampedRecords(s, step, k);
    } else {
      StampedWorker(s, step, k);
    }
  }

  lemma StampedRecords(s: State, step: Step, k: nat)
    requires OfRecords(step) && k in Apply(s, step).tickets && Apply(s, step).tickets[k].stage.Stamped?
    ensures k in s.tickets && s.tickets[k].stage == Apply(s, step).tickets[k].stage
  {
    hide AsOf, Bump;
  }

  lemma StampedWorker(s: State, step: Step, k: nat)
    requires OfWorker(step) && k in Apply(s, step).tickets && Apply(s, step).tickets[k].stage.Stamped?
    requires !step.Finish? || step.k != k
    ensures k in s.tickets && s.tickets[k].stage == Apply(s, step).tickets[k].stage
  {
    hide Given, Bump;
  }

  lemma StampedDecide(s: State, th: nat, k': nat, k: nat)
    requires k in DoDecide(s, th, k').tickets && DoDecide(s, th, k').tickets[k].stage.Stamped?
    ensures k in s.tickets && s.tickets[k].stage == DoDecide(s, th, k').tickets[k].stage
  {
    hide Check, Taken;
  }

  lemma StampedThread(s: State, step: Step, k: nat)
    requires OfThread(step) && k in Apply(s, step).tickets && Apply(s, step).tickets[k].stage.Stamped?
    ensures k in s.tickets && s.tickets[k].stage == Apply(s, step).tickets[k].stage
  {
    if step.Decide? {
      StampedDecide(s, step.th, step.k, k);
    } else {
      ThreadSteady(s, step);
    }
  }

  lemma StampedStart(s: State, step: Step, k: nat)
    requires OfStart(step) && k in Apply(s, step).tickets && Apply(s, step).tickets[k].stage.Stamped?
    ensures k in s.tickets && s.tickets[k].stage == Apply(s, step).tickets[k].stage
  {
    hide Given;
  }

  lemma FinishStamps(s: State, k: nat, cost: Option<Price>, ok: bool)
    requires k in DoFinish(s, k, cost, ok).tickets && DoFinish(s, k, cost, ok).tickets[k].stage.Stamped?
    ensures k in s.tickets
    ensures var stage := DoFinish(s, k, cost, ok).tickets[k].stage;
            s.tickets[k].stage == stage
            || stage.line == Line(s.tickets[k].tool, s.tickets[k].run, Some(s.clock), cost)
  {
  }

  /** Every line a run leaves in the ledger is of a run that finished, and has the
      time it finished and what it cost. */
  lemma {:induction false} LinesTell(start: State, steps: seq<Step>)
    requires Initial(start)
    ensures var s := Run(start, steps);
            && |start.ledger| <= |s.ledger| && s.ledger[..|start.ledger|] == start.ledger
            && (forall k | k in s.tickets && s.tickets[k].stage.Stamped? :: Finished(start, steps, s.tickets[k].stage.line))
            && (forall i | |start.ledger| <= i < |s.ledger| :: Finished(start, steps, s.ledger[i]))
  {
    if steps != [] {
      var front, last := steps[..|steps| - 1], steps[|steps| - 1];
      assert steps == front + [last];
      LinesTell(start, front);
      var s, s' := Run(start, front), Run(start, steps);
      StepSetup(s, last);
      forall k | k in s'.tickets && s'.tickets[k].stage.Stamped? ensures Finished(start, steps, s'.tickets[k].stage.line) {
        TicketTells(start, front, last, k);
      }
      forall i | |start.ledger| <= i < |s'.ledger| ensures Finished(start, steps, s'.ledger[i]) {
        if i < |s.ledger| {
          assert s'.ledger[i] == s.ledger[i];
        }
        StillFinished(start, front, last, s'.ledger[i]);
      }
    }
  }

  lemma TicketTells(start: State, front: seq<Step>, last: Step, k: nat)
    requires var s := Run(start, front);
             forall j | j in s.tickets && s.tickets[j].stage.Stamped? :: Finished(start, front, s.tickets[j].stage.line)
    requires var s' := Apply(Run(start, front), last); k in s'.tickets && s'.tickets[k].stage.Stamped?
    ensures Finished(start, front + [last], Apply(Run(start, front), last).tickets[k].stage.line)
  {
    var s, s' := Run(start, front), Apply(Run(start, front), last);
    if last.Finish? && last.k == k {
      FinishStamps(s, k, last.cost, last.ok);
      if s.tickets[k].stage != s'.tickets[k].stage {
        assert (front + [last])[..|front|] == front;
        assert FinishedBy(start, front + [last], |front|, s'.tickets[k].stage.line);
        return;
      }
    } else {
      StampedFrom(s, last, k);
    }
    StillFinished(start, front, last, s'.tickets[k].stage.line);
  }
}
