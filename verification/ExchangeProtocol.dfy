/**
 The claim protocol over one remote and any number of clones.

 A step is what reaches the remote in one go: a push that lands, a push the
 remote refuses, a fetch, a researcher's death.  `log` keeps, commit by commit,
 what happened to which request; `Life` replays it, and the invariant says that
 the remote's directories agree with the replay.
 */
module ExchangeProtocol {
  import opened Wrappers
  import opened Exchange
  import opened Numbers

  datatype View = View(version: nat, tree: Tree)

  datatype Event = Enqueued | Claimed | Returned | Exhausted | Answered | Superseded | Folded | Rejected

  type Commit = map<Name, Event>

  datatype World = World(
    remote: Tree,
    version: nat,
    clones: map<nat, View>,        // what each clone last synchronised to
    held: map<Name, Request>,      // claims whose researcher is alive
    issued: map<Name, Name>,       // request file -> the result file it would get
    log: seq<Commit>)

  datatype Step =
    | Sync(clone: nat)
    | Enqueue(request: Request, seen: set<Name>)
    | Claim(clone: nat, kind: Option<string>, name: Name, who: string, now: int)
    | Reclaim(clone: nat, now: int, after: int)
    | Die(name: Name)
    | Complete(name: Name, body: string)
    | Fail(name: Name, category: string, maxAttempts: int)
    | Consume(result: Name)
    | Reject(result: Name, reason: string)

  const EMPTY := Tree(map[], map[], map[], map[])
  const START := World(EMPTY, 0, map[], map[], map[], [])

  // ---- steps -------------------------------------------------------------

  function Land(w: World, tree: Tree, commit: Commit): World {
    w.(remote := tree, version := w.version + 1, log := w.log + [commit])
  }

  /** Fresh file names, a known kind, no attempts yet: what the request
      builders produce. */
  predicate CanEnqueue(w: World, r: Request) {
    && r.kind in KINDS && r.attempts == 0
    && FileName(r) !in w.issued
    && ResultName(r.runId, r.key) !in w.issued.Values
  }

  function EnqueueCommit(t: Tree, r: Request, seen: set<Name>): Commit {
    (map n | n in Older(t.pending, r, seen) :: Superseded)[FileName(r) := Enqueued]
  }

  function ClaimCommit(t: Tree, n: Name): Commit
    requires n in t.pending
  {
    (map m | m in Rivals(t.pending, n) :: Superseded)[n := Claimed]
  }

  function FailCommit(n: Name, r: Request, maxAttempts: int): Commit {
    map[n := if r.attempts + 1 >= maxAttempts then Exhausted else Returned]
  }

  function Endings(t: Tree, gone: set<Name>): Commit
    requires gone <= t.claimed.Keys
  {
    map n | n in gone ::
      if t.claimed[n].attempts + 1 < MAX_REQUEST_ATTEMPTS then Returned else Exhausted
  }

  /** One step; a step that is not possible in `w` changes nothing. */
  function Apply(w: World, s: Step): World {
    match s
    case Sync(c) =>
      w.(clones := w.clones[c := View(w.version, w.remote)])

    case Enqueue(r, seen) =>
      if !CanEnqueue(w, r) then w else
      Land(w, EnqueueTree(w.remote, r, seen),
           EnqueueCommit(w.remote, r, seen))
        .(issued := w.issued[FileName(r) := ResultName(r.runId, r.key)])

    case Claim(c, kind, n, who, now) =>
      if c !in w.clones || !IsTarget(w.clones[c].tree.pending, kind, n) then w
      else if w.clones[c].version != w.version then
        w.(clones := w.clones[c := View(w.version, w.remote)])  // rejected: reset to upstream
      else
        var t := w.clones[c].tree;
        var t' := ClaimTree(t, n, who, now);
        Land(w, t', ClaimCommit(t, n))
          .(held := w.held[n := t'.claimed[n]],
            clones := w.clones[c := View(w.version + 1, t')])

    case Reclaim(c, now, after) =>
      if c !in w.clones || w.clones[c].version != w.version then w  // rejected: dropped
      else
        var t := w.clones[c].tree;
        var gone := StaleClaims(t, now, after);
        if gone == {} || !(gone !! w.held.Keys) then w
        else
          Land(w, ReclaimTree(t, gone), Endings(t, gone))
            .(clones := w.clones[c := View(w.version + 1, ReclaimTree(t, gone))])

    case Die(n) =>
      w.(held := w.held - {n})

    case Complete(n, body) =>
      if n !in w.held then w else
      Land(w, CompleteTree(w.remote, n, w.held[n], body), map[n := Answered])
        .(held := w.held - {n})

    case Fail(n, category, max) =>
      if n !in w.held || max > MAX_REQUEST_ATTEMPTS then w else
      Land(w, FailTree(w.remote, n, w.held[n], category, max),
           FailCommit(n, w.held[n], max))
        .(held := w.held - {n})

    case Consume(result) =>
      if result !in w.remote.results then w else
      Land(w, ConsumeTree(w.remote, result), map[Origin(w.remote.results[result]) := Folded])

    case Reject(result, reason) =>
      if result !in w.remote.results then w else
      Land(w, RejectTree(w.remote, result, reason),
           map[Origin(w.remote.results[result]) := Rejected])
  }

  /** The request an answer belongs to. */
  function Origin(a: Answer): Name {
    FileName(Request(a.kind, a.key, a.runId, 0, 0, "", None))
  }

  function Run(steps: seq<Step>): World {
    if steps == [] then START
    else Apply(Run(steps[..|steps| - 1]), steps[|steps| - 1])
  }

  // ---- the life of one request -------------------------------------------

  datatype Life =
    | Unknown
    | Waiting(tries: nat)
    | Working(tries: nat)
    | Spent(tries: nat)
    | Done(tries: nat)
    | Settled(tries: nat, folded: bool)
    | Replaced(tries: nat)
    | Broken

  /** The only moves a request may make; anything else is `Broken` for good. */
  function Move(l: Life, e: Event): Life {
    match (l, e)
    case (Unknown, Enqueued) => Waiting(0)
    case (Waiting(k), Claimed) => Working(k)
    case (Waiting(k), Superseded) => Replaced(k)
    case (Working(k), Returned) => Waiting(k + 1)
    case (Working(k), Exhausted) => Spent(k + 1)
    case (Working(k), Answered) => Done(k)
    case (Done(k), Folded) => Settled(k, true)
    case (Done(k), Rejected) => Settled(k, false)
    case (_, _) => Broken
  }

  function Next(l: Life, c: Commit, n: Name): Life {
    if n in c then Move(l, c[n]) else l
  }

  function Replay(log: seq<Commit>, n: Name): Life {
    if log == [] then Unknown
    else Next(Replay(log[..|log| - 1], n), log[|log| - 1], n)
  }

  // ---- the invariant -----------------------------------------------------

  /** The directories hold `n` exactly where its life says. */
  ghost predicate Agrees(t: Tree, issued: map<Name, Name>, l: Life, n: Name) {
    && (l.Unknown? <==> n !in issued)
    && (n in t.pending <==> l.Waiting?)
    && (n in t.claimed <==> l.Working?)
    && ((n in t.failed && t.failed[n].GaveUp?) <==> l.Spent?)
    && (l.Waiting? ==> Fits(t.pending[n], issued, l.tries, n) && l.tries < MAX_REQUEST_ATTEMPTS)
    && (l.Working? ==> Fits(t.claimed[n], issued, l.tries, n) && l.tries < MAX_REQUEST_ATTEMPTS)
    && (l.Spent? ==> Fits(t.failed[n].request, issued, l.tries, n) && l.tries <= MAX_REQUEST_ATTEMPTS)
    && (l.Done? ==> issued[n] in t.results && Origin(t.results[issued[n]]) == n)
    && (l.Settled? && !l.folded ==> Refusal(t, n, RefusedName(issued[n])))
    && (l.Done? || l.Settled? || l.Replaced? ==> l.tries < MAX_REQUEST_ATTEMPTS)
    && !l.Broken?
  }

  predicate Refusal(t: Tree, n: Name, file: Name) {
    file in t.failed && t.failed[file].Refused? && Origin(t.failed[file].answer) == n
  }

  predicate Fits(r: Request, issued: map<Name, Name>, tries: nat, n: Name) {
    && r.attempts == tries && FileName(r) == n && r.kind in KINDS
    && n in issued && issued[n] == ResultName(r.runId, r.key)
  }

  ghost predicate RequestsAgree(w: World) {
    forall n: Name :: Agrees(w.remote, w.issued, Replay(w.log, n), n)
  }

  /** Every result file answers a request that is done and not settled. */
  ghost predicate ResultsAgree(w: World) {
    && (forall f | f in w.remote.results ::
          var n := Origin(w.remote.results[f]);
          n in w.issued && w.issued[n] == f && Replay(w.log, n).Done?)
    && (forall f | f in w.remote.failed && w.remote.failed[f].Refused? ::
          var n := Origin(w.remote.failed[f].answer);
          n in w.issued && f == RefusedName(w.issued[n])
          && Replay(w.log, n).Settled? && !Replay(w.log, n).folded)
    && (forall m, n | m in w.issued && n in w.issued && w.issued[m] == w.issued[n] :: m == n)
  }

  ghost predicate ViewsAgree(w: World) {
    && (forall n | n in w.held :: n in w.remote.claimed && w.remote.claimed[n] == w.held[n])
    && (forall c | c in w.clones ::
          && w.clones[c].version <= w.version
          && (w.clones[c].version == w.version ==> w.clones[c].tree == w.remote))
  }

  ghost predicate Inv(w: World) {
    RequestsAgree(w) && ResultsAgree(w) && ViewsAgree(w)
  }

  // ---- every step keeps it -----------------------------------------------

  lemma ReplayLanded(log: seq<Commit>, c: Commit, n: Name)
    ensures Replay(log + [c], n) == Next(Replay(log, n), c, n)
  {
    assert (log + [c])[..|log|] == log;
  }

  lemma EnqueueMoves(t: Tree, issued: map<Name, Name>, l: Life, n: Name, r: Request, seen: set<Name>)
    requires Agrees(t, issued, l, n)
    requires r.kind in KINDS && r.attempts == 0 && FileName(r) !in issued
    ensures Agrees(EnqueueTree(t, r, seen), issued[FileName(r) := ResultName(r.runId, r.key)],
                   Next(l, EnqueueCommit(t, r, seen), n), n)
  {
  }

  lemma ClaimMoves(t: Tree, issued: map<Name, Name>, l: Life, n: Name, picked: Name, who: string, now: int)
    requires Agrees(t, issued, l, n) && picked in t.pending
    ensures Agrees(ClaimTree(t, picked, who, now), issued, Next(l, ClaimCommit(t, picked), n), n)
  {
  }

  /** What a reclaim makes of one file. */
  lemma ReclaimAt(t: Tree, gone: set<Name>, n: Name)
    requires gone <= t.claimed.Keys
    ensures var t' := ReclaimTree(t, gone);
            && t'.results == t.results
            && (n in t'.claimed <==> n in t.claimed && n !in gone)
            && (n !in gone ==>
                  && (n in t'.pending <==> n in t.pending) && (n in t'.pending ==> t'.pending[n] == t.pending[n])
                  && (n in t'.failed <==> n in t.failed) && (n in t'.failed ==> t'.failed[n] == t.failed[n]))
            && (n in gone ==>
                  var r := Tried(t.claimed[n]);
                  if r.attempts < MAX_REQUEST_ATTEMPTS then
                    && n in t'.pending && t'.pending[n] == Unclaimed(r)
                    && (n in t'.failed <==> n in t.failed) && (n in t'.failed ==> t'.failed[n] == t.failed[n])
                  else
                    && (n in t'.pending <==> n in t.pending) && n in t'.failed
                    && t'.failed[n] == GaveUp(r, "stale_claim"))
  {
  }

  lemma ReclaimGone(t: Tree, issued: map<Name, Name>, l: Life, n: Name, gone: set<Name>)
    requires Agrees(t, issued, l, n) && gone <= t.claimed.Keys && n in gone
    ensures Agrees(ReclaimTree(t, gone), issued, Next(l, Endings(t, gone), n), n)
  {
    ReclaimAt(t, gone, n);
  }

  lemma ReclaimOther(t: Tree, issued: map<Name, Name>, l: Life, n: Name, gone: set<Name>)
    requires Agrees(t, issued, l, n) && gone <= t.claimed.Keys && n !in gone
    requires forall m | m in gone :: FileName(t.claimed[m]) == m && t.claimed[m].kind in KINDS
    ensures Agrees(ReclaimTree(t, gone), issued, l, n)
  {
    ReclaimAt(t, gone, n);
    if l.Settled? && !l.folded {
      var file := RefusedName(issued[n]);
      ReclaimAt(t, gone, file);
      if file in gone {
        RefusedNameIsNoRequest(t.claimed[file], issued[n]);
      }
    }
  }

  lemma ReclaimMoves(t: Tree, issued: map<Name, Name>, l: Life, n: Name, gone: set<Name>)
    requires Agrees(t, issued, l, n) && gone <= t.claimed.Keys
    requires forall m | m in gone :: FileName(t.claimed[m]) == m && t.claimed[m].kind in KINDS
    ensures Agrees(ReclaimTree(t, gone), issued, Next(l, Endings(t, gone), n), n)
  {
    if n in gone {
      ReclaimGone(t, issued, l, n, gone);
    } else {
      ReclaimOther(t, issued, l, n, gone);
    }
  }

  lemma FailMoves(t: Tree, issued: map<Name, Name>, l: Life, n: Name,
                  ended: Name, category: string, max: int)
    requires Agrees(t, issued, l, n) && ended in t.claimed && max <= MAX_REQUEST_ATTEMPTS
    requires FileName(t.claimed[ended]) == ended && t.claimed[ended].kind in KINDS
    ensures var r := t.claimed[ended];
            Agrees(FailTree(t, ended, r, category, max), issued, Next(l, FailCommit(ended, r, max), n), n)
  {
    if l.Settled? && !l.folded {
      RefusedNameIsNoRequest(t.claimed[ended], issued[n]);
    }
  }

  lemma CompleteMoves(t: Tree, issued: map<Name, Name>, l: Life, n: Name, ended: Name, body: string)
    requires Agrees(t, issued, l, n) && ended in t.claimed && ended in issued
    requires var r := t.claimed[ended];
             FileName(r) == ended && issued[ended] == ResultName(r.runId, r.key)
    requires n != ended && n in issued ==> issued[n] != issued[ended]
    ensures Agrees(CompleteTree(t, ended, t.claimed[ended], body), issued,
                   Next(l, map[ended := Answered], n), n)
  {
  }

  lemma SettleMoves(t: Tree, issued: map<Name, Name>, l: Life, n: Name, result: Name, reason: string)
    requires Agrees(t, issued, l, n) && result in t.results
    requires var m := Origin(t.results[result]);
             && m in issued && issued[m] == result
             && (m == n ==> l.Done?)
             && (m != n && n in issued ==> issued[n] != result)
    ensures var m := Origin(t.results[result]);
            && Agrees(ConsumeTree(t, result), issued, Next(l, map[m := Folded], n), n)
            && Agrees(RejectTree(t, result, reason), issued, Next(l, map[m := Rejected], n), n)
  {
    if l.Spent? {
      RefusedNameIsNoRequest(t.failed[n].request, result);
    }
    if l.Settled? {
      RefusedNameInjective(issued[n], result);
    }
  }


  // Each step, with the result files and the clones' views.

  lemma StepResults(w: World, w': World, c: Commit)
    requires Inv(w) && w'.log == w.log + [c]
    requires forall n: Name :: Agrees(w'.remote, w'.issued, Next(Replay(w.log, n), c, n), n)
    ensures RequestsAgree(w')
    ensures forall n: Name :: Replay(w'.log, n) == Next(Replay(w.log, n), c, n)
  {
    forall n: Name ensures Replay(w'.log, n) == Next(Replay(w.log, n), c, n) {
      ReplayLanded(w.log, c, n);
    }
  }

  lemma EnqueueKeeps(w: World, r: Request, seen: set<Name>)
    requires Inv(w) && CanEnqueue(w, r)
    ensures Inv(Apply(w, Enqueue(r, seen)))
  {
    forall n: Name {
      EnqueueMoves(w.remote, w.issued, Replay(w.log, n), n, r, seen);
    }
    StepResults(w, Apply(w, Enqueue(r, seen)), EnqueueCommit(w.remote, r, seen));
  }

  lemma ClaimRequests(w: World, w': World, n: Name, who: string, now: int)
    requires Inv(w) && n in w.remote.pending
    requires w'.remote == ClaimTree(w.remote, n, who, now) && w'.issued == w.issued
    requires w'.log == w.log + [ClaimCommit(w.remote, n)]
    ensures RequestsAgree(w')
    ensures forall m: Name :: Replay(w'.log, m) == Next(Replay(w.log, m), ClaimCommit(w.remote, n), m)
  {
    forall m: Name {
      ClaimMoves(w.remote, w.issued, Replay(w.log, m), m, n, who, now);
    }
    StepResults(w, w', ClaimCommit(w.remote, n));
  }

  /** A commit that touches waiting requests alone leaves every answer where it
      was. */
  lemma AnswersStay(w: World, w': World, c: Commit)
    requires ResultsAgree(w) && w'.issued == w.issued
    requires w'.remote.results == w.remote.results && w'.remote.failed == w.remote.failed
    requires forall m: Name :: Replay(w'.log, m) == Next(Replay(w.log, m), c, m)
    requires forall m | m in c :: !Replay(w.log, m).Done? && !Replay(w.log, m).Settled?
    ensures ResultsAgree(w')
  {
  }

  lemma ClaimViews(w: World, c: nat, kind: Option<string>, n: Name, who: string, now: int)
    requires ViewsAgree(w)
    requires forall m | m in w.held :: m !in w.remote.pending
    ensures ViewsAgree(Apply(w, Claim(c, kind, n, who, now)))
  {
  }

  lemma LivesOf(w: World)
    requires RequestsAgree(w)
    ensures forall m: Name :: m in w.remote.pending <==> Replay(w.log, m).Waiting?
    ensures forall m: Name :: m in w.remote.claimed <==> Replay(w.log, m).Working?
  {
    forall m: Name
      ensures m in w.remote.pending <==> Replay(w.log, m).Waiting?
      ensures m in w.remote.claimed <==> Replay(w.log, m).Working?
    {
      assert Agrees(w.remote, w.issued, Replay(w.log, m), m);
    }
  }

  lemma ClaimAnswers(w: World, w': World, n: Name, who: string, now: int)
    requires Inv(w) && n in w.remote.pending
    requires w'.remote == ClaimTree(w.remote, n, who, now) && w'.issued == w.issued
    requires forall m: Name :: Replay(w'.log, m) == Next(Replay(w.log, m), ClaimCommit(w.remote, n), m)
    ensures ResultsAgree(w')
  {
    LivesOf(w);
    AnswersStay(w, w', ClaimCommit(w.remote, n));
  }

  lemma ClaimKeeps(w: World, c: nat, kind: Option<string>, n: Name, who: string, now: int)
    requires Inv(w)
    ensures Inv(Apply(w, Claim(c, kind, n, who, now)))
  {
    var w' := Apply(w, Claim(c, kind, n, who, now));
    assert ViewsAgree(w') by {
      LivesOf(w);
      ClaimViews(w, c, kind, n, who, now);
    }
    if w'.log != w.log {
      ClaimRequests(w, w', n, who, now);
      ClaimAnswers(w, w', n, who, now);
    }
  }

  lemma ReclaimKeeps(w: World, c: nat, now: int, after: int)
    requires Inv(w)
    ensures Inv(Apply(w, Reclaim(c, now, after)))
  {
    var w' := Apply(w, Reclaim(c, now, after));
    if w'.log != w.log {
      var gone := StaleClaims(w.remote, now, after);
      ReclaimAgrees(w, gone);
      StepResults(w, w', Endings(w.remote, gone));
    }
  }

  lemma ReclaimAgrees(w: World, gone: set<Name>)
    requires RequestsAgree(w) && gone <= w.remote.claimed.Keys
    ensures forall n: Name ::
              Agrees(ReclaimTree(w.remote, gone), w.issued, Next(Replay(w.log, n), Endings(w.remote, gone), n), n)
  {
    forall m | m in gone ensures Fits(w.remote.claimed[m], w.issued, Replay(w.log, m).tries, m) {
      assert Agrees(w.remote, w.issued, Replay(w.log, m), m);
    }
    forall n: Name
      ensures Agrees(ReclaimTree(w.remote, gone), w.issued, Next(Replay(w.log, n), Endings(w.remote, gone), n), n)
    {
      ReclaimMoves(w.remote, w.issued, Replay(w.log, n), n, gone);
    }
  }

  lemma FailAgrees(w: World, n: Name, category: string, max: int)
    requires Inv(w) && n in w.held && max <= MAX_REQUEST_ATTEMPTS
    ensures var t := FailTree(w.remote, n, w.held[n], category, max);
            forall m: Name :: Agrees(t, w.issued, Next(Replay(w.log, m), FailCommit(n, w.held[n], max), m), m)
  {
    assert Agrees(w.remote, w.issued, Replay(w.log, n), n);
    forall m: Name {
      FailMoves(w.remote, w.issued, Replay(w.log, m), m, n, category, max);
    }
  }

  lemma FailKeeps(w: World, n: Name, category: string, max: int)
    requires Inv(w) && n in w.held && max <= MAX_REQUEST_ATTEMPTS
    ensures Inv(Apply(w, Fail(n, category, max)))
  {
    FailAgrees(w, n, category, max);
    StepResults(w, Apply(w, Fail(n, category, max)), FailCommit(n, w.held[n], max));
  }

  lemma CompleteKeeps(w: World, n: Name, body: string)
    requires Inv(w) && n in w.held
    ensures Inv(Apply(w, Complete(n, body)))
  {
    assert Agrees(w.remote, w.issued, Replay(w.log, n), n);
    forall m: Name {
      CompleteMoves(w.remote, w.issued, Replay(w.log, m), m, n, body);
    }
    StepResults(w, Apply(w, Complete(n, body)), map[n := Answered]);
  }

  lemma SettleRequests(w: World, result: Name, reason: string, m: Name)
    requires Inv(w) && result in w.remote.results
    ensures var n := Origin(w.remote.results[result]);
            && Agrees(ConsumeTree(w.remote, result), w.issued, Next(Replay(w.log, m), map[n := Folded], m), m)
            && Agrees(RejectTree(w.remote, result, reason), w.issued, Next(Replay(w.log, m), map[n := Rejected], m), m)
  {
    assert Agrees(w.remote, w.issued, Replay(w.log, m), m);
    SettleMoves(w.remote, w.issued, Replay(w.log, m), m, result, reason);
  }

  lemma ConsumeAgrees(w: World, result: Name)
    requires Inv(w) && result in w.remote.results
    ensures var c := map[Origin(w.remote.results[result]) := Folded];
            forall m: Name :: Agrees(ConsumeTree(w.remote, result), w.issued, Next(Replay(w.log, m), c, m), m)
  {
    forall m: Name {
      SettleRequests(w, result, "", m);
    }
  }

  lemma ConsumeKeeps(w: World, result: Name)
    requires Inv(w) && result in w.remote.results
    ensures Inv(Apply(w, Consume(result)))
  {
    ConsumeAgrees(w, result);
    StepResults(w, Apply(w, Consume(result)), map[Origin(w.remote.results[result]) := Folded]);
  }

  lemma RejectAgrees(w: World, result: Name, reason: string)
    requires Inv(w) && result in w.remote.results
    ensures var c := map[Origin(w.remote.results[result]) := Rejected];
            forall m: Name :: Agrees(RejectTree(w.remote, result, reason), w.issued, Next(Replay(w.log, m), c, m), m)
  {
    forall m: Name {
      SettleRequests(w, result, reason, m);
    }
  }

  lemma RejectAnswers(w: World, w': World, result: Name, reason: string)
    requires ResultsAgree(w) && result in w.remote.results && w'.issued == w.issued
    requires w'.remote == RejectTree(w.remote, result, reason)
    requires var c := map[Origin(w.remote.results[result]) := Rejected];
             forall m: Name :: Replay(w'.log, m) == Next(Replay(w.log, m), c, m)
    ensures ResultsAgree(w')
  {
  }

  lemma RejectKeeps(w: World, result: Name, reason: string)
    requires Inv(w) && result in w.remote.results
    ensures Inv(Apply(w, Reject(result, reason)))
  {
    var w' := Apply(w, Reject(result, reason));
    RejectAgrees(w, result, reason);
    StepResults(w, w', map[Origin(w.remote.results[result]) := Rejected]);
    RejectAnswers(w, w', result, reason);
  }

  lemma ApplyKeeps(w: World, s: Step)
    requires Inv(w)
    ensures Inv(Apply(w, s))
  {
    match s
    case Sync(c) =>
    case Enqueue(r, seen) => if CanEnqueue(w, r) { EnqueueKeeps(w, r, seen); }
    case Claim(c, kind, n, who, now) => ClaimKeeps(w, c, kind, n, who, now);
    case Reclaim(c, now, after) => ReclaimKeeps(w, c, now, after);
    case Die(n) =>
    case Complete(n, body) => if n in w.held { CompleteKeeps(w, n, body); }
    case Fail(n, category, max) =>
      if n in w.held && max <= MAX_REQUEST_ATTEMPTS { FailKeeps(w, n, category, max); }
    case Consume(result) => if result in w.remote.results { ConsumeKeeps(w, result); }
    case Reject(result, reason) => if result in w.remote.results { RejectKeeps(w, result, reason); }
  }

  lemma {:induction false} RunKeeps(steps: seq<Step>)
    ensures Inv(Run(steps))
  {
    if steps != [] {
      RunKeeps(steps[..|steps| - 1]);
      ApplyKeeps(Run(steps[..|steps| - 1]), steps[|steps| - 1]);
    }
  }

  // ---- what a run's history says -----------------------------------------

  function Count(log: seq<Commit>, n: Name, events: set<Event>): nat {
    if log == [] then 0
    else
      var last := log[|log| - 1];
      Count(log[..|log| - 1], n, events) + if n in last && last[n] in events then 1 else 0
  }

  ghost predicate Happened(log: seq<Commit>, n: Name, e: Event) {
    exists i :: 0 <= i < |log| && n in log[i] && log[i][n] == e
  }

  /** An unbroken life counts its own attempts and claims, and remembers how it
      ended. */
  lemma {:induction false} LifeCounts(log: seq<Commit>, n: Name)
    requires !Replay(log, n).Broken?
    ensures var l := Replay(log, n);
            && (l.Unknown? ==> Count(log, n, {Claimed}) == 0)
            && (!l.Unknown? ==>
                  && l.tries == Count(log, n, {Returned, Exhausted})
                  && Count(log, n, {Claimed}) == l.tries + if l.Working? || l.Done? || l.Settled? then 1 else 0)
            && (Happened(log, n, Answered) <==> l.Done? || l.Settled?)
            && (Happened(log, n, Superseded) <==> l.Replaced?)
            && (Happened(log, n, Folded) <==> l.Settled? && l.folded)
            && (Happened(log, n, Rejected) <==> l.Settled? && !l.folded)
            && (l.Unknown? ==> Count(log, n, {Returned, Exhausted}) == 0)
  {
    if log != [] {
      var front := log[..|log| - 1];
      LifeCounts(front, n);
      forall e: Event
        ensures Happened(log, n, e) <==>
                  Happened(front, n, e) || (n in log[|log| - 1] && log[|log| - 1][n] == e)
      {
        if i :| 0 <= i < |log| && n in log[i] && log[i][n] == e {
          assert i < |front| ==> front[i] == log[i];
        }
        if i :| 0 <= i < |front| && n in front[i] && front[i][n] == e {
          assert log[i] == front[i];
        }
      }
    }
  }

  /** Between two claims of one request, its first claim was put back. */
  lemma {:induction false} ClaimsAlternate(log: seq<Commit>, n: Name, i: nat, j: nat)
    requires !Replay(log, n).Broken? && i < j < |log|
    requires n in log[i] && log[i][n] == Claimed && n in log[j] && log[j][n] == Claimed
    ensures exists k :: i < k < j && n in log[k] && log[k][n] == Returned
  {
    WholeLife(log, n, i + 1);
    WholeLife(log, n, j);
    WholeLife(log, n, j + 1);
    assert log[..i + 1][..i] == log[..i] && log[..j + 1][..j] == log[..j];
    WholeLife(log, n, i);
    BackToWaiting(log, n, i + 1, j);
  }

  /** A life broken at some commit is broken at every later one. */
  lemma {:induction false} WholeLife(log: seq<Commit>, n: Name, i: nat)
    requires !Replay(log, n).Broken? && i <= |log|
    ensures !Replay(log[..i], n).Broken?
    decreases |log| - i
  {
    if i == |log| {
      assert log[..i] == log;
    } else {
      WholeLife(log, n, i + 1);
      assert log[..i + 1][..i] == log[..i];
    }
  }

  lemma {:induction false} BackToWaiting(log: seq<Commit>, n: Name, i: nat, j: nat)
    requires i <= j <= |log| && !Replay(log, n).Broken?
    requires Replay(log[..i], n).Working?
    requires Replay(log[..j], n).Waiting? || Replay(log[..j], n).Unknown?
    ensures exists k :: i <= k < j && n in log[k] && log[k][n] == Returned
    decreases j
  {
    WholeLife(log, n, j - 1);
    assert log[..j][..j - 1] == log[..j - 1];
    if !(n in log[j - 1] && log[j - 1][n] == Returned) {
      WholeLife(log, n, j);
      BackToWaiting(log, n, i, j - 1);
    }
  }

  // ---- the promises ------------------------------------------------------

  /** How many places a request is in: a directory each, or an ending that
      took it out of all three. */
  function Places(t: Tree, answered: bool, superseded: bool, n: Name): nat {
    One(n in t.pending) + One(n in t.claimed) + One(n in t.failed && t.failed[n].GaveUp?)
    + One(answered) + One(superseded)
  }

  /** Whatever the interleaving, an enqueued request is in exactly one place. */
  lemma OnePlace(steps: seq<Step>, n: Name)
    ensures var w := Run(steps);
            && (n in w.issued ==>
                  Places(w.remote, Happened(w.log, n, Answered), Happened(w.log, n, Superseded), n) == 1)
            && (n !in w.issued ==>
                  n !in w.remote.pending && n !in w.remote.claimed
                  && !(n in w.remote.failed && w.remote.failed[n].GaveUp?))
  {
    var w := Run(steps);
    RunKeeps(steps);
    assert Agrees(w.remote, w.issued, Replay(w.log, n), n);
    LifeCounts(w.log, n);
  }

  /** `attempts` is the number of claims that ended in failure or reclaim; a
      request that can still be claimed is below the limit, and none is claimed
      more often than the limit. */
  lemma AttemptsCount(steps: seq<Step>, n: Name)
    ensures var w := Run(steps);
            var ended := Count(w.log, n, {Returned, Exhausted});
            && (n in w.remote.pending ==> w.remote.pending[n].attempts == ended < MAX_REQUEST_ATTEMPTS)
            && (n in w.remote.claimed ==> w.remote.claimed[n].attempts == ended < MAX_REQUEST_ATTEMPTS)
            && (n in w.remote.failed && w.remote.failed[n].GaveUp? ==>
                  w.remote.failed[n].request.attempts == ended)
            && ended <= MAX_REQUEST_ATTEMPTS
            && (ended == MAX_REQUEST_ATTEMPTS ==> n in w.remote.failed && w.remote.failed[n].GaveUp?)
            && Count(w.log, n, {Claimed}) <= MAX_REQUEST_ATTEMPTS
  {
    var w := Run(steps);
    RunKeeps(steps);
    assert Agrees(w.remote, w.issued, Replay(w.log, n), n);
    LifeCounts(w.log, n);
  }

  /** Two claims never hand out the same file unless it was put back between. */
  lemma NoDoubleClaim(steps: seq<Step>, n: Name, i: nat, j: nat)
    requires var log := Run(steps).log;
             i < j < |log| && n in log[i] && log[i][n] == Claimed && n in log[j] && log[j][n] == Claimed
    ensures var log := Run(steps).log;
            exists k :: i < k < j && n in log[k] && log[k][n] == Returned
  {
    var w := Run(steps);
    RunKeeps(steps);
    assert Agrees(w.remote, w.issued, Replay(w.log, n), n);
    ClaimsAlternate(w.log, n, i, j);
  }

  /** An answer is in `results/`, folded, or kept in `failed/` with a reason:
      one of the three, never none. */
  lemma AnswersAreKept(steps: seq<Step>, n: Name)
    requires Happened(Run(steps).log, n, Answered)
    ensures var w := Run(steps);
            && n in w.issued
            && One(w.issued[n] in w.remote.results)
               + One(Happened(w.log, n, Folded))
               + One(Happened(w.log, n, Rejected)) == 1
            && (w.issued[n] in w.remote.results ==> Origin(w.remote.results[w.issued[n]]) == n)
            && (Happened(w.log, n, Rejected) <==> Refusal(w.remote, n, RefusedName(w.issued[n])))
  {
    var w := Run(steps);
    RunKeeps(steps);
    assert Agrees(w.remote, w.issued, Replay(w.log, n), n);
    LifeCounts(w.log, n);
  }

  /** `n`'s work is still pending or claimed, under another name. */
  ghost predicate HasHeir(t: Tree, n: Name, r: Request) {
    exists m :: m != n && (
      || (m in t.pending && SameWork(t.pending[m], r))
      || (m in t.claimed && SameWork(t.claimed[m], r)))
  }

  lemma EnqueueHeir(t: Tree, r: Request, seen: set<Name>, n: Name)
    requires n in EnqueueCommit(t, r, seen) && EnqueueCommit(t, r, seen)[n] == Superseded
    ensures n in t.pending && HasHeir(EnqueueTree(t, r, seen), n, t.pending[n])
  {
    assert FileName(r) in EnqueueTree(t, r, seen).pending;
  }

  lemma ClaimHeir(t: Tree, picked: Name, who: string, now: int, n: Name)
    requires picked in t.pending && n in ClaimCommit(t, picked) && ClaimCommit(t, picked)[n] == Superseded
    ensures n in t.pending && HasHeir(ClaimTree(t, picked, who, now), n, t.pending[n])
  {
    assert picked in ClaimTree(t, picked, who, now).claimed;
  }

  /** A step that supersedes a request leaves another one for the same work
      pending or claimed. */
  lemma SupersededHasHeir(w: World, s: Step, n: Name)
    requires Inv(w)
    requires var log := Apply(w, s).log;
             log != w.log && n in log[|log| - 1] && log[|log| - 1][n] == Superseded
    ensures n in w.remote.pending && HasHeir(Apply(w, s).remote, n, w.remote.pending[n])
  {
    match s
    case Enqueue(r, seen) => EnqueueHeir(w.remote, r, seen, n);
    case Claim(_, _, m, who, now) => ClaimHeir(w.remote, m, who, now, n);
    case _ =>
  }

  /** A push from a head the remote has left lands nothing. */
  lemma StalePush(w: World, s: Step)
    requires (s.Claim? || s.Reclaim?) && s.clone in w.clones && w.clones[s.clone].version != w.version
    ensures var after := Apply(w, s);
            && after.remote == w.remote && after.log == w.log && after.held == w.held && after.version == w.version
            && (s.Claim? && IsTarget(w.clones[s.clone].tree.pending, s.kind, s.name) ==>
                  after.clones[s.clone] == View(w.version, w.remote))
  {
  }

  lemma LandedPush(w: World, s: Step)
    requires (s.Claim? || s.Reclaim?) && Apply(w, s).log != w.log
    ensures Apply(w, s).version == w.version + 1
    ensures forall c | c in w.clones && c != s.clone :: c in Apply(w, s).clones && Apply(w, s).clones[c] == w.clones[c]
  {
  }

  /** Two clones that pushed from the same head: the first push to land is the
      only one, whether claim or reclaim, and the loser of a claim resyncs. */
  lemma OneWinner(w: World, s: Step, s': Step)
    requires Inv(w) && (s.Claim? || s.Reclaim?) && (s'.Claim? || s'.Reclaim?)
    requires s.clone != s'.clone && Apply(w, s).log != w.log
    requires s'.clone in w.clones
    ensures var first := Apply(w, s);
            var both := Apply(first, s');
            && both.remote == first.remote && both.log == first.log && both.held == first.held
            && ((s'.Claim? && IsTarget(w.clones[s'.clone].tree.pending, s'.kind, s'.name)) ==>
                  both.clones[s'.clone] == View(first.version, first.remote))
  {
    LandedPush(w, s);
    assert w.clones[s'.clone].version <= w.version;
    StalePush(Apply(w, s), s');
  }

  /** Why a reclaim must only hit claims whose researcher is dead: an answer
      that lands on the remote keeps its request in one place if and only if the
      claim is still there. */
  lemma LateAnswer(w: World, n: Name, record: Request, body: string)
    requires Inv(w) && n in w.issued && !Happened(w.log, n, Answered)
    ensures (Places(CompleteTree(w.remote, n, record, body), true, Happened(w.log, n, Superseded), n) == 1)
            <==> n in w.remote.claimed
  {
    assert Agrees(w.remote, w.issued, Replay(w.log, n), n);
    LifeCounts(w.log, n);
  }
}
