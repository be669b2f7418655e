/**
 What a run of the exchange says of one request over time: who holds it since
 when, when a reclaim takes it back, and what becomes of its answer.
 */
module ExchangeTimes {
  import opened Wrappers
  import opened Exchange
  import opened ExchangeProtocol

  /** The world before step `i`. */
  function At(steps: seq<Step>, i: nat): World
    requires i <= |steps|
  {
    Run(steps[..i])
  }

  lemma AtNext(steps: seq<Step>, i: nat)
    requires i < |steps|
    ensures At(steps, i + 1) == Apply(At(steps, i), steps[i]) && Inv(At(steps, i)) && Inv(At(steps, i + 1))
  {
    assert steps[..i + 1][..i] == steps[..i];
    RunKeeps(steps[..i]);
    RunKeeps(steps[..i + 1]);
  }

  /** Step `i` commits something. */
  predicate Lands(steps: seq<Step>, i: nat)
    requires i < |steps|
  {
    At(steps, i + 1).log != At(steps, i).log
  }

  // ---- claims ------------------------------------------------------------

  /** Step `i` claims `n`, and its push lands. */
  predicate ClaimedAt(steps: seq<Step>, i: nat, n: Name)
    requires i < |steps|
  {
    steps[i].Claim? && steps[i].name == n && Lands(steps, i)
  }

  predicate InHand(steps: seq<Step>, i: nat, n: Name)
    requires i <= |steps|
  {
    n in At(steps, i).remote.claimed
  }

  lemma ClaimStamps(w: World, c: nat, kind: Option<string>, n: Name, who: string, now: int)
    requires Inv(w) && Apply(w, Claim(c, kind, n, who, now)).log != w.log
    ensures var claimed := Apply(w, Claim(c, kind, n, who, now)).remote.claimed;
            n in claimed && claimed[n].claimedBy == who && claimed[n].claimedAt == Some(now)
  {
  }

  /** No step changes the record of a claim that stays. */
  lemma ClaimStays(w: World, s: Step, n: Name)
    requires Inv(w) && n in w.remote.claimed && n in Apply(w, s).remote.claimed
    ensures Apply(w, s).remote.claimed[n] == w.remote.claimed[n]
  {
    match s
    case Claim(_, _, _, _, _) => LivesOf(w);
    case _ =>
  }

  /** As long as a claim is in hand it says who made it and when. */
  lemma {:induction false} HeldSince(steps: seq<Step>, i: nat, j: nat, n: Name)
    requires i < j <= |steps| && ClaimedAt(steps, i, n)
    requires forall k | i < k <= j :: InHand(steps, k, n)
    ensures InHand(steps, j, n)
    ensures var r := At(steps, j).remote.claimed[n];
            r.claimedBy == steps[i].who && r.claimedAt == Some(steps[i].now)
    decreases j
  {
    hide Run, Apply, Inv;
    assert InHand(steps, j, n);
    AtNext(steps, j - 1);
    if j == i + 1 {
      ClaimStamps(At(steps, i), steps[i].clone, steps[i].kind, n, steps[i].who, steps[i].now);
    } else {
      HeldSince(steps, i, j - 1, n);
      assert InHand(steps, j - 1, n) && InHand(steps, j, n);
      ClaimStays(At(steps, j - 1), steps[j - 1], n);
    }
  }

  lemma ReclaimTakes(w: World, c: nat, now: int, after: int, n: Name)
    requires Inv(w) && n in w.remote.claimed && Apply(w, Reclaim(c, now, after)).log != w.log
    ensures n !in Apply(w, Reclaim(c, now, after)).remote.claimed
            <==> w.remote.claimed[n].claimedAt.Some? && now > w.remote.claimed[n].claimedAt.value + after
  {
  }

  /** A claim made at one time and still in hand when a reclaim lands is taken back
      by it if and only if more than `after` has passed since. */
  lemma ReclaimedExactly(steps: seq<Step>, i: nat, j: nat, n: Name)
    requires i < j < |steps| && ClaimedAt(steps, i, n)
    requires forall k | i < k <= j :: InHand(steps, k, n)
    requires steps[j].Reclaim? && Lands(steps, j)
    ensures !InHand(steps, j + 1, n) <==> steps[j].now > steps[i].now + steps[j].after
  {
    AtNext(steps, j);
    HeldSince(steps, i, j, n);
    assert InHand(steps, j, n);
    ReclaimTakes(At(steps, j), steps[j].clone, steps[j].now, steps[j].after, n);
  }

  // ---- answers -----------------------------------------------------------

  /** Wherever `n`'s answer still is, in `results/` or refused in `failed/`, it is
      this one. */
  predicate Says(w: World, n: Name, answer: Answer) {
    && n in w.issued
    && (w.issued[n] in w.remote.results ==> w.remote.results[w.issued[n]] == answer)
    && (Refusal(w.remote, n, RefusedName(w.issued[n])) ==> w.remote.failed[RefusedName(w.issued[n])].answer == answer)
  }

  predicate Over(w: World, n: Name) {
    Replay(w.log, n).Done? || Replay(w.log, n).Settled?
  }

  lemma OverMoves(l: Life, c: Commit, n: Name)
    requires (l.Done? || l.Settled?) && !Next(l, c, n).Broken?
    ensures Next(l, c, n).Done? || Next(l, c, n).Settled?
  {
  }

  lemma NeverBroken(w: World, n: Name)
    requires Inv(w)
    ensures !Replay(w.log, n).Broken?
  {
    assert Agrees(w.remote, w.issued, Replay(w.log, n), n);
  }

  lemma OverStays(w: World, s: Step, n: Name)
    requires Inv(w) && Over(w, n)
    ensures Over(Apply(w, s), n)
  {
    hide Apply, Inv, Next;
    ApplyKeeps(w, s);
    NeverBroken(Apply(w, s), n);
    if Apply(w, s).log != w.log {
      LogGrows(w, s);
      var c := Apply(w, s).log[|w.log|];
      ReplayLanded(w.log, c, n);
      OverMoves(Replay(w.log, n), c, n);
    }
  }

  lemma LogGrows(w: World, s: Step)
    requires Apply(w, s).log != w.log
    ensures var log := Apply(w, s).log; log != [] && log == w.log + [log[|log| - 1]]
  {
  }

  lemma CompleteSays(w: World, n: Name, body: string)
    requires Inv(w) && n in w.held
    ensures var r := w.held[n];
            Says(Apply(w, Complete(n, body)), n, Answer(r.kind, r.key, r.runId, body))
    ensures Over(Apply(w, Complete(n, body)), n)
  {
    assert Agrees(w.remote, w.issued, Replay(w.log, n), n);
    ReplayLanded(w.log, map[n := Answered], n);
  }

  lemma OtherCompleteSays(w: World, m: Name, body: string, n: Name, answer: Answer)
    requires Inv(w) && Says(w, n, answer) && Over(w, n)
    ensures Says(Apply(w, Complete(m, body)), n, answer)
  {
    if m in w.held {
      assert Agrees(w.remote, w.issued, Replay(w.log, m), m);
      assert m != n && w.issued[m] != w.issued[n];
    }
  }

  lemma RejectSays(w: World, result: Name, reason: string, n: Name, answer: Answer)
    requires Says(w, n, answer)
    ensures Says(Apply(w, Reject(result, reason)), n, answer)
  {
    RefusedNameInjective(result, if n in w.issued then w.issued[n] else "");
  }

  lemma SaysStays(w: World, s: Step, n: Name, answer: Answer)
    requires Inv(w) && Says(w, n, answer) && Over(w, n)
    ensures Says(Apply(w, s), n, answer)
  {
    hide RequestsAgree, ResultsAgree, Over;
    match s
    case Complete(m, body) => OtherCompleteSays(w, m, body, n, answer);
    case Reject(result, reason) => RejectSays(w, result, reason, n, answer);
    case _ =>
  }

  /** What a researcher completes a request with is what is found of it from then
      on: the answer in `results/`, or refused in `failed/`, has the request's own
      kind, key and run, and the very text that was given. */
  lemma {:induction false} AnswerKept(steps: seq<Step>, i: nat, j: nat, n: Name, body: string)
    requires i < j <= |steps| && steps[i] == Complete(n, body) && n in At(steps, i).held
    ensures var r := At(steps, i).held[n];
            Says(At(steps, j), n, Answer(r.kind, r.key, r.runId, body)) && Over(At(steps, j), n)
    decreases j
  {
    AtNext(steps, j - 1);
    var r := At(steps, i).held[n];
    if j == i + 1 {
      CompleteSays(At(steps, i), n, body);
    } else {
      AnswerKept(steps, i, j - 1, n, body);
      SaysStays(At(steps, j - 1), steps[j - 1], n, Answer(r.kind, r.key, r.runId, body));
      OverStays(At(steps, j - 1), steps[j - 1], n);
    }
  }
}
