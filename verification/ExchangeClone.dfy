/**
 One side's clone of the exchange, and the operations on it as the source
 carries them out: listings are read, files are moved one at a time, pushes
 succeed or not.  What git answers is a parameter.
 */
module ExchangeClone {
  import opened Wrappers
  import opened Exchange
  import opened ExchangeProtocol

  /** What a push comes back with; a refusal carries the head fetched next. */
  datatype Push = Accepted | Refused(upstream: View) | Failed

  /** How one round of a claim ends. */
  datatype RoundEnd = Empty | Won(name: Name, record: Request) | Broke | Gone | Again

  datatype Claimed = Got(name: Name, record: Request) | Nothing | Raised

  /** `names` lists the files `some` of `dir`, each once, oldest-created first. */
  ghost predicate ListsSome(names: seq<Name>, dir: map<Name, Request>, some: set<Name>) {
    && (forall n :: n in some <==> n in names)
    && (forall i | 0 <= i < |names| :: names[i] in dir)
    && (forall i, j | 0 <= i < j < |names| ::
          names[i] != names[j] && dir[names[i]].createdAt <= dir[names[j]].createdAt)
  }

  ghost predicate IsListing(names: seq<Name>, dir: map<Name, Request>) {
    ListsSome(names, dir, dir.Keys)
  }

  lemma InsertListed(names: seq<Name>, dir: map<Name, Request>, some: set<Name>, at: nat, n: Name)
    requires ListsSome(names, dir, some) && n in dir && n !in some && at <= |names|
    requires forall i | at <= i < |names| :: dir[names[i]].createdAt > dir[n].createdAt
    requires at > 0 ==> dir[names[at - 1]].createdAt <= dir[n].createdAt
    ensures ListsSome(names[..at] + [n] + names[at..], dir, some + {n})
  {
    InsertHolds(names, at, n);
  }

  lemma InsertHolds(names: seq<Name>, at: nat, n: Name)
    requires at <= |names|
    ensures forall m :: m in names[..at] + [n] + names[at..] <==> m in names || m == n
  {
    var longer := names[..at] + [n] + names[at..];
    assert longer[at] == n;
    forall m | m in names ensures m in longer {
      var i :| 0 <= i < |names| && names[i] == m;
      assert longer[if i < at then i else i + 1] == m;
    }
  }

  /** The records of a directory, oldest-created first; ties in any order. */
  method ReadRecords(dir: map<Name, Request>) returns (names: seq<Name>)
    ensures IsListing(names, dir)
  {
    var rest := dir.Keys;
    names := [];
    while rest != {}
      invariant rest <= dir.Keys
      invariant ListsSome(names, dir, dir.Keys - rest)
    {
      var n :| n in rest;
      var at := |names|;
      while at > 0 && dir[names[at - 1]].createdAt > dir[n].createdAt
        invariant 0 <= at <= |names|
        invariant forall i | at <= i < |names| :: dir[names[i]].createdAt > dir[n].createdAt
      {
        at := at - 1;
      }
      InsertListed(names, dir, dir.Keys - rest, at, n);
      names := names[..at] + [n] + names[at..];
      assert dir.Keys - rest + {n} == dir.Keys - (rest - {n});
      rest := rest - {n};
    }
  }

  // ---- selecting what to claim -------------------------------------------

  type Work = (string, string)

  function WorkOf(r: Request): Work { (r.kind, r.key) }

  /** The members of one (kind, key) group, in listing order. */
  function Members(names: seq<Name>, pending: map<Name, Request>, k: Work): seq<Name>
    requires forall n | n in names :: n in pending
  {
    if names == [] then []
    else
      var front := Members(names[..|names| - 1], pending, k);
      var n := names[|names| - 1];
      if WorkOf(pending[n]) == k then front + [n] else front
  }

  lemma {:induction false} MembersAre(names: seq<Name>, pending: map<Name, Request>, k: Work)
    requires forall n | n in names :: n in pending
    ensures forall n :: n in Members(names, pending, k) <==> n in names && WorkOf(pending[n]) == k
  {
    if names != [] {
      MembersAre(names[..|names| - 1], pending, k);
    }
  }

  lemma MembersStep(names: seq<Name>, pending: map<Name, Request>, k: Work, i: nat)
    requires i < |names| && forall n | n in names :: n in pending
    ensures Members(names[..i + 1], pending, k)
              == Members(names[..i], pending, k) + if WorkOf(pending[names[i]]) == k then [names[i]] else []
  {
    assert names[..i + 1][..i] == names[..i];
  }

  function Newest(names: seq<Name>, pending: map<Name, Request>, k: Work): (n: Name)
    requires forall n | n in names :: n in pending
    requires Members(names, pending, k) != []
    ensures n in names && n in pending && WorkOf(pending[n]) == k
  {
    MembersAre(names, pending, k);
    var g := Members(names, pending, k);
    assert g[|g| - 1] in g;
    g[|g| - 1]
  }

  /** Listing order is creation order, so the last member of a group is its
      newest, and it is listed once. */
  lemma {:induction false} NewestIsLast(names: seq<Name>, pending: map<Name, Request>, some: set<Name>, k: Work, i: nat)
    requires ListsSome(names, pending, some)
    requires i + 1 < |Members(names, pending, k)|
    ensures var g := Members(names, pending, k);
            var last := Newest(names, pending, k);
            g[i] != last && g[i] in pending && pending[g[i]].createdAt <= pending[last].createdAt
  {
    var front, n := names[..|names| - 1], names[|names| - 1];
    if WorkOf(pending[n]) == k {
      MembersAre(front, pending, k);
      assert Members(front, pending, k)[i] in Members(front, pending, k);
      LastIsNewest(names, pending, some, Members(names, pending, k)[i]);
    } else {
      FrontLists(names, pending, some);
      NewestIsLast(front, pending, some - {n}, k, i);
    }
  }

  lemma LastIsNewest(names: seq<Name>, pending: map<Name, Request>, some: set<Name>, m: Name)
    requires ListsSome(names, pending, some) && names != [] && m in names[..|names| - 1]
    ensures m in pending && m != names[|names| - 1] && pending[m].createdAt <= pending[names[|names| - 1]].createdAt
  {
    var p :| 0 <= p < |names| - 1 && names[..|names| - 1][p] == m;
    assert names[p] == m;
  }

  lemma FrontLists(names: seq<Name>, pending: map<Name, Request>, some: set<Name>)
    requires ListsSome(names, pending, some) && names != []
    ensures ListsSome(names[..|names| - 1], pending, some - {names[|names| - 1]})
  {
    var front, n := names[..|names| - 1], names[|names| - 1];
    forall m ensures m in some - {n} <==> m in front {
      if m in names && m != n {
        var i :| 0 <= i < |names| && names[i] == m;
        assert front[i] == m;
      }
    }
  }

  predicate Wanted(k: Work, kind: Option<string>) {
    kind.None? || k.0 == kind.value
  }

  /** `groups` holds, for every wanted (kind, key) among `names`, its members. */
  ghost predicate Grouped(names: seq<Name>, pending: map<Name, Request>, kind: Option<string>,
                          order: seq<Work>, groups: map<Work, seq<Name>>)
    requires forall n | n in names :: n in pending
  {
    && (forall k :: k in order <==> k in groups)
    && (forall k: Work :: k in groups <==> Wanted(k, kind) && Members(names, pending, k) != [])
    && (forall k | k in groups :: groups[k] == Members(names, pending, k))
  }

  lemma GroupedStep(names: seq<Name>, pending: map<Name, Request>, kind: Option<string>, i: nat,
                    order: seq<Work>, groups: map<Work, seq<Name>>, order': seq<Work>, groups': map<Work, seq<Name>>)
    requires i < |names| && forall n | n in names :: n in pending
    requires Grouped(names[..i], pending, kind, order, groups)
    requires var n := names[i];
             var k := WorkOf(pending[n]);
             if !Wanted(k, kind) then order' == order && groups' == groups
             else
               && order' == (if k in groups then order else order + [k])
               && groups' == groups[k := (if k in groups then groups[k] else []) + [n]]
    ensures Grouped(names[..i + 1], pending, kind, order', groups')
  {
    hide Members;
    var k := WorkOf(pending[names[i]]);
    forall k': Work
      ensures Members(names[..i + 1], pending, k')
                == Members(names[..i], pending, k') + if k == k' then [names[i]] else []
    {
      MembersStep(names, pending, k', i);
    }
  }

  /** Groups the pending requests by work, in order of first appearance.  The
      listing is already sorted by creation, so sorting a group again is the
      identity. */
  method GroupPending(pending: map<Name, Request>, kind: Option<string>, names: seq<Name>)
      returns (order: seq<Work>, groups: map<Work, seq<Name>>)
    requires IsListing(names, pending)
    ensures Grouped(names, pending, kind, order, groups)
  {
    order, groups := [], map[];
    for i := 0 to |names|
      invariant Grouped(names[..i], pending, kind, order, groups)
    {
      ghost var order0, groups0 := order, groups;
      var n := names[i];
      var k := WorkOf(pending[n]);
      if kind.None? || k.0 == kind.value {
        order := if k in groups then order else order + [k];
        groups := groups[k := (if k in groups then groups[k] else []) + [n]];
      }
      GroupedStep(names, pending, kind, i, order0, groups0, order, groups);
    }
    assert names[..|names|] == names;
  }

  lemma PlaceIn(g: seq<Name>, m: Name) returns (i: nat)
    requires m in g
    ensures i < |g| && g[i] == m
  {
    i :| 0 <= i < |g| && g[i] == m;
  }

  lemma NewestOfWork(pending: map<Name, Request>, names: seq<Name>, k: Work, m: Name)
    requires IsListing(names, pending) && m in Members(names, pending, k)
    ensures var n := Newest(names, pending, k);
            n == m || (m in pending && pending[m].createdAt <= pending[n].createdAt && m in Rivals(pending, n))
  {
    var g := Members(names, pending, k);
    MembersAre(names, pending, k);
    var i := PlaceIn(g, m);
    if i + 1 < |g| {
      NewestIsLast(names, pending, pending.Keys, k, i);
    }
  }

  lemma PickedIsTarget(pending: map<Name, Request>, kind: Option<string>, names: seq<Name>, best: Work)
    requires IsListing(names, pending)
    requires Wanted(best, kind) && Members(names, pending, best) != []
    requires forall k: Work | Wanted(k, kind) && Members(names, pending, k) != [] ::
      pending[Newest(names, pending, best)].createdAt <= pending[Newest(names, pending, k)].createdAt
    ensures IsTarget(pending, kind, Newest(names, pending, best))
  {
    var n := Newest(names, pending, best);
    forall m | m in pending && SameWork(pending[m], pending[n])
      ensures pending[m].createdAt <= pending[n].createdAt
    {
      MembersAre(names, pending, best);
      NewestOfWork(pending, names, best, m);
    }
    forall m | m in pending && OfKind(pending[m], kind) && IsNewest(pending, m)
      ensures pending[n].createdAt <= pending[m].createdAt
    {
      var k := WorkOf(pending[m]);
      MembersAre(names, pending, k);
      assert m in Members(names, pending, k);
      assert SameWork(pending[Newest(names, pending, k)], pending[m]);
    }
  }

  lemma OlderAreRivals(pending: map<Name, Request>, names: seq<Name>, best: Work)
    requires IsListing(names, pending) && Members(names, pending, best) != []
    ensures var g := Members(names, pending, best);
            forall m :: m in g[..|g| - 1] <==> m in Rivals(pending, Newest(names, pending, best))
  {
    var g := Members(names, pending, best);
    MembersAre(names, pending, best);
    forall m ensures m in g[..|g| - 1] <==> m in Rivals(pending, Newest(names, pending, best)) {
      if m in g[..|g| - 1] {
        var i :| 0 <= i < |g| - 1 && g[i] == m;
        NewestIsLast(names, pending, pending.Keys, best, i);
        assert g[i] in g;
      }
      if m in Rivals(pending, Newest(names, pending, best)) {
        assert m in g;
        var i :| 0 <= i < |g| && g[i] == m;
        assert g[..|g| - 1][i] == m;
      }
    }
  }

  function NewestStamp(groups: map<Work, seq<Name>>, pending: map<Name, Request>, k: Work): int
    requires k in groups && groups[k] != [] && groups[k][|groups[k]| - 1] in pending
  {
    pending[groups[k][|groups[k]| - 1]].createdAt
  }

  /** The group whose newest member is oldest; the first such on a tie. */
  method OldestGroup(order: seq<Work>, groups: map<Work, seq<Name>>, pending: map<Name, Request>)
      returns (best: Work)
    requires order != []
    requires forall k | k in order ::
      k in groups && groups[k] != [] && groups[k][|groups[k]| - 1] in pending
    ensures best in order
    ensures forall k | k in order :: NewestStamp(groups, pending, best) <= NewestStamp(groups, pending, k)
  {
    best := order[0];
    for j := 1 to |order|
      invariant best in order
      invariant forall i | 0 <= i < j ::
        NewestStamp(groups, pending, best) <= NewestStamp(groups, pending, order[i])
    {
      var members := groups[order[j]];
      if pending[members[|members| - 1]].createdAt < pending[groups[best][|groups[best]| - 1]].createdAt {
        best := order[j];
      }
    }
  }

  ghost predicate GroupsOf(names: seq<Name>, pending: map<Name, Request>, kind: Option<string>,
                           order: seq<Work>, groups: map<Work, seq<Name>>) {
    IsListing(names, pending) && Grouped(names, pending, kind, order, groups)
  }

  lemma GroupAt(names: seq<Name>, pending: map<Name, Request>, kind: Option<string>,
                order: seq<Work>, groups: map<Work, seq<Name>>, k: Work)
    requires GroupsOf(names, pending, kind, order, groups) && k in order
    ensures k in groups && groups[k] == Members(names, pending, k) && groups[k] != [] && Wanted(k, kind)
    ensures groups[k][|groups[k]| - 1] == Newest(names, pending, k) && Newest(names, pending, k) in pending
    ensures NewestStamp(groups, pending, k) == pending[Newest(names, pending, k)].createdAt
  {
  }

  lemma AllGrouped(names: seq<Name>, pending: map<Name, Request>, kind: Option<string>,
                   order: seq<Work>, groups: map<Work, seq<Name>>, n: Name)
    requires GroupsOf(names, pending, kind, order, groups) && n in pending && OfKind(pending[n], kind)
    ensures WorkOf(pending[n]) in order
  {
    MembersAre(names, pending, WorkOf(pending[n]));
    assert n in Members(names, pending, WorkOf(pending[n]));
  }

  lemma OldestIsTarget(names: seq<Name>, pending: map<Name, Request>, kind: Option<string>,
                       order: seq<Work>, groups: map<Work, seq<Name>>, best: Work)
    requires GroupsOf(names, pending, kind, order, groups) && best in order
    requires forall k | k in order ::
      k in groups && groups[k] != [] && groups[k][|groups[k]| - 1] in pending
    requires forall k | k in order :: NewestStamp(groups, pending, best) <= NewestStamp(groups, pending, k)
    ensures IsTarget(pending, kind, Newest(names, pending, best))
  {
    forall k: Work | Wanted(k, kind) && Members(names, pending, k) != []
      ensures pending[Newest(names, pending, best)].createdAt <= pending[Newest(names, pending, k)].createdAt
    {
      GroupAt(names, pending, kind, order, groups, k);
      GroupAt(names, pending, kind, order, groups, best);
    }
    PickedIsTarget(pending, kind, names, best);
  }

  /** The newest request of the group whose newest is oldest, with the group's
      other members. */
  method SelectClaimTarget(pending: map<Name, Request>, kind: Option<string>)
      returns (picked: Option<(Name, seq<Name>)>)
    ensures picked.None? <==> forall n | n in pending :: !OfKind(pending[n], kind)
    ensures picked.Some? ==> IsTarget(pending, kind, picked.value.0)
    ensures picked.Some? ==> forall m :: m in picked.value.1 <==> m in Rivals(pending, picked.value.0)
  {
    var names := ReadRecords(pending);
    var order, groups := GroupPending(pending, kind, names);
    if order == [] {
      forall n | n in pending ensures !OfKind(pending[n], kind) {
        if OfKind(pending[n], kind) {
          AllGrouped(names, pending, kind, order, groups, n);
        }
      }
      return None;
    }
    forall k | k in order
      ensures k in groups && groups[k] != [] && groups[k][|groups[k]| - 1] in pending
    {
      GroupAt(names, pending, kind, order, groups, k);
    }
    var best := OldestGroup(order, groups, pending);
    GroupAt(names, pending, kind, order, groups, best);
    OldestIsTarget(names, pending, kind, order, groups, best);
    OlderAreRivals(pending, names, best);
    var g := groups[best];
    picked := Some((g[|g| - 1], g[..|g| - 1]));
  }

  // ---- the clone ---------------------------------------------------------

  ghost predicate AllRefused(pushes: seq<Push>, n: nat) {
    n <= |pushes| && forall i | 0 <= i < n :: pushes[i].Refused?
  }

  /** What round `i` of a claim works from: the clone's own view, then whatever
      the last refused push fetched. */
  ghost function Base(start: View, pushes: seq<Push>, i: nat): View
    requires AllRefused(pushes, i)
  {
    if i == 0 then start else pushes[i - 1].upstream
  }

  /** The claim of `name` carries its request with who claimed it and when; the
      other pending requests of its (kind, key) are gone, all others as before. */
  ghost predicate Claims(t: Tree, t': Tree, name: Name, record: Request, who: string, now: int) {
    && name in t.pending
    && var was := t.pending[name];
    && record == Request(was.kind, was.key, was.runId, was.createdAt, was.attempts, who, Some(now))
    && t'.claimed == t.claimed[name := record] && t'.failed == t.failed && t'.results == t.results
    && (forall n :: n in t'.pending <==>
          n in t.pending && n != name && !(t.pending[n].kind == was.kind && t.pending[n].key == was.key))
    && (forall n | n in t'.pending :: t'.pending[n] == t.pending[n])
  }

  lemma ClaimTreeClaims(t: Tree, name: Name, who: string, now: int)
    requires name in t.pending
    ensures Claims(t, ClaimTree(t, name, who, now), name, Stamped(t.pending[name], who, now), who, now)
  {
  }

  /** Round `i` landed: the claim is a legal one on the very tree it was pushed
      onto, and the clone holds the new head. */
  ghost predicate WonRound(start: View, kind: Option<string>, who: string, clocks: seq<int>, pushes: seq<Push>,
                           i: nat, name: Name, record: Request, version: nat, tree: Tree)
  {
    && i < |pushes| && i < |clocks| && AllRefused(pushes, i) && pushes[i].Accepted?
    && var base := Base(start, pushes, i);
    && IsTarget(base.tree.pending, kind, name)
    && Claims(base.tree, tree, name, record, who, clocks[i])
    && tree == ClaimTree(base.tree, name, who, clocks[i])
    && version == base.version + 1
  }

  /** Nothing landed in `i` rounds, and there is no reason for another: nothing
      to claim, the picked file gone, or out of rounds. */
  ghost predicate LostRound(start: View, kind: Option<string>, pushes: seq<Push>, i: nat, now: View) {
    && AllRefused(pushes, i) && now == Base(start, pushes, i)
    && (|| i == MAX_CLAIM_ATTEMPTS
        || (forall n | n in now.tree.pending :: !OfKind(now.tree.pending[n], kind))
        || (i > 0 && exists n :: IsTarget(Base(start, pushes, i - 1).tree.pending, kind, n) && n !in now.tree.pending))
  }

  /** A round that was won is the protocol's claim step, on the remote it was
      pushed to. */
  lemma WonRoundIsStep(w: World, c: nat, start: View, kind: Option<string>, who: string, clocks: seq<int>,
                       pushes: seq<Push>, i: nat, name: Name, record: Request, version: nat, tree: Tree)
    requires Inv(w) && WonRound(start, kind, who, clocks, pushes, i, name, record, version, tree)
    requires c in w.clones && w.clones[c] == Base(start, pushes, i) && w.clones[c].version == w.version
    ensures var w' := Apply(w, Step.Claim(c, kind, name, who, clocks[i]));
            && w'.remote == tree && w'.version == version && w'.clones[c] == View(version, tree)
            && name in w'.held && w'.held[name] == record
            && w'.log == w.log + [ClaimCommit(w.remote, name)]
  {
  }

  function Pulled(v: View, pulled: Option<View>): View {
    if pulled.Some? then pulled.value else v
  }

  function Reclaimed(v: View, now: int, after: int, push: Push): View {
    var gone := StaleClaims(v.tree, now, after);
    if gone != {} && push.Accepted? then View(v.version + 1, ReclaimTree(v.tree, gone)) else v
  }

  // What the other operations leave in a clone that is at the remote's head is
  // what their step makes of the remote; `Land` adds the commit and the version.

  lemma EnqueueIsStep(w: World, c: nat, r: Request)
    requires Inv(w) && c in w.clones && w.clones[c].version == w.version && CanEnqueue(w, r)
    ensures var t := w.clones[c].tree;
            var w' := Apply(w, Step.Enqueue(r, t.pending.Keys));
            && w'.remote == EnqueueTree(t, r, t.pending.Keys) && w'.version == w.version + 1
            && w'.log == w.log + [EnqueueCommit(t, r, t.pending.Keys)]
            && FileName(r) in w'.issued && w'.issued[FileName(r)] == ResultName(r.runId, r.key)
  {
  }

  /** A reclaim of dead claims: landed, it is the step, and the clone has the new
      head; refused, for whatever reason, neither it nor the remote has changed. */
  lemma ReclaimIsStep(w: World, c: nat, now: int, after: int, push: Push)
    requires Inv(w) && c in w.clones && StaleClaims(w.clones[c].tree, now, after) !! w.held.Keys
    requires push.Accepted? <==> w.clones[c].version == w.version
    ensures var w' := Apply(w, Step.Reclaim(c, now, after));
            && w'.clones[c] == Reclaimed(w.clones[c], now, after, push)
            && (push.Accepted? ==> w'.remote == w'.clones[c].tree)
            && (!push.Accepted? ==> w' == w)
  {
    if push.Accepted? {
      assert w.clones[c].tree == w.remote;
    }
  }

  lemma CompleteIsStep(w: World, c: nat, n: Name, body: string)
    requires Inv(w) && c in w.clones && w.clones[c].version == w.version && n in w.held
    ensures var w' := Apply(w, Step.Complete(n, body));
            && w'.remote == CompleteTree(w.clones[c].tree, n, w.held[n], body)
            && w'.log == w.log + [map[n := Answered]] && n !in w'.held
  {
  }

  lemma FailIsStep(w: World, c: nat, n: Name, category: string, max: int)
    requires Inv(w) && c in w.clones && w.clones[c].version == w.version && n in w.held
    requires max <= MAX_REQUEST_ATTEMPTS
    ensures var w' := Apply(w, Step.Fail(n, category, max));
            && w'.remote == FailTree(w.clones[c].tree, n, w.held[n], category, max)
            && w'.log == w.log + [FailCommit(n, w.held[n], max)] && n !in w'.held
  {
  }

  lemma RejectIsStep(w: World, c: nat, result: Name, reason: string)
    requires Inv(w) && c in w.clones && w.clones[c].version == w.version && result in w.remote.results
    ensures var w' := Apply(w, Step.Reject(result, reason));
            && result in w.clones[c].tree.results
            && w'.remote == RejectTree(w.clones[c].tree, result, reason)
            && w'.log == w.log + [map[Origin(w.remote.results[result]) := Rejected]]
  {
  }

  lemma RequeueOneMore(claimed: map<Name, Request>, gone: set<Name>, n: Name)
    requires n in claimed && n !in gone
    ensures var r := Tried(claimed[n]);
            && Requeued(claimed, gone + {n}) ==
                 (if r.attempts >= MAX_REQUEST_ATTEMPTS then Requeued(claimed, gone)
                  else Requeued(claimed, gone)[n := Unclaimed(r)])
            && GivenUp(claimed, gone + {n}) ==
                 (if r.attempts >= MAX_REQUEST_ATTEMPTS then GivenUp(claimed, gone)[n := GaveUp(r, "stale_claim")]
                  else GivenUp(claimed, gone))
  {
  }

  lemma UpdateLast<K, V>(m: map<K, V>, m': map<K, V>, k: K, v: V)
    ensures m + m'[k := v] == (m + m')[k := v]
  {
  }

  /** Reclaiming one more claim is one more file moved. */
  lemma ReclaimOneMore(t: Tree, gone: set<Name>, n: Name)
    requires n in t.claimed && n !in gone
    ensures ReclaimTree(t, gone + {n}) == Moved(ReclaimTree(t, gone), n, Tried(t.claimed[n]))
  {
    var r := Tried(t.claimed[n]);
    RequeueOneMore(t.claimed, gone, n);
    UpdateLast(t.failed, GivenUp(t.claimed, gone), n, GaveUp(r, "stale_claim"));
    UpdateLast(t.pending, Requeued(t.claimed, gone), n, Unclaimed(r));
    assert t.claimed - (gone + {n}) == t.claimed - gone - {n};
  }

  function Moved(t: Tree, n: Name, tried: Request): Tree {
    var t' := t.(claimed := t.claimed - {n});
    if tried.attempts >= MAX_REQUEST_ATTEMPTS then
      t'.(failed := t'.failed[n := GaveUp(tried, "stale_claim")])
    else
      t'.(pending := t'.pending[n := Unclaimed(tried)])
  }

  lemma ReclaimNone(t: Tree)
    ensures ReclaimTree(t, {}) == t
  {
    assert t.claimed - {} == t.claimed;
  }

  /** A record with one attempt more and the claim taken off. */
  predicate PutBack(was: Request, r: Request) {
    && r.kind == was.kind && r.key == was.key && r.runId == was.runId && r.createdAt == was.createdAt
    && r.attempts == was.attempts + 1 && r.claimedBy == "" && r.claimedAt == None
  }

  /** A record with one attempt more, the last claim still on it. */
  predicate LaidDown(was: Request, r: Request) {
    && r.kind == was.kind && r.key == was.key && r.runId == was.runId && r.createdAt == was.createdAt
    && r.attempts == was.attempts + 1 && r.claimedBy == was.claimedBy && r.claimedAt == was.claimedAt
  }

  /** A claim that ended without an answer: back in pending below the limit, in
      `failed/` with the category at it. */
  predicate Ended(t: Tree, n: Name, was: Request, category: string, limit: int) {
    && n !in t.claimed
    && (was.attempts + 1 < limit ==> n in t.pending && PutBack(was, t.pending[n]))
    && (was.attempts + 1 >= limit ==>
          n in t.failed && t.failed[n].GaveUp? && LaidDown(was, t.failed[n].request) && t.failed[n].category == category)
  }

  /** Nothing about a file has changed, in any of the three directories. */
  predicate Untouched(t: Tree, t': Tree, n: Name) {
    && (n in t'.pending <==> n in t.pending) && (n in t.pending ==> t'.pending[n] == t.pending[n])
    && (n in t'.claimed <==> n in t.claimed) && (n in t.claimed ==> t'.claimed[n] == t.claimed[n])
    && (n in t'.failed <==> n in t.failed) && (n in t.failed ==> t'.failed[n] == t.failed[n])
  }

  /** A reclaim moves the claims stamped more than `after` ago, and nothing else. */
  lemma ReclaimMovesOld(t: Tree, now: int, after: int, n: Name)
    ensures var t' := ReclaimTree(t, StaleClaims(t, now, after));
            var dead := n in t.claimed && t.claimed[n].claimedAt.Some? && t.claimed[n].claimedAt.value + after < now;
            && (n in StaleClaims(t, now, after) <==> dead)
            && (dead ==> Ended(t', n, t.claimed[n], "stale_claim", MAX_REQUEST_ATTEMPTS))
            && (!dead ==> Untouched(t, t', n))
  {
    ReclaimAt(t, StaleClaims(t, now, after), n);
  }

  /** `moved` are the claims stamped more than `after` ago; each has ended, and
      every other file is as it was. */
  ghost predicate MovesOld(t: Tree, t': Tree, moved: seq<Name>, now: int, after: int) {
    && (forall n :: n in moved <==>
          n in t.claimed && t.claimed[n].claimedAt.Some? && t.claimed[n].claimedAt.value + after < now)
    && (forall n | n in moved :: Ended(t', n, t.claimed[n], "stale_claim", MAX_REQUEST_ATTEMPTS))
    && (forall n | n !in moved :: Untouched(t, t', n))
  }

  lemma AllMoved(t: Tree, now: int, after: int, moved: seq<Name>)
    requires forall n :: n in moved <==> n in StaleClaims(t, now, after)
    ensures MovesOld(t, ReclaimTree(t, StaleClaims(t, now, after)), moved, now, after)
  {
    hide ReclaimTree, Ended, Untouched;
    forall n
      ensures n in moved <==>
                n in t.claimed && t.claimed[n].claimedAt.Some? && t.claimed[n].claimedAt.value + after < now
      ensures n in moved ==>
                Ended(ReclaimTree(t, StaleClaims(t, now, after)), n, t.claimed[n], "stale_claim", MAX_REQUEST_ATTEMPTS)
      ensures n !in moved ==> Untouched(t, ReclaimTree(t, StaleClaims(t, now, after)), n)
    {
      ReclaimMovesOld(t, now, after, n);
    }
  }

  class Clone {
    var version: nat   // the upstream head this clone last had
    var tree: Tree     // its own HEAD and working tree

    constructor (v: View)
      ensures version == v.version && tree == v.tree
    {
      version, tree := v.version, v.tree;
    }

    method Enqueue(r: Request) returns (file: Result<Name>)
      modifies this
      ensures file.Err? <==> !SafeId(r.key) || !SafeId(r.runId)
      ensures file.Err? ==> tree == old(tree)
      ensures file.Ok? ==> file.value == r.kind + "-" + r.key + "-" + r.runId + ".json"
      ensures file.Ok? ==> tree == EnqueueTree(old(tree), r, old(tree).pending.Keys)
      ensures file.Ok? ==> file.value in tree.pending && tree.pending[file.value] == r
      ensures file.Ok? ==> forall n | n != file.value ::
                (n in tree.pending <==>
                   n in old(tree).pending && !(old(tree).pending[n].kind == r.kind && old(tree).pending[n].key == r.key))
                && (n in tree.pending ==> tree.pending[n] == old(tree).pending[n])
      ensures version == old(version)
    {
      if !SafeId(r.key) || !SafeId(r.runId) {
        return Err("not a safe id");
      }
      var name := FileName(r);
      var names := ReadRecords(tree.pending);
      var older: set<Name> := {};
      for i := 0 to |names|
        invariant tree == old(tree)
        invariant older == set n | n in names[..i] && n in tree.pending && SameWork(tree.pending[n], r) && n != name
      {
        if SameWork(tree.pending[names[i]], r) && names[i] != name {
          older := older + {names[i]};
        }
      }
      assert older == Older(tree.pending, r, tree.pending.Keys);
      tree := tree.(pending := tree.pending[name := r]);
      tree := tree.(pending := tree.pending - older);
      assert tree.pending == (old(tree).pending - older)[name := r];
      return Ok(name);
    }

    /** Moves every stale claim, one file at a time. */
    method MoveStale(names: seq<Name>, now: int, after: int) returns (moved: seq<Name>)
      requires IsListing(names, tree.claimed)
      modifies this`tree
      ensures tree == ReclaimTree(old(tree), StaleClaims(old(tree), now, after))
      ensures MovesOld(old(tree), tree, moved, now, after)
      ensures forall n :: n in moved <==> n in StaleClaims(old(tree), now, after)
    {
      var head := tree;
      moved := [];
      ghost var gone: set<Name> := {};
      ReclaimNone(head);
      for i := 0 to |names|
        invariant forall n :: n in gone <==> n in names[..i] && n in StaleClaims(head, now, after)
        invariant forall n :: n in moved <==> n in gone
        invariant tree == ReclaimTree(head, gone)
      {
        var n := names[i];
        assert names[..i + 1] == names[..i] + [n];
        if Stale(head.claimed[n], now, after) {
          var record := Tried(head.claimed[n]);
          ReclaimOneMore(head, gone, n);
          tree := tree.(claimed := tree.claimed - {n});
          if record.attempts >= MAX_REQUEST_ATTEMPTS {
            tree := tree.(failed := tree.failed[n := GaveUp(record, "stale_claim")]);
          } else {
            tree := tree.(pending := tree.pending[n := Unclaimed(record)]);
          }
          moved := moved + [n];
          gone := gone + {n};
        }
      }
      assert names[..|names|] == names;
      assert gone == StaleClaims(head, now, after);
      AllMoved(head, now, after, moved);
    }

    /** Every stale claim goes back to pending or is given up, in one commit;
        a push that does not land undoes the commit. */
    method ReclaimStale(now: int, after: int, push: Push) returns (moved: seq<Name>)
      modifies this
      ensures View(version, tree) == Reclaimed(View(old(version), old(tree)), now, after, push)
      ensures push.Accepted? ==> MovesOld(old(tree), tree, moved, now, after)
      ensures !push.Accepted? ==> moved == [] && tree == old(tree)
    {
      var before := tree;
      var names := ReadRecords(tree.claimed);
      moved := MoveStale(names, now, after);
      if moved == [] {
        ReclaimNone(before);
        assert StaleClaims(before, now, after) == {};
        return;
      }
      assert moved[0] in StaleClaims(before, now, after);
      if push.Accepted? {
        version := version + 1;
      } else {
        tree := before;
        moved := [];
      }
    }

    /** One claim commit on this clone's tree. */
    method CommitClaim(name: Name, older: seq<Name>, record: Request, ghost who: string, ghost now: int)
      requires name in tree.pending && record == Stamped(tree.pending[name], who, now)
      requires forall m :: m in older <==> m in Rivals(tree.pending, name)
      modifies this`tree
      ensures tree == ClaimTree(old(tree), name, who, now) && Claims(old(tree), tree, name, record, who, now)
    {
      ClaimTreeClaims(tree, name, who, now);
      tree := tree.(pending := tree.pending - {name});
      for i := 0 to |older|
        invariant tree == old(tree).(pending := old(tree).pending - {name} - set m | m in older[..i])
      {
        tree := tree.(pending := tree.pending - {older[i]});
        assert older[..i + 1] == older[..i] + [older[i]];
      }
      assert older[..|older|] == older;
      assert (set m | m in older) == Rivals(old(tree).pending, name);
      tree := tree.(claimed := tree.claimed[name := record]);
      assert tree.pending == old(tree).pending - Rivals(old(tree).pending, name) - {name};
    }

    /** One round: pick, commit, push; refused, resync and look whether the file
        is still pending. */
    method Round(who: string, kind: Option<string>, now: int, push: Push) returns (r: RoundEnd)
      modifies this
      ensures r.Empty? ==>
                View(version, tree) == View(old(version), old(tree))
                && forall n | n in tree.pending :: !OfKind(tree.pending[n], kind)
      ensures r.Won? ==>
                push.Accepted? && version == old(version) + 1 && IsTarget(old(tree).pending, kind, r.name)
                && Claims(old(tree), tree, r.name, r.record, who, now)
                && tree == ClaimTree(old(tree), r.name, who, now)
      ensures r.Broke? ==> push.Failed?
      ensures r.Gone? || r.Again? ==> push.Refused? && View(version, tree) == push.upstream
      ensures r.Gone? ==> exists n :: IsTarget(old(tree).pending, kind, n) && n !in tree.pending
    {
      var picked := SelectClaimTarget(tree.pending, kind);
      if picked.None? {
        return Empty;
      }
      var name, older := picked.value.0, picked.value.1;
      var record := Stamped(tree.pending[name], who, now);
      CommitClaim(name, older, record, who, now);
      ClaimTreeClaims(old(tree), name, who, now);
      match push
      case Accepted =>
        version := version + 1;
        return Won(name, record);
      case Failed =>
        return Broke;
      case Refused(upstream) =>
        version, tree := upstream.version, upstream.tree;
        return if name !in tree.pending then Gone else Again;
    }

    /** Claim what is to be claimed next; the loser of a push race resyncs, and
        gives up or tries again. */
    method ClaimNext(who: string, kind: Option<string>, clocks: seq<int>, pushes: seq<Push>)
        returns (r: Claimed)
      requires |clocks| == |pushes| == MAX_CLAIM_ATTEMPTS
      modifies this
      ensures r.Got? ==> exists i :: WonRound(View(old(version), old(tree)), kind, who, clocks, pushes, i, r.name, r.record, version, tree)
      ensures r.Nothing? ==> exists i :: LostRound(View(old(version), old(tree)), kind, pushes, i, View(version, tree))
      ensures r.Raised? ==> exists i | 0 <= i < MAX_CLAIM_ATTEMPTS :: AllRefused(pushes, i) && pushes[i].Failed?
    {
      ghost var start := View(version, tree);
      for i := 0 to MAX_CLAIM_ATTEMPTS
        invariant AllRefused(pushes, i) && View(version, tree) == Base(start, pushes, i)
      {
        var round := Round(who, kind, clocks[i], pushes[i]);
        match round
        case Won(name, record) =>
          assert WonRound(start, kind, who, clocks, pushes, i, name, record, version, tree);
          return Got(name, record);
        case Broke =>
          return Raised;
        case Empty =>
          assert LostRound(start, kind, pushes, i, View(version, tree));
          return Nothing;
        case Gone =>
          assert LostRound(start, kind, pushes, i + 1, View(version, tree));
          return Nothing;
        case Again =>
      }
      assert LostRound(start, kind, pushes, MAX_CLAIM_ATTEMPTS, View(version, tree));
      return Nothing;
    }

    /** Pull, put stale claims back, then claim. */
    method Claim(who: string, kind: Option<string>, now: int, after: int, pulled: Option<View>,
                 reclaimPush: Push, clocks: seq<int>, pushes: seq<Push>) returns (r: Claimed)
      requires |clocks| == |pushes| == MAX_CLAIM_ATTEMPTS
      modifies this
      ensures var start := Reclaimed(Pulled(View(old(version), old(tree)), pulled), now, after, reclaimPush);
              && (r.Got? ==> exists i :: WonRound(start, kind, who, clocks, pushes, i, r.name, r.record, version, tree))
              && (r.Nothing? ==> exists i :: LostRound(start, kind, pushes, i, View(version, tree)))
              && (r.Raised? ==> exists i | 0 <= i < MAX_CLAIM_ATTEMPTS :: AllRefused(pushes, i) && pushes[i].Failed?)
    {
      if pulled.Some? {
        version, tree := pulled.value.version, pulled.value.tree;
      }
      var _ := ReclaimStale(now, after, reclaimPush);
      r := ClaimNext(who, kind, clocks, pushes);
    }

    method Complete(name: Name, record: Request, body: string) returns (file: Result<Name>)
      modifies this`tree
      ensures file.Err? <==> !SafeId(record.key) || !SafeId(record.runId)
      ensures tree == if file.Err? then old(tree) else CompleteTree(old(tree), name, record, body)
      ensures file.Ok? ==> file.value == record.runId + "-" + record.key + ".json"
      ensures file.Ok? ==>
                file.value in tree.results
                && tree.results[file.value] == Answer(record.kind, record.key, record.runId, body)
    {
      if !SafeId(record.key) || !SafeId(record.runId) {
        return Err("not a safe id");
      }
      var target := ResultName(record.runId, record.key);
      tree := tree.(claimed := tree.claimed - {name});
      tree := tree.(results := tree.results[target := AnswerTo(record, body)]);
      return Ok(target);
    }

    method FailRequest(name: Name, record: Request, category: string, maxAttempts: int) returns (terminal: bool)
      modifies this`tree
      ensures tree == FailTree(old(tree), name, record, category, maxAttempts)
      ensures Ended(tree, name, record, category, maxAttempts)
      ensures forall n | n != name :: Untouched(old(tree), tree, n)
      ensures terminal <==> record.attempts + 1 >= maxAttempts
    {
      var tried := Tried(record);
      terminal := tried.attempts >= maxAttempts;
      tree := tree.(claimed := tree.claimed - {name});
      if terminal {
        tree := tree.(failed := tree.failed[name := GaveUp(tried, category)]);
      } else {
        tree := tree.(pending := tree.pending[name := Unclaimed(tried)]);
      }
    }

    method RejectResult(result: Name, reason: string)
      requires result in tree.results
      modifies this`tree
      ensures tree == RejectTree(old(tree), result, reason)
      ensures result !in tree.results && "result-" + result in tree.failed
              && tree.failed["result-" + result] == Exchange.Refused(old(tree).results[result], reason)
    {
      tree := tree.(failed := tree.failed[RefusedName(result) := Exchange.Refused(tree.results[result], reason)]);
      tree := tree.(results := tree.results - {result});
    }
  }
}
