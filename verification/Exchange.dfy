/**
 The research exchange: a work queue kept in a git repository, whose only lock
 is a push that the remote refuses when its head has moved.

 A `Tree` is what a commit holds.  Each operation is a function from trees to
 trees; `ExchangeClone.dfy` carries them out step by step, and
 `ExchangeProtocol.dfy` interleaves them over one remote and any number of
 clones.
 */
module Exchange {
  import opened Wrappers

  const MAX_CLAIM_ATTEMPTS := 3
  const MAX_REQUEST_ATTEMPTS := 2
  const KINDS := {"research", "source-review"}

  type Name = string

  /** One request record.  Stamps are instants; `claimedAt` is `None` when it is
      null or does not parse. */
  datatype Request = Request(
    kind: string, key: string, runId: string, createdAt: int,
    attempts: nat, claimedBy: string, claimedAt: Option<int>)

  datatype Answer = Answer(kind: string, key: string, runId: string, body: string)

  /** What `requests/failed/` holds: requests that were given up, and results
      the on-prem side refused. */
  datatype Failure =
    | GaveUp(request: Request, category: string)
    | Refused(answer: Answer, reason: string)

  datatype Tree = Tree(
    pending: map<Name, Request>,
    claimed: map<Name, Request>,
    failed: map<Name, Failure>,
    results: map<Name, Answer>)

  // ---- file names --------------------------------------------------------

  predicate IdChar(c: char) {
    'a' <= c <= 'z' || 'A' <= c <= 'Z' || '0' <= c <= '9' || c in "._-"
  }

  predicate SafeId(s: string) {
    && 0 < |s| <= 200
    && IdChar(s[0]) && s[0] !in "._-"
    && (forall i | 0 <= i < |s| :: IdChar(s[i]))
    && (forall i | 0 <= i < |s| - 1 :: !(s[i] == '.' && s[i + 1] == '.'))
  }

  predicate Alphanumeric(c: char) {
    ('a' <= c && c <= 'z') || ('A' <= c && c <= 'Z') || ('0' <= c && c <= '9')
  }

  lemma IdCharIs(c: char)
    ensures IdChar(c) <==> Alphanumeric(c) || c == '.' || c == '_' || c == '-'
    ensures IdChar(c) && c !in "._-" <==> Alphanumeric(c)
  {
  }

  /** A safe id starts with a letter or a digit, has one to 200 letters, digits,
      dots, underscores and dashes, and nowhere two dots in a row. */
  lemma SafeIdIs(s: string)
    ensures SafeId(s) <==>
              && 1 <= |s| < 201 && Alphanumeric(s[0])
              && (forall i | 0 <= i <= |s| - 1 :: Alphanumeric(s[i]) || s[i] == '.' || s[i] == '_' || s[i] == '-')
              && forall i | 0 <= i <= |s| - 2 && s[i] == '.' :: s[i + 1] != '.'
  {
    forall i | 0 <= i < |s|
      ensures IdChar(s[i]) <==> Alphanumeric(s[i]) || s[i] == '.' || s[i] == '_' || s[i] == '-'
    {
      IdCharIs(s[i]);
    }
    if s != [] {
      IdCharIs(s[0]);
    }
  }

  function FileName(r: Request): Name {
    r.kind + "-" + r.key + "-" + r.runId + ".json"
  }

  function ResultName(runId: string, key: string): Name {
    runId + "-" + key + ".json"
  }

  function RefusedName(result: Name): Name {
    "result-" + result
  }

  /** A refused result never takes the file of a request that was given up, so
      the two kinds of entry can share `requests/failed/`. */
  lemma RefusedNameIsNoRequest(r: Request, result: Name)
    requires r.kind in KINDS
    ensures FileName(r) != RefusedName(result)
  {
    if r.kind == "research" {
      assert FileName(r)[3] == 'e' && RefusedName(result)[3] == 'u';
    } else {
      assert FileName(r)[0] == 's' && RefusedName(result)[0] == 'r';
    }
  }

  lemma RefusedNameInjective(a: Name, b: Name)
    ensures RefusedName(a) == RefusedName(b) ==> a == b
  {
    assert RefusedName(a)[7..] == a && RefusedName(b)[7..] == b;
  }

  // ---- enqueue -----------------------------------------------------------

  predicate SameWork(a: Request, b: Request) {
    a.kind == b.kind && a.key == b.key
  }

  /** The pending requests, among the names the enqueuing side saw, that `r`
      replaces. */
  function Older(pending: map<Name, Request>, r: Request, seen: set<Name>): set<Name> {
    set n | n in pending && n in seen && SameWork(pending[n], r) && n != FileName(r)
  }

  function EnqueueTree(t: Tree, r: Request, seen: set<Name>): Tree {
    t.(pending := (t.pending - Older(t.pending, r, seen))[FileName(r) := r])
  }

  // ---- claim -------------------------------------------------------------

  predicate OfKind(r: Request, kind: Option<string>) {
    kind.None? || r.kind == kind.value
  }

  /** No pending request for the same work was created after `n`. */
  predicate IsNewest(pending: map<Name, Request>, n: Name)
    requires n in pending
  {
    forall m | m in pending && SameWork(pending[m], pending[n]) ::
      pending[m].createdAt <= pending[n].createdAt
  }

  /** What a claim may take: the newest request of its (kind, key), in the group
      whose newest request is the oldest. */
  predicate IsTarget(pending: map<Name, Request>, kind: Option<string>, n: Name) {
    && n in pending && OfKind(pending[n], kind) && IsNewest(pending, n)
    && forall m | m in pending && OfKind(pending[m], kind) && IsNewest(pending, m) ::
         pending[n].createdAt <= pending[m].createdAt
  }

  /** No pending request of the kind was created before `n`. */
  predicate IsOldest(pending: map<Name, Request>, kind: Option<string>, n: Name) {
    && n in pending && OfKind(pending[n], kind)
    && forall m | m in pending && OfKind(pending[m], kind) :: pending[n].createdAt <= pending[m].createdAt
  }

  /** A claim takes an oldest pending request exactly when some oldest one has no
      newer pending duplicate of its own work. */
  lemma TakesOldestWhen(pending: map<Name, Request>, kind: Option<string>, n: Name)
    requires IsTarget(pending, kind, n)
    ensures IsOldest(pending, kind, n) <==> exists o :: IsOldest(pending, kind, o) && IsNewest(pending, o)
  {
    if o :| IsOldest(pending, kind, o) && IsNewest(pending, o) {
      assert pending[n].createdAt <= pending[o].createdAt;
    }
  }

  /** Otherwise every oldest one is deleted by this claim, or waits behind it. */
  lemma OldestPassedOver(pending: map<Name, Request>, kind: Option<string>, n: Name, o: Name)
    requires IsTarget(pending, kind, n) && IsOldest(pending, kind, o) && !IsOldest(pending, kind, n)
    ensures exists m :: m in Rivals(pending, o) && pending[m].createdAt > pending[o].createdAt
    ensures !SameWork(pending[o], pending[n]) ==> o !in Rivals(pending, n) && o != n
  {
    if IsNewest(pending, o) {
      TakesOldestWhen(pending, kind, n);
    }
    var m :| m in pending && SameWork(pending[m], pending[o]) && pending[m].createdAt > pending[o].createdAt;
    assert m in Rivals(pending, o);
  }

  /** An input on which the oldest is passed over: K asked for at 1 and again at 5,
      L at 3.  L is claimed. */
  lemma OldestNotTaken(pending: map<Name, Request>, k1: Request, k5: Request, l3: Request)
    requires pending == map["k1" := k1, "k5" := k5, "l3" := l3]
    requires k1.kind == k5.kind == l3.kind && k1.key == k5.key == "K" && l3.key == "L"
    requires k1.createdAt == 1 && k5.createdAt == 5 && l3.createdAt == 3
    ensures IsOldest(pending, None, "k1") && !IsOldest(pending, None, "l3")
    ensures forall n :: IsTarget(pending, None, n) <==> n == "l3"
  {
    assert pending["k1"] == k1 && pending["k5"] == k5 && pending["l3"] == l3;
    assert forall n | n in pending :: n == "k1" || n == "k5" || n == "l3";
    assert SameWork(k5, k1) && !SameWork(l3, k1);
    assert IsNewest(pending, "l3") && IsNewest(pending, "k5") && !IsNewest(pending, "k1");
  }

  /** The rest of `n`'s group, deleted by the claim that takes `n`. */
  function Rivals(pending: map<Name, Request>, n: Name): set<Name>
    requires n in pending
  {
    set m | m in pending && SameWork(pending[m], pending[n]) && m != n
  }

  function Stamped(r: Request, who: string, now: int): Request {
    r.(claimedBy := who, claimedAt := Some(now))
  }

  function ClaimTree(t: Tree, n: Name, who: string, now: int): Tree
    requires n in t.pending
  {
    t.(pending := t.pending - Rivals(t.pending, n) - {n},
       claimed := t.claimed[n := Stamped(t.pending[n], who, now)])
  }

  // ---- a claim that ends without an answer --------------------------------

  function Tried(r: Request): Request {
    r.(attempts := r.attempts + 1)
  }

  function Unclaimed(r: Request): Request {
    r.(claimedBy := "", claimedAt := None)
  }

  predicate Stale(r: Request, now: int, after: int) {
    r.claimedAt.Some? && now - r.claimedAt.value > after
  }

  function StaleClaims(t: Tree, now: int, after: int): set<Name> {
    set n | n in t.claimed && Stale(t.claimed[n], now, after)
  }

  /** The claims in `gone` with an attempt left, as they go back to pending. */
  function Requeued(claimed: map<Name, Request>, gone: set<Name>): map<Name, Request> {
    map n | n in gone && n in claimed && claimed[n].attempts + 1 < MAX_REQUEST_ATTEMPTS
      :: Unclaimed(Tried(claimed[n]))
  }

  /** The claims in `gone` without one, as they go to failed. */
  function GivenUp(claimed: map<Name, Request>, gone: set<Name>): map<Name, Failure> {
    map n | n in gone && n in claimed && claimed[n].attempts + 1 >= MAX_REQUEST_ATTEMPTS
      :: GaveUp(Tried(claimed[n]), "stale_claim")
  }

  function ReclaimTree(t: Tree, gone: set<Name>): Tree {
    Tree(t.pending + Requeued(t.claimed, gone), t.claimed - gone,
         t.failed + GivenUp(t.claimed, gone), t.results)
  }

  /** `record` is the one the researcher holds, not the one in the tree. */
  function FailTree(t: Tree, n: Name, record: Request, category: string, maxAttempts: int): Tree {
    if record.attempts + 1 >= maxAttempts then
      t.(claimed := t.claimed - {n}, failed := t.failed[n := GaveUp(Tried(record), category)])
    else
      t.(claimed := t.claimed - {n}, pending := t.pending[n := Unclaimed(Tried(record))])
  }

  // ---- answers -----------------------------------------------------------

  function AnswerTo(r: Request, body: string): Answer {
    Answer(r.kind, r.key, r.runId, body)
  }

  function CompleteTree(t: Tree, n: Name, record: Request, body: string): Tree {
    t.(claimed := t.claimed - {n},
       results := t.results[ResultName(record.runId, record.key) := AnswerTo(record, body)])
  }

  function ConsumeTree(t: Tree, result: Name): Tree {
    t.(results := t.results - {result})
  }

  function RejectTree(t: Tree, result: Name, reason: string): Tree
    requires result in t.results
  {
    t.(results := t.results - {result},
       failed := t.failed[RefusedName(result) := Refused(t.results[result], reason)])
  }
}
