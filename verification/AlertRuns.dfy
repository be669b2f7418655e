/**
 Whole runs of dispatches: what a fingerprint goes through from the tick that
 first sees it to the tick that no longer does.

 An episode of a fingerprint is an unbroken stretch of dispatches that see it.
 A dispatch whose sink cannot be built is not one of them: it is not
 remembered, whatever it saw.
 */
module AlertRuns {
  import opened Wrappers
  import opened Alerts
  import opened AlertDispatch
  import opened Numbers

  datatype Tick = Tick(health: Assessment, now: int, sink: Sink)

  function After(ticks: seq<Tick>): Book {
    if ticks == [] then map[]
    else
      var t := ticks[|ticks| - 1];
      NextBook(After(ticks[..|ticks| - 1]), t.health, t.now, t.sink)
  }

  /** The book tick `i` starts from. */
  function Before(ticks: seq<Tick>, i: nat): Book
    requires i <= |ticks|
  {
    After(ticks[..i])
  }

  predicate Seen(t: Tick, fp: Fp) {
    fp in Fps(FindingsOf(t.health))
  }

  /** Seen by a dispatch that was remembered, or not asked. */
  predicate Unbroken(t: Tick, fp: Fp) {
    t.sink.Unbuildable? || Seen(t, fp)
  }

  /** The finding a tick sees under a fingerprint. */
  function FindingIn(fs: seq<Finding>, fp: Fp): (f: Finding)
    requires fp in Fps(fs)
    ensures f in fs && FpOf(f) == fp
  {
    if FpOf(fs[0]) == fp then fs[0]
    else
      assert fs == [fs[0]] + fs[1..];
      FindingIn(fs[1..], fp)
  }

  function AlertAt(book: Book, t: Tick, fp: Fp): Option<Alert> {
    if t.sink.Unbuildable? || !Seen(t, fp) then None
    else
      var fs := FindingsOf(t.health);
      AlertFor(book, fs, FindingIn(fs, fp), t.now)
  }

  predicate Sent(book: Book, t: Tick, fp: Fp) {
    AlertAt(book, t, fp).Some? && fp !in t.sink.failing
  }

  predicate FailedSend(book: Book, t: Tick, fp: Fp) {
    AlertAt(book, t, fp).Some? && fp in t.sink.failing
  }

  predicate ReportedRecovered(book: Book, t: Tick, fp: Fp) {
    t.sink.Sends? && fp in Recovered(book, FindingsOf(t.health))
  }

  // ---- one step of one fingerprint ---------------------------------------

  lemma StepAt(book: Book, t: Tick, fp: Fp)
    ensures var b := NextBook(book, t.health, t.now, t.sink);
            && (t.sink.Unbuildable? ==> b == book)
            && (t.sink.Sends? ==> (fp in b <==> Seen(t, fp)))
            && (t.sink.Sends? && Seen(t, fp) ==>
                  var fs := FindingsOf(t.health);
                  b[fp] == NextEntry(book, fs, FindingIn(fs, fp), t.now, t.sink.failing))
  {
    if t.sink.Sends? {
      NextBookAt(book, t.health, t.now, t.sink.failing);
    }
  }

  lemma Split(ticks: seq<Tick>, i: nat)
    requires i < |ticks|
    ensures Before(ticks, i + 1)
              == Next(Before(ticks, i), ticks[i])
  {
    assert ticks[..i + 1][..i] == ticks[..i];
  }

  // ---- sent once per episode ---------------------------------------------

  predicate Delivered(book: Book, fp: Fp) {
    fp in book && book[fp].undelivered.None?
  }

  function Next(book: Book, t: Tick): Book {
    NextBook(book, t.health, t.now, t.sink)
  }

  lemma SentDelivers(book: Book, t: Tick, fp: Fp)
    requires Sent(book, t, fp)
    ensures Delivered(Next(book, t), fp)
  {
    StepAt(book, t, fp);
  }

  lemma DeliveredStays(book: Book, t: Tick, fp: Fp)
    requires Delivered(book, fp) && Unbroken(t, fp)
    ensures Delivered(Next(book, t), fp) && !Sent(book, t, fp)
  {
    StepAt(book, t, fp);
  }

  /** What is delivered after a tick was sent by it, or was delivered already. */
  lemma DeliveredFrom(book: Book, t: Tick, fp: Fp)
    requires Delivered(Next(book, t), fp)
    ensures Sent(book, t, fp) || (Delivered(book, fp) && Unbroken(t, fp))
  {
    StepAt(book, t, fp);
  }

  /** What holds once and is handed on at every index holds at the end. */
  lemma {:induction false} HandedOn(holds: seq<bool>, i: nat, j: nat)
    requires i <= j < |holds| && holds[i] && forall k | i <= k < j :: holds[k] ==> holds[k + 1]
    ensures holds[j]
    decreases j
  {
    if i < j {
      HandedOn(holds, i, j - 1);
    }
  }

  lemma TickSends(ticks: seq<Tick>, k: nat, fp: Fp)
    requires k < |ticks| && Sent(Before(ticks, k), ticks[k], fp)
    ensures Delivered(Before(ticks, k + 1), fp)
  {
    Split(ticks, k);
    SentDelivers(Before(ticks, k), ticks[k], fp);
  }

  lemma TickKeeps(ticks: seq<Tick>, k: nat, fp: Fp)
    requires k < |ticks| && Delivered(Before(ticks, k), fp) && Unbroken(ticks[k], fp)
    ensures Delivered(Before(ticks, k + 1), fp)
  {
    Split(ticks, k);
    DeliveredStays(Before(ticks, k), ticks[k], fp);
  }

  /** Delivered stays delivered while the fingerprint is there. */
  lemma StaysDelivered(ticks: seq<Tick>, i: nat, j: nat, fp: Fp)
    requires i < j <= |ticks| && Sent(Before(ticks, i), ticks[i], fp)
    requires forall k | i < k < j :: Unbroken(ticks[k], fp)
    ensures Delivered(Before(ticks, j), fp)
  {
    hide Delivered, Before, Sent, Unbroken;
    var delivered := seq(j + 1, k requires 0 <= k <= j => Delivered(Before(ticks, k), fp));
    TickSends(ticks, i, fp);
    forall k | i + 1 <= k < j ensures delivered[k] ==> delivered[k + 1] {
      if delivered[k] {
        TickKeeps(ticks, k, fp);
      }
    }
    HandedOn(delivered, i + 1, j);
  }

  lemma NotSentAgain(book: Book, t: Tick, fp: Fp)
    requires Delivered(book, fp)
    ensures !Sent(book, t, fp)
  {
  }

  /** No fingerprint is sent twice without a dispatch that did not see it
      between the two. */
  lemma SentOncePerEpisode(ticks: seq<Tick>, i: nat, j: nat, fp: Fp)
    requires i < j < |ticks|
    requires Sent(Before(ticks, i), ticks[i], fp) && Sent(Before(ticks, j), ticks[j], fp)
    ensures exists k :: i < k < j && !Unbroken(ticks[k], fp)
  {
    if forall k | i < k < j :: Unbroken(ticks[k], fp) {
      StaysDelivered(ticks, i, j, fp);
      NotSentAgain(Before(ticks, j), ticks[j], fp);
      assert false;
    }
  }

  // ---- recovered means delivered -----------------------------------------

  /** Delivered now, and never without a send or having been delivered the tick
      before: then some send was the last, and nothing broke the episode since. */
  lemma {:induction false} LastSend(delivered: seq<bool>, sent: seq<bool>, unbroken: seq<bool>, j: nat) returns (i: nat)
    requires |sent| == |unbroken| && j <= |sent| && |delivered| == j + 1 && !delivered[0] && delivered[j]
    requires forall k | 0 <= k < j :: delivered[k + 1] ==> sent[k] || (delivered[k] && unbroken[k])
    ensures i < j && sent[i] && forall k | i < k < j :: unbroken[k]
    decreases j
  {
    if sent[j - 1] {
      i := j - 1;
    } else {
      i := LastSend(delivered[..j], sent, unbroken, j - 1);
    }
  }

  lemma TickDelivers(ticks: seq<Tick>, k: nat, fp: Fp)
    requires k < |ticks| && Delivered(Before(ticks, k + 1), fp)
    ensures Sent(Before(ticks, k), ticks[k], fp) || (Delivered(Before(ticks, k), fp) && Unbroken(ticks[k], fp))
  {
    Split(ticks, k);
    DeliveredFrom(Before(ticks, k), ticks[k], fp);
  }

  /** An entry that is not waiting for a retry was delivered in this episode. */
  lemma DeliveredBefore(ticks: seq<Tick>, j: nat, fp: Fp) returns (i: nat)
    requires j <= |ticks| && Delivered(Before(ticks, j), fp)
    ensures i < j && Sent(Before(ticks, i), ticks[i], fp)
    ensures forall k | i < k < j :: Unbroken(ticks[k], fp)
  {
    hide Sent, Unbroken;
    var delivered := seq(j + 1, k requires 0 <= k <= j => Delivered(Before(ticks, k), fp));
    var sent := seq(j, k requires 0 <= k < j => Sent(Before(ticks, k), ticks[k], fp));
    var unbroken := seq(j, k requires 0 <= k < j => Unbroken(ticks[k], fp));
    forall k | 0 <= k < j ensures delivered[k + 1] ==> sent[k] || (delivered[k] && unbroken[k]) {
      if delivered[k + 1] {
        TickDelivers(ticks, k, fp);
      }
    }
    i := LastSend(delivered, sent, unbroken, j);
    assert sent[i] && forall k | i < k < j :: unbroken[k] == Unbroken(ticks[k], fp);
  }

  lemma RecoveredWasDelivered(ticks: seq<Tick>, j: nat, fp: Fp)
    requires j < |ticks| && ReportedRecovered(Before(ticks, j), ticks[j], fp)
    ensures exists i :: 0 <= i < j && Sent(Before(ticks, i), ticks[i], fp)
              && forall k | i < k < j :: Unbroken(ticks[k], fp)
  {
    var i := DeliveredBefore(ticks, j, fp);
  }

  // ---- what every remembered entry satisfies -----------------------------

  predicate Kept(fp: Fp, e: Entry) {
    && Fingerprint(e.category, e.db, e.source, e.detail) == fp
    && (fp.detail == "" || (fp.db == "-" && fp.source == "-"))
    && (e.alertedAt.Some? <==> e.undelivered.None?)
    && (e.undelivered.Some? ==>
          && e.undelivered.value.retryAt.Some? && e.undelivered.value.failures > 0
          && (e.undelivered.value.reason.Escalation? ==> FpKey(fp).Subject?))
  }

  ghost predicate WellKept(book: Book) {
    forall fp | fp in book :: Kept(fp, book[fp])
  }

  /** A global finding displaces nothing: its key is its own kind. */
  lemma GlobalReplacesNothing(book: Book, fs: seq<Finding>, f: Finding)
    requires f in fs && FindingKey(f).Kind?
    ensures Replaced(book, fs, FindingKey(f)) == {}
  {
    assert f.category in CurrentOf(fs, FindingKey(f));
  }

  lemma ReasonKept(book: Book, fs: seq<Finding>, f: Finding, now: int)
    requires WellKept(book) && f in fs && AlertFor(book, fs, f, now).Some?
    ensures AlertFor(book, fs, f, now).value.reason.Escalation? ==> FindingKey(f).Subject?
  {
    KeyOfFinding(f);
    if FindingKey(f).Kind? {
      GlobalReplacesNothing(book, fs, f);
    }
    if FpOf(f) in book {
      assert Kept(FpOf(f), book[FpOf(f)]);
    }
  }

  lemma RememberedKept(book: Book, f: Finding, now: int)
    requires WellKept(book) && Shaped(f)
    ensures Kept(FpOf(f), Remembered(book, f, now)) || (FpOf(f) in book && book[FpOf(f)].undelivered.Some?)
    ensures var e := Remembered(book, f, now);
            Fingerprint(e.category, e.db, e.source, e.detail) == FpOf(f)
            && (e.undelivered.Some? ==> Kept(FpOf(f), e))
            && (e.undelivered.None? ==> e.alertedAt.Some?)
  {
    if FpOf(f) in book {
      assert Kept(FpOf(f), book[FpOf(f)]);
    }
  }

  lemma StepKeeps(book: Book, t: Tick, fp: Fp)
    requires WellKept(book) && t.sink.Sends? && Seen(t, fp)
    ensures var fs := FindingsOf(t.health);
            Kept(fp, NextEntry(book, fs, FindingIn(fs, fp), t.now, t.sink.failing))
  {
    var fs := FindingsOf(t.health);
    var f := FindingIn(fs, fp);
    KeyOfFinding(f);
    assert Shaped(f);
    RememberedKept(book, f, t.now);
    if AlertFor(book, fs, f, t.now).Some? {
      ReasonKept(book, fs, f, t.now);
    }
  }

  lemma {:induction false} RunKept(ticks: seq<Tick>)
    ensures WellKept(After(ticks))
  {
    if ticks != [] {
      var front, t := ticks[..|ticks| - 1], ticks[|ticks| - 1];
      RunKept(front);
      forall fp | fp in After(ticks) ensures Kept(fp, After(ticks)[fp]) {
        StepAt(After(front), t, fp);
        if t.sink.Sends? {
          StepKeeps(After(front), t, fp);
        }
      }
    }
  }

  // ---- vanishing ---------------------------------------------------------

  /** Nothing was delivered in the episode that ends at tick `j`. */
  ghost predicate NeverDelivered(ticks: seq<Tick>, j: nat, fp: Fp)
    requires j <= |ticks|
  {
    forall i | 0 <= i < j && Sent(Before(ticks, i), ticks[i], fp) ::
      exists k :: i < k < j && !Unbroken(ticks[k], fp)
  }

  ghost predicate ReplacedBy(book: Book, t: Tick, fp: Fp, a: Alert) {
    var fs := FindingsOf(t.health);
    && a in AlertsFor(book, fs, fs, t.now)
    && FindingKey(a.finding) == FpKey(fp) && a.reason.Escalation?
    && FpOf(a.finding) !in book && a.finding.category != fp.category
  }

  /** A (db, source) finding is its category. */
  lemma SameSubject(f: Finding, g: Fp)
    requires Shaped(f) && FindingKey(f) == FpKey(g) && FpKey(g).Subject? && f.category == g.category
    requires (g.detail == "" || (g.db == "-" && g.source == "-")) && OrDash(g.db) == g.db && OrDash(g.source) == g.source
    ensures FpOf(f) == g
  {
  }

  /** With the fingerprint gone, so is its category; a global one is not
      replaced at all. */
  lemma StillNamed(book: Book, t: Tick, fp: Fp)
    requires fp in book && Kept(fp, book[fp]) && !Seen(t, fp)
    ensures FpKey(fp).Subject? ==> fp.category !in CurrentOf(FindingsOf(t.health), FpKey(fp))
    ensures FpKey(fp).Kind? ==> Arrived(book, FindingsOf(t.health), FpKey(fp)) == {}
  {
    var fs := FindingsOf(t.health);
    forall g | g in fs && FindingKey(g) == FpKey(fp) && FpKey(fp).Subject? ensures g.category != fp.category {
      if g.category == fp.category {
        SameSubject(g, fp);
      }
    }
    assert book[fp].category in PriorOf(book, FpKey(fp));
  }

  lemma KnownCategory(book: Book, f: Finding)
    requires WellKept(book) && FpOf(f) in book
    ensures f.category in PriorOf(book, FindingKey(f))
  {
    KeyOfFinding(f);
    assert Kept(FpOf(f), book[FpOf(f)]);
  }

  /** A category that arrives where `fp` vanished is alerted as an escalation. */
  lemma ArrivalEscalates(book: Book, t: Tick, fp: Fp) returns (a: Alert)
    requires WellKept(book) && t.sink.Sends? && fp in book && !Seen(t, fp)
    requires Arrived(book, FindingsOf(t.health), EntryKey(book[fp])) != {}
    ensures ReplacedBy(book, t, fp, a)
  {
    var fs := FindingsOf(t.health);
    var key := EntryKey(book[fp]);
    assert Kept(fp, book[fp]) && key == FpKey(fp);
    var c :| c in Arrived(book, fs, key);
    var f :| f in fs && FindingKey(f) == key && f.category == c;
    assert book[fp].category in PriorOf(book, key);
    if FpOf(f) in book {
      KnownCategory(book, f);
    }
    StillNamed(book, t, fp);
    assert book[fp].category in Replaced(book, fs, key);
    AlertsCover(book, fs, fs, f, t.now);
    a := AlertFor(book, fs, f, t.now).value;
  }

  /** Every fingerprint that vanishes is accounted for once: reported recovered,
      never delivered, or replaced on its key by a category that the same
      evaluation alerts as an escalation. */
  lemma VanishedIsAccounted(ticks: seq<Tick>, j: nat, fp: Fp)
    requires j < |ticks| && ticks[j].sink.Sends? && fp in Before(ticks, j) && !Seen(ticks[j], fp)
    ensures var book := Before(ticks, j);
            var replaced := exists a :: ReplacedBy(book, ticks[j], fp, a);
            && One(ReportedRecovered(book, ticks[j], fp)) + One(!replaced && NeverDelivered(ticks, j, fp)) + One(replaced) == 1
            && fp !in Before(ticks, j + 1)
  {
    var book := Before(ticks, j);
    RunKept(ticks[..j]);
    Split(ticks, j);
    StepAt(book, ticks[j], fp);
    var fs := FindingsOf(ticks[j].health);
    assert Kept(fp, book[fp]);
    if Arrived(book, fs, EntryKey(book[fp])) != {} {
      var a := ArrivalEscalates(book, ticks[j], fp);
    } else {
      if a :| ReplacedBy(book, ticks[j], fp, a) {
        NotReplaced(book, ticks[j], fp, a);
      }
      if book[fp].undelivered.None? {
        var i := DeliveredBefore(ticks, j, fp);
      } else {
        forall i | 0 <= i < j && Sent(Before(ticks, i), ticks[i], fp)
          ensures exists k :: i < k < j && !Unbroken(ticks[k], fp)
        {
          if forall k | i < k < j :: Unbroken(ticks[k], fp) {
            StaysDelivered(ticks, i, j, fp);
          }
        }
      }
    }
  }

  lemma NotReplaced(book: Book, t: Tick, fp: Fp, a: Alert)
    requires WellKept(book) && fp in book && ReplacedBy(book, t, fp, a)
    ensures Arrived(book, FindingsOf(t.health), EntryKey(book[fp])) != {}
  {
    var fs := FindingsOf(t.health);
    var i :| 0 <= i < |AlertsFor(book, fs, fs, t.now)| && AlertsFor(book, fs, fs, t.now)[i] == a;
    AlertsAreOf(book, fs, fs, t.now, i);
    var key := EntryKey(book[fp]);
    assert Kept(fp, book[fp]);
    assert a.finding.category in CurrentOf(fs, key);
    forall g | g in book && EntryKey(book[g]) == key ensures book[g].category != a.finding.category {
      assert Kept(g, book[g]);
      if book[g].category == a.finding.category && key.Subject? {
        SameSubject(a.finding, g);
      }
    }
    assert a.finding.category in Arrived(book, fs, key);
  }

  /** A global finding is never alerted as an escalation, however it is retried. */
  lemma GlobalNeverEscalates(ticks: seq<Tick>, j: nat, f: Finding)
    requires j < |ticks|
    requires var fs := FindingsOf(ticks[j].health);
             f in fs && FindingKey(f).Kind? && AlertFor(Before(ticks, j), fs, f, ticks[j].now).Some?
    ensures AlertFor(Before(ticks, j), FindingsOf(ticks[j].health), f, ticks[j].now).value.reason.New?
  {
    RunKept(ticks[..j]);
    KeyOfFinding(f);
    GlobalReplacesNothing(Before(ticks, j), FindingsOf(ticks[j].health), f);
    if FpOf(f) in Before(ticks, j) {
      assert Kept(FpOf(f), Before(ticks, j)[FpOf(f)]);
    }
  }

  // ---- back-off ----------------------------------------------------------

  function BeganAfter(was: Option<int>, t: Tick, fp: Fp): Option<int> {
    if t.sink.Unbuildable? then was
    else if !Seen(t, fp) then None
    else if was.Some? then was else Some(t.now)
  }

  /** When the episode `fp` is in began. */
  function Began(ticks: seq<Tick>, fp: Fp): Option<int> {
    if ticks == [] then None
    else BeganAfter(Began(ticks[..|ticks| - 1], fp), ticks[|ticks| - 1], fp)
  }

  function FailedAfter(was: nat, book: Book, t: Tick, fp: Fp): nat {
    if t.sink.Unbuildable? then was
    else if !Seen(t, fp) then 0
    else was + One(FailedSend(book, t, fp))
  }

  /** How many sends failed in it. */
  function FailedSince(ticks: seq<Tick>, fp: Fp): nat {
    if ticks == [] then 0
    else
      var front := ticks[..|ticks| - 1];
      FailedAfter(FailedSince(front, fp), After(front), ticks[|ticks| - 1], fp)
  }

  function TotalDelay(n: nat): int {
    if n == 0 then 0 else TotalDelay(n - 1) + Delay(n)
  }

  lemma {:induction false} Pow2Grows(a: nat, b: nat)
    requires a <= b
    ensures Pow2(a) <= Pow2(b)
  {
    if a < b {
      Pow2Grows(a, b - 1);
    }
  }

  lemma FirstDelays()
    ensures Delay(1) == 1800 && Delay(2) == 3600 && Delay(3) == 7200 && Delay(4) == 14400 && Delay(5) == 28800
    ensures Pow2(5) == 32
  {
    assert Pow2(0) == 1;
    assert Pow2(1) == 2;
    assert Pow2(2) == 4;
    assert Pow2(3) == 8;
    assert Pow2(4) == 16;
  }

  /** 30 minutes doubling to 12 hours: after five failures 15.5 hours, then 12
      hours each. */
  lemma {:induction false} TotalDelayClosed(n: nat)
    requires n >= 5
    ensures TotalDelay(n) == 55800 + 43200 * (n - 5)
  {
    FirstDelays();
    if n == 5 {
      assert TotalDelay(1) == 1800;
      assert TotalDelay(2) == 5400;
      assert TotalDelay(3) == 12600;
      assert TotalDelay(4) == 27000;
    } else {
      TotalDelayClosed(n - 1);
      Pow2Grows(5, Min(n - 1, 16));
    }
  }

  /** The entry of a fingerprint, against when its episode began and how many
      sends failed in it. */
  ghost predicate BackedOff(book: Book, fp: Fp, began: Option<int>, failed: nat) {
    && (fp in book <==> began.Some?)
    && (fp !in book ==> failed == 0)
    && (fp in book ==> book[fp].firstSeen == began.value)
    && (fp in book && book[fp].undelivered.Some? ==>
          var u := book[fp].undelivered.value;
          u.failures == failed && u.retryAt.Some?
          && u.retryAt.value >= book[fp].firstSeen + TotalDelay(u.failures))
  }

  lemma StepBacksOff(book: Book, t: Tick, fp: Fp, began: Option<int>, failed: nat)
    requires BackedOff(book, fp, began, failed)
    ensures BackedOff(Next(book, t), fp, BeganAfter(began, t, fp), FailedAfter(failed, book, t, fp))
  {
    StepAt(book, t, fp);
    if t.sink.Sends? && Seen(t, fp) {
      var fs := FindingsOf(t.health);
      EntryBacksOff(book, fs, FindingIn(fs, fp), t, began, failed);
    }
  }

  lemma EntryBacksOff(book: Book, fs: seq<Finding>, f: Finding, t: Tick, began: Option<int>, failed: nat)
    requires t.sink.Sends? && BackedOff(book, FpOf(f), began, failed)
    ensures var e := NextEntry(book, fs, f, t.now, t.sink.failing);
            var n := failed + One(AlertFor(book, fs, f, t.now).Some? && FpOf(f) in t.sink.failing);
            && e.firstSeen == (if began.Some? then began.value else t.now)
            && (e.undelivered.Some? ==>
                  && e.undelivered.value.failures == n && e.undelivered.value.retryAt.Some?
                  && e.undelivered.value.retryAt.value >= e.firstSeen + TotalDelay(n))
  {
  }

  lemma {:induction false} RunBacksOff(ticks: seq<Tick>, fp: Fp)
    ensures BackedOff(After(ticks), fp, Began(ticks, fp), FailedSince(ticks, fp))
  {
    if ticks != [] {
      var front, t := ticks[..|ticks| - 1], ticks[|ticks| - 1];
      RunBacksOff(front, fp);
      StepBacksOff(After(front), t, fp, Began(front, fp), FailedSince(front, fp));
    }
  }

  /** The attempt after `n` failures comes at least `TotalDelay(n)` after the
      episode's first. */
  lemma RetriesBackOff(ticks: seq<Tick>, j: nat, fp: Fp)
    requires j < |ticks| && AlertAt(Before(ticks, j), ticks[j], fp).Some?
    requires FailedSince(ticks[..j], fp) > 0
    ensures var n := FailedSince(ticks[..j], fp);
            var first := Began(ticks[..j], fp);
            && first.Some? && ticks[j].now >= first.value + TotalDelay(n)
            && (n >= 5 ==> ticks[j].now >= first.value + 55800 + 43200 * (n - 5))
  {
    RunBacksOff(ticks[..j], fp);
    var n := FailedSince(ticks[..j], fp);
    if n >= 5 {
      TotalDelayClosed(n);
    }
  }

  /** A send that failed is tried again exactly when a dispatch that sees it comes
      after the delay. */
  lemma {:induction false} NextAttempt(ticks: seq<Tick>, i: nat, j: nat, fp: Fp)
    requires i < j < |ticks| && FailedSend(Before(ticks, i), ticks[i], fp)
    requires forall k | i < k < j :: Unbroken(ticks[k], fp) && AlertAt(Before(ticks, k), ticks[k], fp).None?
    requires ticks[j].sink.Sends? && Seen(ticks[j], fp)
    ensures var n := FailedSince(ticks[..i + 1], fp);
            n > 0 && (AlertAt(Before(ticks, j), ticks[j], fp).Some? <==> ticks[j].now >= ticks[i].now + Delay(n))
  {
    RunBacksOff(ticks[..i + 1], fp);
    Split(ticks, i);
    var u := FailureRemembered(Before(ticks, i), ticks[i], fp);
    Waits(ticks, i, j, fp, u);
    RetryTaken(Before(ticks, j), ticks[j], fp, u);
  }

  lemma RetryTaken(book: Book, t: Tick, fp: Fp, u: Retry)
    requires Waiting(book, fp, u) && t.sink.Sends? && Seen(t, fp) && u.retryAt.Some?
    ensures AlertAt(book, t, fp).Some? <==> t.now >= u.retryAt.value
  {
  }

  /** Waiting for the retry that a failed send set. */
  predicate Waiting(book: Book, fp: Fp, u: Retry) {
    fp in book && book[fp].undelivered == Some(u)
  }

  lemma FailureRemembered(book: Book, t: Tick, fp: Fp) returns (u: Retry)
    requires FailedSend(book, t, fp)
    ensures Waiting(Next(book, t), fp, u) && u.failures > 0 && u.retryAt == Some(t.now + Delay(u.failures))
  {
    var fs := FindingsOf(t.health);
    u := NextEntry(book, fs, FindingIn(fs, fp), t.now, t.sink.failing).undelivered.value;
    StepAt(book, t, fp);
  }

  lemma StillWaiting(book: Book, t: Tick, fp: Fp, u: Retry)
    requires Waiting(book, fp, u) && Unbroken(t, fp) && AlertAt(book, t, fp).None?
    ensures Waiting(Next(book, t), fp, u)
  {
    StepAt(book, t, fp);
  }

  lemma TickWaits(ticks: seq<Tick>, k: nat, fp: Fp, u: Retry)
    requires k < |ticks| && Waiting(Before(ticks, k), fp, u)
    requires Unbroken(ticks[k], fp) && AlertAt(Before(ticks, k), ticks[k], fp).None?
    ensures Waiting(Before(ticks, k + 1), fp, u)
  {
    Split(ticks, k);
    StillWaiting(Before(ticks, k), ticks[k], fp, u);
  }

  lemma Waits(ticks: seq<Tick>, i: nat, j: nat, fp: Fp, u: Retry)
    requires i < j <= |ticks| && Waiting(Before(ticks, i + 1), fp, u)
    requires forall k | i < k < j :: Unbroken(ticks[k], fp) && AlertAt(Before(ticks, k), ticks[k], fp).None?
    ensures Waiting(Before(ticks, j), fp, u)
  {
    hide Waiting, Before, AlertAt, Unbroken;
    var waiting := seq(j + 1, k requires 0 <= k <= j => Waiting(Before(ticks, k), fp, u));
    forall k | i + 1 <= k < j ensures waiting[k] ==> waiting[k + 1] {
      if waiting[k] {
        TickWaits(ticks, k, fp, u);
      }
    }
    HandedOn(waiting, i + 1, j);
  }
}
