/**
 What the alerts of a run say, against the assessments alone: the first alert of
 an episode, the retry of a send that failed, and what is remembered meanwhile.
 */
module AlertHistory {
  import opened Wrappers
  import opened Alerts
  import opened AlertDispatch
  import opened AlertRuns
  import opened Numbers
  import Text

  // ---- the first alert of an episode -------------------------------------

  /** A category remembered of this database and source that no current finding of
      theirs has. */
  ghost predicate Vanished(book: Book, fs: seq<Finding>, db: string, source: string, c: string) {
    && (exists g :: g in book && g.db == db && g.source == source && g.category == c)
    && !(exists h :: h in fs && FpOf(h).db == db && FpOf(h).source == source && h.category == c)
  }

  lemma KeyOfFp(fp: Fp)
    requires OrDash(fp.db) == fp.db && OrDash(fp.source) == fp.source && !(fp.db == "-" && fp.source == "-")
    ensures FpKey(fp) == Subject(fp.db, fp.source)
  {
  }

  /** What a subject's key loses are its vanished categories. */
  lemma ReplacedIs(book: Book, fs: seq<Finding>, f: Finding, c: string)
    requires WellKept(book) && !Global(f)
    ensures c in Replaced(book, fs, FindingKey(f)) <==> Vanished(book, fs, FpOf(f).db, FpOf(f).source, c)
  {
    var key := FindingKey(f);
    KeyOfFinding(f);
    KeyOfFp(FpOf(f));
    forall g | g in book
      ensures EntryKey(book[g]) == key <==> g.db == FpOf(f).db && g.source == FpOf(f).source
      ensures book[g].category == g.category
    {
      assert Kept(g, book[g]);
    }
    forall h | h in fs
      ensures FindingKey(h) == key <==> FpOf(h).db == FpOf(f).db && FpOf(h).source == FpOf(f).source
    {
      KeyOfFinding(h);
    }
  }

  /** A finding not remembered is alerted: as new, or, if categories vanished from
      its database and source, as an escalation from the first of them. */
  ghost predicate FirstAlert(book: Book, fs: seq<Finding>, f: Finding, now: int, a: Alert) {
    && a.finding == f && a.firstSeen == now && a.at == now
    && (a.reason.New? <==> a.from.None?)
    && (Global(f) ==> a.reason.New?)
    && (!Global(f) ==>
          && (a.reason.New? <==> forall c :: !Vanished(book, fs, FpOf(f).db, FpOf(f).source, c))
          && (a.from.Some? ==>
                && Vanished(book, fs, FpOf(f).db, FpOf(f).source, a.from.value)
                && forall c | Vanished(book, fs, FpOf(f).db, FpOf(f).source, c) :: Text.Leq(a.from.value, c)))
  }

  lemma AlertedFirst(book: Book, fs: seq<Finding>, f: Finding, now: int)
    requires WellKept(book) && f in fs && FpOf(f) !in book
    ensures AlertFor(book, fs, f, now).Some? && FirstAlert(book, fs, f, now, AlertFor(book, fs, f, now).value)
  {
    if Global(f) {
      GlobalReplacesNothing(book, fs, f);
    } else {
      forall c ensures c in Replaced(book, fs, FindingKey(f)) <==> Vanished(book, fs, FpOf(f).db, FpOf(f).source, c) {
        ReplacedIs(book, fs, f, c);
      }
      if Replaced(book, fs, FindingKey(f)) == {} {
        assert forall c :: !Vanished(book, fs, FpOf(f).db, FpOf(f).source, c);
      } else {
        var c :| c in Replaced(book, fs, FindingKey(f));
        assert Vanished(book, fs, FpOf(f).db, FpOf(f).source, c);
      }
    }
  }

  /** Over a run: the first dispatch of an episode alerts it, and says what it is an
      escalation from. */
  lemma FirstOfEpisode(ticks: seq<Tick>, i: nat, fp: Fp)
    requires i < |ticks| && ticks[i].sink.Sends? && Seen(ticks[i], fp) && fp !in Before(ticks, i)
    ensures var t := ticks[i];
            var a := AlertAt(Before(ticks, i), t, fp);
            && a.Some? && FpOf(a.value.finding) == fp
            && FirstAlert(Before(ticks, i), FindingsOf(t.health), a.value.finding, t.now, a.value)
  {
    var fs := FindingsOf(ticks[i].health);
    RunKept(ticks[..i]);
    AlertedFirst(Before(ticks, i), fs, FindingIn(fs, fp), ticks[i].now);
  }

  // ---- retries -----------------------------------------------------------

  /** Waiting to be sent again as `a` was. */
  predicate Owes(book: Book, fp: Fp, a: Alert) {
    && fp in book && book[fp].undelivered.Some?
    && book[fp].undelivered.value.reason == a.reason && book[fp].undelivered.value.from == a.from
    && book[fp].firstSeen == a.firstSeen
  }

  lemma FailureOwes(book: Book, t: Tick, fp: Fp)
    requires FailedSend(book, t, fp)
    ensures Owes(Next(book, t), fp, AlertAt(book, t, fp).value)
  {
    StepAt(book, t, fp);
  }

  lemma StillOwes(book: Book, t: Tick, fp: Fp, a: Alert)
    requires Owes(book, fp, a) && Unbroken(t, fp) && AlertAt(book, t, fp).None?
    ensures Owes(Next(book, t), fp, a)
  {
    StepAt(book, t, fp);
  }

  lemma TickOwes(ticks: seq<Tick>, k: nat, fp: Fp, a: Alert)
    requires k < |ticks| && Owes(Before(ticks, k), fp, a)
    requires Unbroken(ticks[k], fp) && AlertAt(Before(ticks, k), ticks[k], fp).None?
    ensures Owes(Before(ticks, k + 1), fp, a)
  {
    Split(ticks, k);
    StillOwes(Before(ticks, k), ticks[k], fp, a);
  }

  lemma Owed(ticks: seq<Tick>, i: nat, j: nat, fp: Fp, a: Alert)
    requires i < j <= |ticks| && Owes(Before(ticks, i + 1), fp, a)
    requires forall k | i < k < j :: Unbroken(ticks[k], fp) && AlertAt(Before(ticks, k), ticks[k], fp).None?
    ensures Owes(Before(ticks, j), fp, a)
  {
    hide Owes, Before, AlertAt, Unbroken;
    var owes := seq(j + 1, k requires 0 <= k <= j => Owes(Before(ticks, k), fp, a));
    forall k | i + 1 <= k < j ensures owes[k] ==> owes[k + 1] {
      if owes[k] {
        TickOwes(ticks, k, fp, a);
      }
    }
    HandedOn(owes, i + 1, j);
  }

  lemma PaysAsOwed(book: Book, t: Tick, fp: Fp, a: Alert)
    requires Owes(book, fp, a) && AlertAt(book, t, fp).Some?
    ensures var b := AlertAt(book, t, fp).value;
            && FpOf(b.finding) == fp && b.at == t.now
            && b.reason == a.reason && b.from == a.from && b.firstSeen == a.firstSeen
  {
  }

  /** A send that failed is sent again as what it was: the next alert of the same
      episode has its reason, what it escalated from, and when it was first
      seen. */
  lemma RetriedAsItWas(ticks: seq<Tick>, i: nat, j: nat, fp: Fp)
    requires i < j < |ticks| && FailedSend(Before(ticks, i), ticks[i], fp)
    requires forall k | i < k < j :: Unbroken(ticks[k], fp) && AlertAt(Before(ticks, k), ticks[k], fp).None?
    requires AlertAt(Before(ticks, j), ticks[j], fp).Some?
    ensures var a, b := AlertAt(Before(ticks, i), ticks[i], fp).value, AlertAt(Before(ticks, j), ticks[j], fp).value;
            && FpOf(b.finding) == fp && b.at == ticks[j].now
            && b.reason == a.reason && b.from == a.from && b.firstSeen == a.firstSeen
  {
    var a := AlertAt(Before(ticks, i), ticks[i], fp).value;
    Split(ticks, i);
    FailureOwes(Before(ticks, i), ticks[i], fp);
    Owed(ticks, i, j, fp, a);
    PaysAsOwed(Before(ticks, j), ticks[j], fp, a);
  }

  // ---- what is remembered ------------------------------------------------

  function SeenAfter(was: nat, t: Tick, fp: Fp): nat {
    if t.sink.Unbuildable? then was else if Seen(t, fp) then was + 1 else 0
  }

  /** How many dispatches of the present episode saw `fp`. */
  function SeenSince(ticks: seq<Tick>, fp: Fp): nat {
    if ticks == [] then 0 else SeenAfter(SeenSince(ticks[..|ticks| - 1], fp), ticks[|ticks| - 1], fp)
  }

  /** When the last dispatch that could send was. */
  function LastSends(ticks: seq<Tick>): Option<int> {
    if ticks == [] then None
    else if ticks[|ticks| - 1].sink.Sends? then Some(ticks[|ticks| - 1].now)
    else LastSends(ticks[..|ticks| - 1])
  }

  /** When `fp` was last delivered. */
  function LastSent(ticks: seq<Tick>, fp: Fp): Option<int> {
    if ticks == [] then None
    else
      var front, t := ticks[..|ticks| - 1], ticks[|ticks| - 1];
      if Sent(After(front), t, fp) then Some(t.now) else LastSent(front, fp)
  }

  predicate Remembers(book: Book, fp: Fp, seen: nat, last: Option<int>, sent: Option<int>) {
    && (fp in book <==> seen > 0)
    && (fp in book ==>
          && book[fp].count == seen && Some(book[fp].lastSeen) == last
          && (book[fp].undelivered.None? ==> book[fp].alertedAt == sent && sent.Some?)
          && (book[fp].undelivered.Some? ==> book[fp].alertedAt.None?))
  }

  lemma StepRemembers(book: Book, t: Tick, fp: Fp, seen: nat, last: Option<int>, sent: Option<int>)
    requires Remembers(book, fp, seen, last, sent)
    ensures Remembers(Next(book, t), fp, SeenAfter(seen, t, fp),
                      if t.sink.Sends? then Some(t.now) else last, if Sent(book, t, fp) then Some(t.now) else sent)
  {
    StepAt(book, t, fp);
  }

  /** An entry is there while its episode lasts: it counts the dispatches that saw
      it, and has the time of the last one and, once delivered, of the delivery. */
  lemma {:induction false} EntryTells(ticks: seq<Tick>, fp: Fp)
    ensures Remembers(After(ticks), fp, SeenSince(ticks, fp), LastSends(ticks), LastSent(ticks, fp))
  {
    if ticks != [] {
      var front, t := ticks[..|ticks| - 1], ticks[|ticks| - 1];
      EntryTells(front, fp);
      StepRemembers(After(front), t, fp, SeenSince(front, fp), LastSends(front), LastSent(front, fp));
    }
  }
}
