/**
 One dispatch: evaluate, send, remember what could not be delivered.
 */
module AlertDispatch {
  import opened Wrappers
  import opened Alerts
  import opened Numbers

  /** What the transport does: it cannot be built, or it fails for some alerts. */
  datatype Sink = Unbuildable | Sends(failing: set<Fp>)

  function Pow2(n: nat): nat { if n == 0 then 1 else 2 * Pow2(n - 1) }

  /** How long after its `failures`-th failure an alert is sent again. */
  function Delay(failures: nat): int
    requires failures > 0
  {
    Min(RETRY_BASE * Pow2(Min(failures - 1, 16)), RETRY_CAP)
  }

  function Failures(previous: Option<Entry>): nat {
    if previous.Some? && previous.value.undelivered.Some? then previous.value.undelivered.value.failures else 0
  }

  function Undelivered(e: Entry, a: Alert, previous: Option<Entry>, now: int): Entry {
    var failures := Failures(previous) + 1;
    e.(alertedAt := None,
       undelivered := Some(Retry(failures, Some(now + Delay(failures)), a.reason, a.from)))
  }

  function Lookup(book: Book, fp: Fp): Option<Entry> {
    if fp in book then Some(book[fp]) else None
  }

  /** `fps` after sending `alerts`. */
  function AfterSends(fps: Book, prior: Book, alerts: seq<Alert>, now: int, failing: set<Fp>): Book {
    if alerts == [] then fps
    else
      var rest := AfterSends(fps, prior, alerts[..|alerts| - 1], now, failing);
      var a := alerts[|alerts| - 1];
      var fp := FpOf(a.finding);
      if fp in failing && fp in rest then rest[fp := Undelivered(rest[fp], a, Lookup(prior, fp), now)]
      else rest
  }

  function NextBook(book: Book, h: Assessment, now: int, sink: Sink): Book {
    match sink
    case Unbuildable => book
    case Sends(failing) =>
      var fs := FindingsOf(h);
      AfterSends(BookFor(book, fs, now), book, AlertsFor(book, fs, fs, now), now, failing)
  }

  class Dispatcher {
    var fingerprints: Book
    var recovered: set<Fp>

    constructor ()
      ensures fingerprints == map[] && recovered == {}
    {
      fingerprints, recovered := map[], {};
    }

    method Dispatch(h: Assessment, now: int, sink: Sink)
        returns (alerted: nat, cleared: nat, errors: nat)
      modifies this
      ensures fingerprints == NextBook(old(fingerprints), h, now, sink)
      ensures recovered == if sink.Unbuildable? then old(recovered) else Recovered(old(fingerprints), FindingsOf(h))
      ensures sink.Unbuildable? ==> alerted == cleared == 0 && errors == 1
      ensures sink.Sends? ==>
        var alerts := AlertsFor(old(fingerprints), FindingsOf(h), FindingsOf(h), now);
        && alerted + errors == |alerts| && cleared == |recovered|
        && errors == |FailedAt(alerts, sink.failing)|
    {
      var prior := fingerprints;
      var fs := Findings(h);
      var toSend, fps, gone := Evaluate(fs, prior, now);
      if sink.Unbuildable? {
        return 0, 0, 1;
      }
      BookKeys(prior, fs, now);
      forall i | 0 <= i < |toSend| ensures FpOf(toSend[i].finding) in fps {
        AlertsAreOf(prior, fs, fs, now, i);
      }
      FailedOfIs(toSend, sink.failing);
      fps, errors := SendAll(toSend, fps, prior, now, sink.failing);
      fingerprints, recovered := fps, gone;
      alerted, cleared := |toSend| - errors, |gone|;
    }
  }

  /** Send each alert; an entry whose send raised is marked undelivered. */
  method SendAll(toSend: seq<Alert>, book: Book, prior: Book, now: int, failing: set<Fp>)
      returns (fps: Book, errors: nat)
    requires forall i | 0 <= i < |toSend| :: FpOf(toSend[i].finding) in book
    ensures fps == AfterSends(book, prior, toSend, now, failing)
    ensures errors == |FailedOf(toSend, failing)| <= |toSend|
  {
    fps, errors := book, 0;
    for i := 0 to |toSend|
      invariant fps == AfterSends(book, prior, toSend[..i], now, failing)
      invariant fps.Keys == book.Keys
      invariant errors == |FailedOf(toSend[..i], failing)| <= i
    {
      assert toSend[..i + 1][..i] == toSend[..i];
      var a := toSend[i];
      var fp := FpOf(a.finding);
      if fp in failing {
        errors := errors + 1;
        fps := fps[fp := Undelivered(fps[fp], a, Lookup(prior, fp), now)];
      }
    }
    assert toSend[..|toSend|] == toSend;
  }

  function FailedAt(alerts: seq<Alert>, failing: set<Fp>): set<nat> {
    set i | 0 <= i < |alerts| && FpOf(alerts[i].finding) in failing
  }

  lemma {:induction false} FailedOfIs(alerts: seq<Alert>, failing: set<Fp>)
    ensures |FailedOf(alerts, failing)| == |FailedAt(alerts, failing)|
  {
    if alerts == [] {
      assert FailedAt([], failing) == {};
    } else {
      var n := |alerts| - 1;
      FailedOfIs(alerts[..n], failing);
      assert FailedAt(alerts, failing)
          == FailedAt(alerts[..n], failing) + if FpOf(alerts[n].finding) in failing then {n} else {};
    }
  }

  function FailedOf(alerts: seq<Alert>, failing: set<Fp>): seq<Alert> {
    if alerts == [] then []
    else
      var a := alerts[|alerts| - 1];
      FailedOf(alerts[..|alerts| - 1], failing) + if FpOf(a.finding) in failing then [a] else []
  }

  lemma {:induction false} AlertsAreOf(book: Book, fs: seq<Finding>, some: seq<Finding>, now: int, i: nat)
    requires i < |AlertsFor(book, fs, some, now)|
    ensures var a := AlertsFor(book, fs, some, now)[i];
            a.finding in some && AlertFor(book, fs, a.finding, now) == Some(a)
  {
    var front := some[..|some| - 1];
    if i < |AlertsFor(book, fs, front, now)| {
      AlertsAreOf(book, fs, front, now, i);
    }
  }

  /** Every finding that calls for an alert gets its own. */
  lemma {:induction false} AlertsCover(book: Book, fs: seq<Finding>, some: seq<Finding>, f: Finding, now: int)
    requires f in some && AlertFor(book, fs, f, now).Some?
    ensures AlertFor(book, fs, f, now).value in AlertsFor(book, fs, some, now)
  {
    var front, last := some[..|some| - 1], some[|some| - 1];
    assert some == front + [last];
    if f in front {
      AlertsCover(book, fs, front, f, now);
    }
  }

  // ---- one fingerprint at a time -----------------------------------------

  function NextEntry(book: Book, fs: seq<Finding>, f: Finding, now: int, failing: set<Fp>): Entry {
    var a := AlertFor(book, fs, f, now);
    var e := Remembered(book, f, now);
    if a.Some? && FpOf(f) in failing then Undelivered(e, a.value, Lookup(book, FpOf(f)), now) else e
  }

  lemma {:induction false} BookAt(book: Book, some: seq<Finding>, f: Finding, now: int)
    requires Distinct(some) && f in some
    ensures FpOf(f) in BookFor(book, some, now) && BookFor(book, some, now)[FpOf(f)] == Remembered(book, f, now)
  {
    var front, last := some[..|some| - 1], some[|some| - 1];
    assert some == front + [last];
    if f in front {
      var i :| 0 <= i < |front| && front[i] == f;
      assert some[i] == f;
      BookAt(book, front, f, now);
    }
  }

  /** Sending, finding by finding. */
  lemma SendsSnoc(fps: Book, prior: Book, fs: seq<Finding>, some: seq<Finding>, now: int, failing: set<Fp>)
    requires some != []
    ensures var last := some[|some| - 1];
            var rest := AfterSends(fps, prior, AlertsFor(prior, fs, some[..|some| - 1], now), now, failing);
            var a := AlertFor(prior, fs, last, now);
            AfterSends(fps, prior, AlertsFor(prior, fs, some, now), now, failing) ==
              if a.Some? && FpOf(last) in failing && FpOf(last) in rest
              then rest[FpOf(last) := Undelivered(rest[FpOf(last)], a.value, Lookup(prior, FpOf(last)), now)]
              else rest
  {
    var alerts := AlertsFor(prior, fs, some, now);
    if AlertFor(prior, fs, some[|some| - 1], now).Some? {
      assert alerts[..|alerts| - 1] == AlertsFor(prior, fs, some[..|some| - 1], now);
    }
  }

  /** Sending touches only the entries of its own alerts. */
  lemma {:induction false} SendsElsewhere(fps: Book, prior: Book, fs: seq<Finding>, some: seq<Finding>, fp: Fp,
                                          now: int, failing: set<Fp>)
    requires fp !in Fps(some) && fp in fps
    ensures var b := AfterSends(fps, prior, AlertsFor(prior, fs, some, now), now, failing);
            fp in b && b[fp] == fps[fp]
  {
    if some != [] {
      var front, last := some[..|some| - 1], some[|some| - 1];
      assert some == front + [last];
      FpsSnoc(front, last);
      SendsElsewhere(fps, prior, fs, front, fp, now, failing);
      SendsSnoc(fps, prior, fs, some, now, failing);
    }
  }

  lemma DistinctFront(some: seq<Finding>)
    requires Distinct(some) && some != []
    ensures Distinct(some[..|some| - 1]) && FpOf(some[|some| - 1]) !in Fps(some[..|some| - 1])
    ensures Fps(some) == Fps(some[..|some| - 1]) + {FpOf(some[|some| - 1])}
  {
    var front, last := some[..|some| - 1], some[|some| - 1];
    assert some == front + [last];
    FpsSnoc(front, last);
  }

  lemma {:induction false} SendsAt(fps: Book, prior: Book, fs: seq<Finding>, some: seq<Finding>, f: Finding,
                                   now: int, failing: set<Fp>)
    requires Distinct(some) && f in some && FpOf(f) in fps
    ensures var b := AfterSends(fps, prior, AlertsFor(prior, fs, some, now), now, failing);
            var a := AlertFor(prior, fs, f, now);
            && FpOf(f) in b
            && b[FpOf(f)] == if a.Some? && FpOf(f) in failing
                             then Undelivered(fps[FpOf(f)], a.value, Lookup(prior, FpOf(f)), now)
                             else fps[FpOf(f)]
  {
    var front, last := some[..|some| - 1], some[|some| - 1];
    assert some == front + [last];
    DistinctFront(some);
    SendsSnoc(fps, prior, fs, some, now, failing);
    if last == f {
      SendsElsewhere(fps, prior, fs, front, FpOf(f), now, failing);
    } else {
      assert FpOf(f) in Fps(front);
      SendsAt(fps, prior, fs, front, f, now, failing);
    }
  }

  lemma {:induction false} SendsKeys(fps: Book, prior: Book, alerts: seq<Alert>, now: int, failing: set<Fp>)
    ensures AfterSends(fps, prior, alerts, now, failing).Keys == fps.Keys
  {
    if alerts != [] {
      SendsKeys(fps, prior, alerts[..|alerts| - 1], now, failing);
    }
  }

  /** What a dispatch that could send leaves for each fingerprint. */
  lemma NextBookAt(book: Book, h: Assessment, now: int, failing: set<Fp>)
    ensures NextBook(book, h, now, Sends(failing)).Keys == Fps(FindingsOf(h))
    ensures forall f | f in FindingsOf(h) ::
              NextBook(book, h, now, Sends(failing))[FpOf(f)] == NextEntry(book, FindingsOf(h), f, now, failing)
  {
    var fs := FindingsOf(h);
    BookKeys(book, fs, now);
    SendsKeys(BookFor(book, fs, now), book, AlertsFor(book, fs, fs, now), now, failing);
    forall f | f in fs
      ensures NextBook(book, h, now, Sends(failing))[FpOf(f)] == NextEntry(book, fs, f, now, failing)
    {
      BookAt(book, fs, f, now);
      SendsAt(BookFor(book, fs, now), book, fs, fs, f, now, failing);
    }
  }
}
