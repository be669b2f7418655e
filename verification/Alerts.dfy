/**
 The failure alerts: which findings an assessment holds, and how one dispatch
 turns the remembered fingerprints into alerts to send and fingerprints to
 remember.  Times are seconds.
 */
module Alerts {
  import opened Wrappers
  import Text

  const RETRY_BASE := 30 * 60
  const RETRY_CAP := 12 * 60 * 60

  // ---- fingerprints ------------------------------------------------------

  /** The identity of a failure; the hash of it is taken to be injective. */
  datatype Fp = Fp(category: string, db: string, source: string, detail: string)

  /** What an escalation is measured against: a (db, source), or, for a global
      finding, its kind. */
  datatype Key = Subject(db: string, source: string) | Kind(category: string)

  datatype Finding = Finding(category: string, db: string, source: string, detail: string)

  function OrDash(s: string): string { if s == "" then "-" else s }

  function Fingerprint(category: string, db: string, source: string, detail: string): Fp {
    Fp(category, OrDash(db), OrDash(source), detail)
  }

  function KeyOf(category: string, db: string, source: string): Key {
    if OrDash(db) == "-" && OrDash(source) == "-" then Kind(category)
    else Subject(OrDash(db), OrDash(source))
  }

  function FpOf(f: Finding): Fp { Fingerprint(f.category, f.db, f.source, f.detail) }

  function FindingKey(f: Finding): Key { KeyOf(f.category, f.db, f.source) }

  function FpKey(fp: Fp): Key { KeyOf(fp.category, fp.db, fp.source) }

  lemma KeyOfFinding(f: Finding)
    ensures FpKey(FpOf(f)) == FindingKey(f)
  {
  }

  /** An absent dimension is written "-" or left empty. */
  predicate Absent(s: string) { s == "" || s == "-" }

  predicate SameDimension(a: string, b: string) { a == b || (Absent(a) && Absent(b)) }

  /** Two findings have one fingerprint exactly when category and detail are the
      same and database and source are, absent ones alike. */
  lemma SameFingerprint(f: Finding, g: Finding)
    ensures FpOf(f) == FpOf(g) <==>
              f.category == g.category && f.detail == g.detail
              && SameDimension(f.db, g.db) && SameDimension(f.source, g.source)
  {
  }

  predicate Global(f: Finding) { Absent(f.db) && Absent(f.source) }

  /** Escalations are measured within one (database, source); what has neither is
      only ever measured against its own category. */
  lemma SameKey(f: Finding, g: Finding)
    ensures FindingKey(f) == FindingKey(g) <==>
              (Global(f) <==> Global(g))
              && (if Global(f) then f.category == g.category
                  else SameDimension(f.db, g.db) && SameDimension(f.source, g.source))
  {
  }

  // ---- findings ----------------------------------------------------------

  /** The structured fields of an assessment the findings are read from. */
  datatype Assessment = Assessment(
    wikiMissing: bool, stray: bool,
    sources: seq<(string, string)>,     // (source, state)
    staleWatermarks: seq<string>,       // db
    failures: seq<(string, string)>,    // (category, db)
    backlog: seq<string>,               // db
    staleStages: seq<string>,           // task
    failedDeliveries: seq<string>,      // review id
    dependencies: seq<string>)          // detail

  function FromSources(ps: seq<(string, string)>): seq<Finding> {
    if ps == [] then []
    else
      (if ps[0].1 in ["collection_failure", "source_silent"]
       then [Finding(ps[0].1, "-", ps[0].0, "")] else [])
      + FromSources(ps[1..])
  }

  /** One finding for each. */
  function Each<T>(xs: seq<T>, finding: T -> Finding): seq<Finding> {
    seq(|xs|, i requires 0 <= i < |xs| => finding(xs[i]))
  }

  lemma EachIs<T>(xs: seq<T>, finding: T -> Finding, f: Finding)
    ensures f in Each(xs, finding) <==> exists x :: x in xs && f == finding(x)
  {
    if f in Each(xs, finding) {
      var i :| 0 <= i < |xs| && Each(xs, finding)[i] == f;
      assert xs[i] in xs;
    }
    if x :| x in xs && f == finding(x) {
      var i :| 0 <= i < |xs| && xs[i] == x;
      assert Each(xs, finding)[i] == f;
    }
  }

  function Listed(h: Assessment): seq<Finding> {
    (if h.wikiMissing then [Finding("wiki_missing", "-", "-", "")] else [])
    + (if h.stray then [Finding("dirty_tree", "-", "-", "")] else [])
    + FromSources(h.sources)
    + (if h.sources != [] && forall p | p in h.sources :: p.1 == "unknown"
       then [Finding("es_unreachable", "-", "-", "")] else [])
    + Each(h.staleWatermarks, db => Finding("stale_watermark", db, "-", ""))
    + Each(h.failures, (p: (string, string)) => Finding(p.0, p.1, "-", ""))
    + Each(h.backlog, db => Finding("digest_backlog", db, "-", ""))
    + Each(h.staleStages, task => Finding("stage_stale", "-", "-", task))
    + Each(h.failedDeliveries, id => Finding("delivery_failed", "-", "-", id))
    + Each(h.dependencies, detail => Finding("dependency_failure", "-", "-", detail))
  }

  lemma {:induction false} FromSourcesIs(ps: seq<(string, string)>, f: Finding)
    ensures f in FromSources(ps) <==>
              exists i :: 0 <= i < |ps| && (ps[i].1 == "collection_failure" || ps[i].1 == "source_silent")
                && f == Finding(ps[i].1, "-", ps[i].0, "")
  {
    if ps != [] {
      FromSourcesIs(ps[1..], f);
      if i :| 0 <= i < |ps[1..]| && (ps[1..][i].1 == "collection_failure" || ps[1..][i].1 == "source_silent")
              && f == Finding(ps[1..][i].1, "-", ps[1..][i].0, "") {
        assert ps[i + 1] == ps[1..][i];
      }
      if i :| 0 <= i < |ps| && (ps[i].1 == "collection_failure" || ps[i].1 == "source_silent")
              && f == Finding(ps[i].1, "-", ps[i].0, "") {
        assert i > 0 ==> ps[1..][i - 1] == ps[i];
      }
    }
  }

  /** What a finding is raised for, category by category. */
  ghost predicate Raised(h: Assessment, f: Finding) {
    || (f == Finding("wiki_missing", "-", "-", "") && h.wikiMissing)
    || (f == Finding("dirty_tree", "-", "-", "") && h.stray)
    || (exists i :: 0 <= i < |h.sources| && (h.sources[i].1 == "collection_failure" || h.sources[i].1 == "source_silent")
          && f == Finding(h.sources[i].1, "-", h.sources[i].0, ""))
    || (f == Finding("es_unreachable", "-", "-", "")
        && |h.sources| > 0 && !exists i :: 0 <= i < |h.sources| && h.sources[i].1 != "unknown")
    || (exists db :: db in h.staleWatermarks && f == Finding("stale_watermark", db, "-", ""))
    || (exists p :: p in h.failures && f == Finding(p.0, p.1, "-", ""))
    || (exists db :: db in h.backlog && f == Finding("digest_backlog", db, "-", ""))
    || (exists task :: task in h.staleStages && f == Finding("stage_stale", "-", "-", task))
    || (exists id :: id in h.failedDeliveries && f == Finding("delivery_failed", "-", "-", id))
    || (exists detail :: detail in h.dependencies && f == Finding("dependency_failure", "-", "-", detail))
  }

  lemma ListedIs(h: Assessment, f: Finding)
    ensures f in Listed(h) <==> Raised(h, f)
  {
    FromSourcesIs(h.sources, f);
    EachIs(h.staleWatermarks, db => Finding("stale_watermark", db, "-", ""), f);
    EachIs(h.failures, (p: (string, string)) => Finding(p.0, p.1, "-", ""), f);
    EachIs(h.backlog, db => Finding("digest_backlog", db, "-", ""), f);
    EachIs(h.staleStages, task => Finding("stage_stale", "-", "-", task), f);
    EachIs(h.failedDeliveries, id => Finding("delivery_failed", "-", "-", id), f);
    EachIs(h.dependencies, detail => Finding("dependency_failure", "-", "-", detail), f);
    assert (forall p | p in h.sources :: p.1 == "unknown")
        <==> !exists i :: 0 <= i < |h.sources| && h.sources[i].1 != "unknown";
  }

  /** A detail is only ever carried by a global finding. */
  predicate Shaped(f: Finding) {
    f.detail == "" || (f.db == "-" && f.source == "-")
  }

  lemma {:induction false} SourcesShaped(ps: seq<(string, string)>)
    ensures forall f | f in FromSources(ps) :: Shaped(f)
  {
    if ps != [] {
      SourcesShaped(ps[1..]);
    }
  }

  lemma ListedShaped(h: Assessment)
    ensures forall f | f in Listed(h) :: Shaped(f)
  {
    SourcesShaped(h.sources);
  }

  ghost predicate Distinct(fs: seq<Finding>) {
    forall i, j | 0 <= i < j < |fs| :: FpOf(fs[i]) != FpOf(fs[j])
  }

  function Fps(fs: seq<Finding>): set<Fp> {
    set f | f in fs :: FpOf(f)
  }

  lemma FpsSnoc(fs: seq<Finding>, f: Finding)
    ensures Fps(fs + [f]) == Fps(fs) + {FpOf(f)}
  {
    assert forall g :: g in fs + [f] <==> g in fs || g == f;
  }

  /** The first finding of each fingerprint. */
  function Unique(fs: seq<Finding>): seq<Finding> {
    if fs == [] then []
    else
      var front, last := fs[..|fs| - 1], fs[|fs| - 1];
      if FpOf(last) in Fps(front) then Unique(front) else Unique(front) + [last]
  }

  lemma {:induction false} UniqueFacts(fs: seq<Finding>)
    ensures Fps(Unique(fs)) == Fps(fs) && Distinct(Unique(fs))
    ensures forall f | f in Unique(fs) :: f in fs
  {
    if fs != [] {
      var front, last := fs[..|fs| - 1], fs[|fs| - 1];
      assert fs == front + [last];
      UniqueFacts(front);
      FpsSnoc(front, last);
      FpsSnoc(Unique(front), last);
      if FpOf(last) !in Fps(front) {
        forall i | 0 <= i < |Unique(front)| ensures FpOf(Unique(front)[i]) != FpOf(last) {
          assert Unique(front)[i] in Unique(front);
        }
      }
    }
  }

  function FindingsOf(h: Assessment): (fs: seq<Finding>)
    ensures Distinct(fs) && forall f | f in fs :: Shaped(f)
  {
    ListedShaped(h);
    UniqueFacts(Listed(h));
    Unique(Listed(h))
  }

  lemma UniqueStep(fs: seq<Finding>, i: nat)
    requires i < |fs|
    ensures Fps(fs[..i + 1]) == Fps(fs[..i]) + {FpOf(fs[i])}
    ensures Unique(fs[..i + 1]) == Unique(fs[..i]) + if FpOf(fs[i]) in Fps(fs[..i]) then [] else [fs[i]]
  {
    assert fs[..i + 1][..i] == fs[..i] && fs[..i + 1] == fs[..i] + [fs[i]];
    FpsSnoc(fs[..i], fs[i]);
  }

  /** Every finding of the assessment, one to a fingerprint. */
  method Findings(h: Assessment) returns (uniq: seq<Finding>)
    ensures uniq == FindingsOf(h)
  {
    uniq := Deduped(Listed(h));
  }

  method Deduped(out: seq<Finding>) returns (uniq: seq<Finding>)
    ensures uniq == Unique(out)
  {
    var seen: set<Fp> := {};
    uniq := [];
    for i := 0 to |out|
      invariant uniq == Unique(out[..i]) && seen == Fps(out[..i])
    {
      UniqueStep(out, i);
      if FpOf(out[i]) !in seen {
        seen := seen + {FpOf(out[i])};
        uniq := uniq + [out[i]];
      }
    }
    assert out[..|out|] == out;
  }

  // ---- the remembered state ----------------------------------------------

  datatype Reason = New | Escalation

  /** A send that failed: how often, when to try again, and what it was. */
  datatype Retry = Retry(failures: nat, retryAt: Option<int>, reason: Reason, from: Option<string>)

  datatype Entry = Entry(
    firstSeen: int, lastSeen: int, count: nat, alertedAt: Option<int>, undelivered: Option<Retry>,
    category: string, db: string, source: string, detail: string)

  type Book = map<Fp, Entry>

  datatype Alert = Alert(finding: Finding, reason: Reason, from: Option<string>, firstSeen: int, at: int)

  function EntryKey(e: Entry): Key { KeyOf(e.category, e.db, e.source) }

  function CurrentOf(fs: seq<Finding>, key: Key): set<string> {
    set f | f in fs && FindingKey(f) == key :: f.category
  }

  function PriorOf(book: Book, key: Key): set<string> {
    set fp | fp in book && EntryKey(book[fp]) == key :: book[fp].category
  }

  function Replaced(book: Book, fs: seq<Finding>, key: Key): set<string> {
    PriorOf(book, key) - CurrentOf(fs, key)
  }

  function Arrived(book: Book, fs: seq<Finding>, key: Key): set<string> {
    CurrentOf(fs, key) - PriorOf(book, key)
  }

  /** An unreadable retry time is due. */
  predicate RetryDue(e: Entry, now: int) {
    e.undelivered.Some? && (e.undelivered.value.retryAt.None? || e.undelivered.value.retryAt.value <= now)
  }

  function Bumped(e: Entry, now: int): Entry {
    e.(lastSeen := now, count := e.count + 1)
  }

  /** What `f` is remembered as, if every send succeeds. */
  function Remembered(book: Book, f: Finding, now: int): Entry {
    if FpOf(f) in book then
      var e := Bumped(book[FpOf(f)], now);
      if RetryDue(book[FpOf(f)], now) then e.(undelivered := None, alertedAt := Some(now)) else e
    else
      Entry(now, now, 1, Some(now), None, f.category, f.db, f.source, f.detail)
  }

  /** The alert `f` calls for, if any. */
  function AlertFor(book: Book, fs: seq<Finding>, f: Finding, now: int): Option<Alert> {
    if FpOf(f) in book then
      var e := book[FpOf(f)];
      if RetryDue(e, now) then
        Some(Alert(f, e.undelivered.value.reason, e.undelivered.value.from, e.firstSeen, now))
      else None
    else
      var was := Replaced(book, fs, FindingKey(f));
      if was == {} then Some(Alert(f, New, None, now, now))
      else Some(Alert(f, Escalation, Some(Text.Least(was)), now, now))
  }

  function AlertsFor(book: Book, fs: seq<Finding>, some: seq<Finding>, now: int): seq<Alert> {
    if some == [] then []
    else
      var front := AlertsFor(book, fs, some[..|some| - 1], now);
      var a := AlertFor(book, fs, some[|some| - 1], now);
      if a.Some? then front + [a.value] else front
  }

  function BookFor(book: Book, some: seq<Finding>, now: int): Book {
    if some == [] then map[]
    else
      var f := some[|some| - 1];
      BookFor(book, some[..|some| - 1], now)[FpOf(f) := Remembered(book, f, now)]
  }

  function Recovered(book: Book, fs: seq<Finding>): set<Fp> {
    set fp | fp in book && fp !in Fps(fs) && Arrived(book, fs, EntryKey(book[fp])) == {}
      && book[fp].undelivered.None?
  }

  /** What one finding is remembered as, and the alert it calls for. */
  method EvaluateOne(book: Book, fs: seq<Finding>, f: Finding, now: int) returns (entry: Entry, alert: Option<Alert>)
    ensures entry == Remembered(book, f, now) && alert == AlertFor(book, fs, f, now)
  {
    if FpOf(f) in book {
      var before := book[FpOf(f)];
      entry := Bumped(before, now);
      if !RetryDue(before, now) {
        return entry, None;
      }
      var u := before.undelivered.value;
      entry := entry.(undelivered := None, alertedAt := Some(now));
      return entry, Some(Alert(f, u.reason, u.from, before.firstSeen, now));
    }
    var was := Replaced(book, fs, FindingKey(f));
    entry := Entry(now, now, 1, Some(now), None, f.category, f.db, f.source, f.detail);
    if was == {} {
      return entry, Some(Alert(f, New, None, now, now));
    }
    return entry, Some(Alert(f, Escalation, Some(Text.Least(was)), now, now));
  }

  method Evaluate(fs: seq<Finding>, book: Book, now: int)
      returns (toSend: seq<Alert>, fps: Book, recovered: set<Fp>)
    ensures toSend == AlertsFor(book, fs, fs, now)
    ensures fps == BookFor(book, fs, now)
    ensures recovered == Recovered(book, fs)
  {
    toSend, fps := [], map[];
    for i := 0 to |fs|
      invariant toSend == AlertsFor(book, fs, fs[..i], now)
      invariant fps == BookFor(book, fs[..i], now)
    {
      assert fs[..i + 1][..i] == fs[..i];
      var entry, alert := EvaluateOne(book, fs, fs[i], now);
      fps := fps[FpOf(fs[i]) := entry];
      if alert.Some? {
        toSend := toSend + [alert.value];
      }
    }
    assert fs[..|fs|] == fs;
    BookKeys(book, fs, now);
    recovered := set fp | fp in book && fp !in fps && Arrived(book, fs, EntryKey(book[fp])) == {}
      && book[fp].undelivered.None?;
  }

  lemma {:induction false} BookKeys(book: Book, some: seq<Finding>, now: int)
    ensures BookFor(book, some, now).Keys == Fps(some)
  {
    if some != [] {
      var front := some[..|some| - 1];
      BookKeys(book, front, now);
      assert some == front + [some[|some| - 1]];
      FpsSnoc(front, some[|some| - 1]);
    }
  }
}
