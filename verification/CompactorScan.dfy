/**
 The scan itself: one pass over the events, groups updated in place, and a
 window of recent lines for context.  What it leaves in each group is what the
 whole list says of that group's key.
 */
module CompactorScan {
  import opened Compactor
  import opened Numbers

  // ---- the whole-list description of one group ---------------------------

  predicate Has(e: Event, k: Key) {
    e.notable && KeyOf(e) == k
  }

  /** The events of a key, in order. */
  function Of(evs: seq<Event>, k: Key): seq<Event> {
    if evs == [] then []
    else
      Of(evs[..|evs| - 1], k) + if Has(evs[|evs| - 1], k) then [evs[|evs| - 1]] else []
  }

  /** Where a key first occurs; the length of the list when it does not. */
  function First(evs: seq<Event>, k: Key): (i: nat)
    ensures i <= |evs|
  {
    if evs == [] then 0
    else
      var front := evs[..|evs| - 1];
      var i := First(front, k);
      if i < |front| then i
      else if Has(evs[|evs| - 1], k) then |front|
      else |evs|
  }

  lemma {:induction false} FirstIsFirst(evs: seq<Event>, k: Key)
    ensures First(evs, k) < |evs| ==> Has(evs[First(evs, k)], k)
    ensures forall j | 0 <= j < First(evs, k) :: !Has(evs[j], k)
  {
    if evs != [] {
      var front := evs[..|evs| - 1];
      FirstIsFirst(front, k);
      assert forall j | 0 <= j < |front| :: front[j] == evs[j];
    }
  }

  /** The first and the last stamp of a group; an equal instant does not replace
      the one seen before. */
  function Earliest(s: seq<Event>): Stamp
    requires s != []
  {
    var last := s[|s| - 1];
    if |s| == 1 then last.ts
    else
      var t := Earliest(s[..|s| - 1]);
      if last.ts.instant < t.instant then last.ts else t
  }

  function Latest(s: seq<Event>): Stamp
    requires s != []
  {
    var last := s[|s| - 1];
    if |s| == 1 then last.ts
    else
      var t := Latest(s[..|s| - 1]);
      if last.ts.instant > t.instant then last.ts else t
  }

  predicate FirstLeast(s: seq<Event>, i: int) {
    && 0 <= i < |s|
    && (forall j | 0 <= j < |s| :: s[i].ts.instant <= s[j].ts.instant)
    && (forall j | 0 <= j < i :: s[i].ts.instant < s[j].ts.instant)
  }

  predicate FirstGreatest(s: seq<Event>, i: int) {
    && 0 <= i < |s|
    && (forall j | 0 <= j < |s| :: s[i].ts.instant >= s[j].ts.instant)
    && (forall j | 0 <= j < i :: s[i].ts.instant > s[j].ts.instant)
  }

  /** `first_ts` and `last_ts` are the least and the greatest stamp of the
      group's events, the one seen first on a tie. */
  lemma {:induction false} SpanIsSpan(s: seq<Event>) returns (a: int, b: int)
    requires s != []
    ensures FirstLeast(s, a) && s[a].ts == Earliest(s)
    ensures FirstGreatest(s, b) && s[b].ts == Latest(s)
  {
    if |s| == 1 {
      a, b := 0, 0;
    } else {
      var front, last := s[..|s| - 1], s[|s| - 1];
      a, b := SpanIsSpan(front);
      assert forall j | 0 <= j < |front| :: s[j] == front[j];
      if last.ts.instant < front[a].ts.instant {
        a := |s| - 1;
      }
      if last.ts.instant > front[b].ts.instant {
        b := |s| - 1;
      }
    }
  }

  function Ids(s: seq<Event>): seq<string> {
    seq(|s|, i requires 0 <= i < |s| => s[i].id)
  }

  function Lines(evs: seq<Event>, a: nat, b: nat): seq<Line>
    requires a <= b <= |evs|
  {
    seq(b - a, i requires 0 <= i < b - a => LineOf(evs[a + i]))
  }

  function Summary(k: Key, message: string, all: seq<Event>, max: nat, before: seq<Line>, after: seq<Line>): Row
    requires all != []
  {
    Row(k, message, |all|, Earliest(all), Latest(all), Ids(all[..Min(|all|, max)]), before, after)
  }

  /** The `context` lines after event `i`, and before it, clipped to the list. */
  function Following(evs: seq<Event>, context: nat, i: nat): seq<Line>
    requires i < |evs|
  {
    Lines(evs, i + 1, Min(i + 1 + context, |evs|))
  }

  function Preceding(evs: seq<Event>, context: nat, i: nat): seq<Line>
    requires i <= |evs|
  {
    Lines(evs, Max(0, i - context), i)
  }

  /** A group, said over the whole list: all the events of its key, the first
      few as samples, and the lines around its first one. */
  function RowOf(evs: seq<Event>, l: Limits, k: Key): Row
    requires First(evs, k) < |evs| && Of(evs, k) != []
  {
    var i := First(evs, k);
    Summary(k, evs[i].message, Of(evs, k), l.maxSamples, Preceding(evs, l.context, i), Following(evs, l.context, i))
  }

  lemma {:induction false} FirstMeansSome(evs: seq<Event>, k: Key)
    ensures First(evs, k) < |evs| <==> Of(evs, k) != []
  {
    if evs != [] {
      FirstMeansSome(evs[..|evs| - 1], k);
    }
  }

  // The same, over positions in the list.

  /** The earlier events of a key. */
  ghost function Before(evs: seq<Event>, k: Key, i: nat): set<nat> {
    set j | 0 <= j < i && j < |evs| && evs[j].notable && KeyOf(evs[j]) == k
  }

  predicate IsLine(line: Line, e: Event) {
    line.ts == e.ts && line.klass == e.klass && line.text == e.text
  }

  /** A group's row: how many events its key has, the least and the greatest of
      their stamps, the ids of the first few, and the lines around the first. */
  ghost predicate RowSays(evs: seq<Event>, l: Limits, r: Row) {
    && r.count == |Before(evs, r.key, |evs|)|
    && (forall j | 0 <= j < |evs| && evs[j].notable && KeyOf(evs[j]) == r.key ::
          r.first.instant <= evs[j].ts.instant <= r.last.instant)
    && (exists j :: 0 <= j < |evs| && evs[j].notable && KeyOf(evs[j]) == r.key && evs[j].ts == r.first)
    && (exists j :: 0 <= j < |evs| && evs[j].notable && KeyOf(evs[j]) == r.key && evs[j].ts == r.last)
    && |r.samples| == Min(r.count, l.maxSamples)
    && (forall j | 0 <= j < |evs| && evs[j].notable && KeyOf(evs[j]) == r.key && |Before(evs, r.key, j)| < l.maxSamples ::
          |Before(evs, r.key, j)| < |r.samples| && r.samples[|Before(evs, r.key, j)|] == evs[j].id)
    && (forall i | 0 <= i < |evs| && evs[i].notable && KeyOf(evs[i]) == r.key && Before(evs, r.key, i) == {} ::
          r.message == evs[i].message && ContextSays(evs, l.context, i, r))
  }

  /** As many lines before and after the first event as there are, up to the
      limit. */
  predicate ContextSays(evs: seq<Event>, context: nat, i: nat, r: Row)
    requires i < |evs|
  {
    && |r.before| == Min(i, context) && |r.after| == Min(|evs| - 1 - i, context)
    && (forall j | 0 <= j < |r.before| :: IsLine(r.before[j], evs[i - |r.before| + j]))
    && (forall j | 0 <= j < |r.after| :: IsLine(r.after[j], evs[i + 1 + j]))
  }

  lemma {:induction false} OfIsBefore(evs: seq<Event>, k: Key)
    ensures |Of(evs, k)| == |Before(evs, k, |evs|)|
  {
    if evs == [] {
      assert Before(evs, k, |evs|) == {};
    } else {
      var n := |evs| - 1;
      OfIsBefore(evs[..n], k);
      assert Before(evs, k, |evs|) == Before(evs[..n], k, n) + if Has(evs[n], k) then {n} else {};
    }
  }

  /** The event with so many of its key before it is that one of its key's. */
  lemma {:induction false} OfAt(evs: seq<Event>, k: Key, j: nat)
    requires j < |evs| && Has(evs[j], k)
    ensures |Before(evs, k, j)| < |Of(evs, k)| && Of(evs, k)[|Before(evs, k, j)|] == evs[j]
  {
    var n := |evs| - 1;
    if j == n {
      OfIsBefore(evs[..n], k);
      assert Before(evs, k, n) == Before(evs[..n], k, n);
    } else {
      OfAt(evs[..n], k, j);
      assert Before(evs[..n], k, j) == Before(evs, k, j);
    }
  }

  lemma {:induction false} OfFrom(evs: seq<Event>, k: Key, i: nat) returns (j: nat)
    requires i < |Of(evs, k)|
    ensures j < |evs| && Has(evs[j], k) && evs[j] == Of(evs, k)[i]
  {
    var n := |evs| - 1;
    if i < |Of(evs[..n], k)| {
      j := OfFrom(evs[..n], k, i);
    } else {
      j := n;
    }
  }

  lemma SpanSays(evs: seq<Event>, k: Key)
    requires Of(evs, k) != []
    ensures var a, b := Earliest(Of(evs, k)), Latest(Of(evs, k));
            && (forall j | 0 <= j < |evs| && Has(evs[j], k) :: a.instant <= evs[j].ts.instant <= b.instant)
            && (exists j :: 0 <= j < |evs| && Has(evs[j], k) && evs[j].ts == a)
            && (exists j :: 0 <= j < |evs| && Has(evs[j], k) && evs[j].ts == b)
  {
    var all := Of(evs, k);
    var a, b := SpanIsSpan(all);
    var x := OfFrom(evs, k, a);
    var y := OfFrom(evs, k, b);
    forall j | 0 <= j < |evs| && Has(evs[j], k)
      ensures Earliest(all).instant <= evs[j].ts.instant <= Latest(all).instant
    {
      OfAt(evs, k, j);
    }
  }

  lemma ContextOf(evs: seq<Event>, context: nat, i: nat, r: Row)
    requires i < |evs| && r.before == Preceding(evs, context, i) && r.after == Following(evs, context, i)
    ensures ContextSays(evs, context, i, r)
  {
    var a := Max(0, i - context);
    assert |r.before| == i - a;
    forall j | 0 <= j < |r.before| ensures IsLine(r.before[j], evs[i - |r.before| + j]) {
      assert r.before[j] == LineOf(evs[a + j]);
    }
    forall j | 0 <= j < |r.after| ensures IsLine(r.after[j], evs[i + 1 + j]) {
      assert r.after[j] == LineOf(evs[i + 1 + j]);
    }
  }

  lemma ContextRight(evs: seq<Event>, l: Limits, k: Key)
    requires Occurs(evs, k)
    ensures ContextSays(evs, l.context, First(evs, k), RowOf(evs, l, k))
  {
    var r := RowOf(evs, l, k);
    ContextOf(evs, l.context, First(evs, k), r);
  }

  lemma FirstIs(evs: seq<Event>, k: Key, i: nat)
    requires i < |evs| && Has(evs[i], k) && Before(evs, k, i) == {}
    ensures First(evs, k) == i
  {
    FirstIsFirst(evs, k);
    assert First(evs, k) < i ==> First(evs, k) in Before(evs, k, i);
  }

  /** What `RowOf` describes by recursion is what the list says. */
  lemma RowIsSaid(evs: seq<Event>, l: Limits, k: Key)
    requires Occurs(evs, k)
    ensures RowSays(evs, l, RowOf(evs, l, k)) && RowOf(evs, l, k).key == k
  {
    var r := RowOf(evs, l, k);
    OfIsBefore(evs, k);
    SpanSays(evs, k);
    SamplesRight(evs, l, k);
    assert r.count == |Before(evs, r.key, |evs|)| && |r.samples| == Min(r.count, l.maxSamples);
    assert forall j | 0 <= j < |evs| && evs[j].notable && KeyOf(evs[j]) == r.key :: Has(evs[j], k);
    forall i | 0 <= i < |evs| && evs[i].notable && KeyOf(evs[i]) == k && Before(evs, k, i) == {}
      ensures r.message == evs[i].message && ContextSays(evs, l.context, i, r)
    {
      FirstIs(evs, k, i);
      ContextRight(evs, l, k);
    }
  }

  lemma SamplesRight(evs: seq<Event>, l: Limits, k: Key)
    requires Occurs(evs, k)
    ensures var r := RowOf(evs, l, k);
            && |r.samples| == Min(|Of(evs, k)|, l.maxSamples)
            && forall j | 0 <= j < |evs| && Has(evs[j], k) && |Before(evs, k, j)| < l.maxSamples ::
                 |Before(evs, k, j)| < |r.samples| && r.samples[|Before(evs, k, j)|] == evs[j].id
  {
    forall j | 0 <= j < |evs| && Has(evs[j], k) && |Before(evs, k, j)| < l.maxSamples
      ensures var r := RowOf(evs, l, k);
              |Before(evs, k, j)| < |r.samples| && r.samples[|Before(evs, k, j)|] == evs[j].id
    {
      OfAt(evs, k, j);
    }
  }

  // ---- one event more ----------------------------------------------------

  function Added(r: Row, e: Event, maxSamples: nat): Row {
    r.(count := r.count + 1,
       first := if e.ts.instant < r.first.instant then e.ts else r.first,
       last := if e.ts.instant > r.last.instant then e.ts else r.last,
       samples := if |r.samples| < maxSamples then r.samples + [e.id] else r.samples)
  }

  function Lined(r: Row, line: Line, context: nat): Row {
    if |r.after| < context then r.(after := r.after + [line]) else r
  }

  function NewRow(e: Event, before: seq<Line>): Row {
    Row(KeyOf(e), e.message, 0, e.ts, e.ts, [], before, [])
  }

  lemma OfStep(evs: seq<Event>, e: Event, k: Key)
    ensures Of(evs + [e], k) == Of(evs, k) + if Has(e, k) then [e] else []
    ensures First(evs + [e], k) ==
              if First(evs, k) < |evs| then First(evs, k) else if Has(e, k) then |evs| else |evs| + 1
  {
    assert (evs + [e])[..|evs|] == evs;
  }

  lemma IdsStep(all: seq<Event>, e: Event, max: nat)
    ensures Ids((all + [e])[..Min(|all| + 1, max)])
              == var s := Ids(all[..Min(|all|, max)]); if |s| < max then s + [e.id] else s
  {
    if |all| < max {
      assert all[..|all|] == all && (all + [e])[..|all| + 1] == all + [e];
      assert Ids(all + [e]) == Ids(all) + [e.id];
    } else {
      assert (all + [e])[..max] == all[..max];
    }
  }

  lemma AroundStep(evs: seq<Event>, e: Event, context: nat, at: nat)
    requires at < |evs|
    ensures Preceding(evs + [e], context, at) == Preceding(evs, context, at)
    ensures Following(evs + [e], context, at)
              == Following(evs, context, at)
                 + if |Following(evs, context, at)| < context then [LineOf(e)] else []
  {
  }

  lemma SummaryStep(k: Key, message: string, all: seq<Event>, e: Event, max: nat, before: seq<Line>, after: seq<Line>)
    requires all != []
    ensures Summary(k, message, all + [e], max, before, after)
              == Added(Summary(k, message, all, max, before, after), e, max)
  {
    assert (all + [e])[..|all|] == all;
    IdsStep(all, e, max);
  }

  ghost predicate Occurs(evs: seq<Event>, k: Key) {
    First(evs, k) < |evs| && Of(evs, k) != []
  }

  lemma StillOccurs(evs: seq<Event>, e: Event, k: Key)
    requires Occurs(evs, k)
    ensures Occurs(evs + [e], k) && First(evs + [e], k) == First(evs, k)
  {
    OfStep(evs, e, k);
  }

  /** The group of a key already there: every event gives it a line until its
      context is full, and its own events are added. */
  lemma RowStep(evs: seq<Event>, e: Event, l: Limits, k: Key)
    requires Occurs(evs, k)
    ensures Occurs(evs + [e], k)
    ensures RowOf(evs + [e], l, k) ==
              if Has(e, k) then Added(Lined(RowOf(evs, l, k), LineOf(e), l.context), e, l.maxSamples)
              else Lined(RowOf(evs, l, k), LineOf(e), l.context)
  {
    StillOccurs(evs, e, k);
    OfStep(evs, e, k);
    var at := First(evs, k);
    AroundStep(evs, e, l.context, at);
    var before, after := Preceding(evs, l.context, at), Following(evs + [e], l.context, at);
    assert (evs + [e])[at] == evs[at];
    assert Lined(RowOf(evs, l, k), LineOf(e), l.context)
        == Summary(k, evs[at].message, Of(evs, k), l.maxSamples, before, after);
    assert Of(evs, k) + [] == Of(evs, k);
    if Has(e, k) {
      SummaryStep(k, evs[at].message, Of(evs, k), e, l.maxSamples, before, after);
    }
  }

  lemma SummaryOne(e: Event, max: nat, before: seq<Line>)
    ensures Summary(KeyOf(e), e.message, [e], max, before, []) == Added(NewRow(e, before), e, max)
  {
    assert [] + [e] == [e];
    IdsStep([], e, max);
  }

  /** The group of a key that has not occurred before. */
  lemma RowNew(evs: seq<Event>, e: Event, l: Limits)
    requires e.notable && First(evs, KeyOf(e)) == |evs|
    ensures Occurs(evs + [e], KeyOf(e))
    ensures RowOf(evs + [e], l, KeyOf(e))
              == Added(NewRow(e, Preceding(evs, l.context, |evs|)), e, l.maxSamples)
  {
    var k := KeyOf(e);
    OfStep(evs, e, k);
    FirstMeansSome(evs, k);
    assert Of(evs + [e], k) == [e] by {
      assert Of(evs, k) == [];
    }
    NewContext(evs, e, l.context);
    SummaryOne(e, l.maxSamples, Preceding(evs, l.context, |evs|));
  }

  lemma NewContext(evs: seq<Event>, e: Event, context: nat)
    ensures Preceding(evs + [e], context, |evs|) == Preceding(evs, context, |evs|)
    ensures Following(evs + [e], context, |evs|) == []
  {
  }

  // ---- the groups in memory ----------------------------------------------

  class Group {
    const key: Key
    const message: string
    const before: seq<Line>
    var count: nat
    var first: Stamp
    var last: Stamp
    var samples: seq<string>
    var after: seq<Line>

    constructor (e: Event, before: seq<Line>)
      ensures AsRow() == NewRow(e, before)
    {
      this.key, this.message, this.before := KeyOf(e), e.message, before;
      count, first, last, samples, after := 0, e.ts, e.ts, [], [];
    }

    function AsRow(): Row
      reads this
    {
      Row(key, message, count, first, last, samples, before, after)
    }

    method Add(e: Event, maxSamples: nat)
      modifies this
      ensures AsRow() == Added(old(AsRow()), e, maxSamples)
    {
      count := count + 1;
      if e.ts.instant < first.instant {
        first := e.ts;
      }
      if e.ts.instant > last.instant {
        last := e.ts;
      }
      if |samples| < maxSamples {
        samples := samples + [e.id];
      }
    }
  }

  /** Every pending group gets the line; those whose context is now full leave. */
  method FeedLine(pending: seq<Group>, line: Line, context: nat) returns (still: seq<Group>)
    requires forall i, j | 0 <= i < j < |pending| :: pending[i] != pending[j]
    requires forall g | g in pending :: |g.after| < context
    modifies pending
    ensures forall g | g in pending :: g.AsRow() == Lined(old(g.AsRow()), line, context)
    ensures forall g :: g in still <==> g in pending && |g.after| < context
    ensures forall i, j | 0 <= i < j < |still| :: still[i] != still[j]
  {
    for n := 0 to |pending|
      invariant forall j | 0 <= j < n :: pending[j].AsRow() == Lined(old(pending[j].AsRow()), line, context)
      invariant forall j | n <= j < |pending| :: pending[j].AsRow() == old(pending[j].AsRow())
    {
      pending[n].after := pending[n].after + [line];
    }
    still := [];
    for n := 0 to |pending|
      invariant forall g :: g in still <==> g in pending[..n] && |g.after| < context
      invariant forall i, j | 0 <= i < j < |still| :: still[i] != still[j]
    {
      if |pending[n].after| < context {
        still := still + [pending[n]];
      }
    }
  }

  /** The recent lines, at most `context` of them. */
  function Pushed(dq: seq<Line>, line: Line, context: nat): seq<Line> {
    var longer := dq + [line];
    if |longer| > context then longer[|longer| - context..] else longer
  }

  function DequeOf(evs: seq<Event>, context: nat): seq<Line> {
    if evs == [] then [] else Pushed(DequeOf(evs[..|evs| - 1], context), LineOf(evs[|evs| - 1]), context)
  }

  lemma PrecedingStep(evs: seq<Event>, e: Event, context: nat)
    ensures var dq := Preceding(evs, context, |evs|);
            && |dq| == Min(context, |evs|)
            && Preceding(evs + [e], context, |evs| + 1) == Pushed(dq, LineOf(e), context)
  {
  }

  lemma {:induction false} DequeIsPreceding(evs: seq<Event>, context: nat)
    ensures DequeOf(evs, context) == Preceding(evs, context, |evs|)
  {
    if evs != [] {
      var front, e := evs[..|evs| - 1], evs[|evs| - 1];
      DequeIsPreceding(front, context);
      assert evs == front + [e];
      PrecedingStep(front, e, context);
    }
  }

  ghost function Objects(groups: map<Key, Group>): set<Group> {
    set k | k in groups :: groups[k]
  }

  /** Pending are exactly the groups whose context is still open. */
  ghost predicate Open(groups: map<Key, Group>, pending: seq<Group>, context: nat)
    reads Objects(groups)
  {
    && (forall g | g in pending :: g.key in groups && groups[g.key] == g)
    && (forall k | k in groups :: groups[k] in pending <==> |groups[k].after| < context)
    && (forall i, j | 0 <= i < j < |pending| :: pending[i] != pending[j])
  }

  /** The groups in memory are these rows. */
  ghost predicate Holds(groups: map<Key, Group>, rows: map<Key, Row>)
    reads Objects(groups)
  {
    && groups.Keys == rows.Keys
    && forall k | k in groups :: groups[k].AsRow() == rows[k]
  }

  /** The rows are what the whole list says of their keys. */
  ghost predicate Tracks(rows: map<Key, Row>, evs: seq<Event>, l: Limits) {
    forall k | k in rows :: Occurs(evs, k) && rows[k] == RowOf(evs, l, k)
  }

  ghost function AllLined(rows: map<Key, Row>, line: Line, context: nat): map<Key, Row> {
    map k | k in rows :: Lined(rows[k], line, context)
  }

  ghost function Seated(lined: map<Key, Row>, before: seq<Line>, opens: bool, e: Event, l: Limits): map<Key, Row> {
    if opens then lined[KeyOf(e) := Added(NewRow(e, before), e, l.maxSamples)]
    else if e.notable && KeyOf(e) in lined then lined[KeyOf(e) := Added(lined[KeyOf(e)], e, l.maxSamples)]
    else lined
  }

  ghost function NextRows(held: map<Key, Row>, before: seq<Line>, opens: bool, e: Event, l: Limits): map<Key, Row> {
    Seated(AllLined(held, LineOf(e), l.context), before, opens, e, l)
  }

  /** An event of a key with no group is passed by; one of a key with a group
      joins it; a new key's group opens with the lines before. */
  lemma PassTracks(rows: map<Key, Row>, before: seq<Line>, evs: seq<Event>, e: Event, l: Limits)
    requires Tracks(rows, evs, l) && (!e.notable || KeyOf(e) !in rows)
    ensures Tracks(NextRows(rows, before, false, e, l), evs + [e], l)
  {
    forall k | k in rows
      ensures Occurs(evs + [e], k) && Lined(rows[k], LineOf(e), l.context) == RowOf(evs + [e], l, k)
    {
      RowStep(evs, e, l, k);
    }
  }

  lemma JoinTracks(rows: map<Key, Row>, before: seq<Line>, evs: seq<Event>, e: Event, l: Limits)
    requires Tracks(rows, evs, l) && e.notable && KeyOf(e) in rows
    ensures Tracks(NextRows(rows, before, false, e, l), evs + [e], l)
  {
    var key := KeyOf(e);
    RowStep(evs, e, l, key);
    forall k | k in rows && k != key
      ensures Occurs(evs + [e], k) && Lined(rows[k], LineOf(e), l.context) == RowOf(evs + [e], l, k)
    {
      RowStep(evs, e, l, k);
    }
  }

  lemma FoundTracks(rows: map<Key, Row>, before: seq<Line>, evs: seq<Event>, e: Event, l: Limits)
    requires Tracks(rows, evs, l) && e.notable && KeyOf(e) !in rows && First(evs, KeyOf(e)) == |evs|
    requires before == Preceding(evs, l.context, |evs|)
    ensures Tracks(NextRows(rows, before, true, e, l), evs + [e], l)
  {
    PassTracks(rows, before, evs, e, l);
    RowNew(evs, e, l);
  }

  // ---- what was turned away ----------------------------------------------

  /** Notable events whose key is, and is not, among `kept`. */
  function In(evs: seq<Event>, kept: seq<Key>): nat {
    if evs == [] then 0
    else
      var e := evs[|evs| - 1];
      In(evs[..|evs| - 1], kept) + if e.notable && KeyOf(e) in kept then 1 else 0
  }

  function Out(evs: seq<Event>, kept: seq<Key>, rule: string): nat {
    if evs == [] then 0
    else
      var e := evs[|evs| - 1];
      Out(evs[..|evs| - 1], kept, rule) + if e.notable && KeyOf(e) !in kept && e.rule == rule then 1 else 0
  }

  function Outside(evs: seq<Event>, kept: seq<Key>): nat {
    if evs == [] then 0
    else
      var e := evs[|evs| - 1];
      Outside(evs[..|evs| - 1], kept) + if e.notable && KeyOf(e) !in kept then 1 else 0
  }

  function Notable(evs: seq<Event>): nat {
    if evs == [] then 0
    else Notable(evs[..|evs| - 1]) + if evs[|evs| - 1].notable then 1 else 0
  }

  // The same counts, over positions in the list.

  function NotableAt(evs: seq<Event>): set<nat> {
    set i | 0 <= i < |evs| && evs[i].notable
  }

  function DroppedAt(evs: seq<Event>, kept: seq<Key>, rule: string): set<nat> {
    set i | 0 <= i < |evs| && evs[i].notable && evs[i].rule == rule && KeyOf(evs[i]) !in kept
  }

  lemma AtLonger(evs: seq<Event>, kept: seq<Key>, rule: string)
    requires evs != []
    ensures var n := |evs| - 1;
            && n !in NotableAt(evs[..n]) && n !in DroppedAt(evs[..n], kept, rule)
            && NotableAt(evs) == NotableAt(evs[..n]) + (if evs[n].notable then {n} else {})
            && DroppedAt(evs, kept, rule)
                 == DroppedAt(evs[..n], kept, rule)
                    + if evs[n].notable && evs[n].rule == rule && KeyOf(evs[n]) !in kept then {n} else {}
  {
  }

  lemma {:induction false} NotableIs(evs: seq<Event>)
    ensures Notable(evs) == |NotableAt(evs)|
  {
    if evs == [] {
      assert NotableAt([]) == {};
    } else {
      NotableIs(evs[..|evs| - 1]);
      AtLonger(evs, [], "");
    }
  }

  lemma {:induction false} OutIs(evs: seq<Event>, kept: seq<Key>, rule: string)
    ensures Out(evs, kept, rule) == |DroppedAt(evs, kept, rule)|
  {
    if evs == [] {
      assert DroppedAt([], kept, rule) == {};
    } else {
      OutIs(evs[..|evs| - 1], kept, rule);
      AtLonger(evs, kept, rule);
    }
  }

  /** The distinct keys of a rule that were never kept. */
  function Turned(evs: seq<Event>, kept: seq<Key>, rule: string): set<Key> {
    set e | e in evs && e.notable && e.rule == rule && KeyOf(e) !in kept :: KeyOf(e)
  }

  /** The two key lists agree on every key that occurs. */
  ghost predicate Agree(evs: seq<Event>, a: seq<Key>, b: seq<Key>) {
    forall e | e in evs && e.notable :: KeyOf(e) in a <==> KeyOf(e) in b
  }

  lemma {:induction false} AgreeCounts(evs: seq<Event>, a: seq<Key>, b: seq<Key>, rule: string)
    requires Agree(evs, a, b)
    ensures Out(evs, a, rule) == Out(evs, b, rule) && Outside(evs, a) == Outside(evs, b)
  {
    if evs != [] {
      AgreeCounts(evs[..|evs| - 1], a, b, rule);
    }
  }

  lemma AgreeTurned(evs: seq<Event>, a: seq<Key>, b: seq<Key>, rule: string)
    requires Agree(evs, a, b)
    ensures Turned(evs, a, rule) == Turned(evs, b, rule)
  {
  }

  /** One event more never changes what is already kept or dropped. */
  lemma KeptAgrees(evs: seq<Event>, e: Event, l: Limits)
    ensures Agree(evs, Kept(evs, l), Kept(evs + [e], l))
  {
    var all := evs + [e];
    assert all[..|evs|] == evs && all[..|all|] == all;
    forall x | x in evs && x.notable ensures KeyOf(x) in Kept(evs, l) <==> KeyOf(x) in Kept(all, l) {
      var i :| 0 <= i < |evs| && evs[i] == x;
      assert all[i] == x;
      KeptAtFirst(all, l, i, |evs|);
      KeptAtFirst(all, l, i, |all|);
    }
  }

  lemma KeptOne(evs: seq<Event>, e: Event, l: Limits)
    ensures Kept(evs + [e], l) ==
              var kept := Kept(evs, l);
              if !e.notable || KeyOf(e) in kept || Refuses(kept, l, KeyOf(e)) then kept else kept + [KeyOf(e)]
  {
    assert (evs + [e])[..|evs|] == evs;
  }

  /** A notable event of a key in no group either opens one or is dropped, and
      nothing else moves. */
  lemma OutStep(evs: seq<Event>, e: Event, l: Limits, rule: string)
    ensures var kept, more := Kept(evs, l), Kept(evs + [e], l);
            var out := e.notable && KeyOf(e) !in more;
            && Out(evs + [e], more, rule) == Out(evs, kept, rule) + (if out && e.rule == rule then 1 else 0)
            && Outside(evs + [e], more) == Outside(evs, kept) + (if out then 1 else 0)
            && Turned(evs + [e], more, rule)
                 == Turned(evs, kept, rule) + (if out && e.rule == rule then {KeyOf(e)} else {})
  {
    var kept, more := Kept(evs, l), Kept(evs + [e], l);
    KeptAgrees(evs, e, l);
    AgreeCounts(evs, kept, more, rule);
    AgreeTurned(evs, kept, more, rule);
    assert (evs + [e])[..|evs|] == evs;
    assert forall x :: x in evs + [e] <==> x in evs || x == e;
  }

  // ---- dictionaries of counters ------------------------------------------

  function KeysAt(m: map<string, set<Key>>, k: string): set<Key> {
    if k in m then m[k] else {}
  }

  lemma TotalBumps(m: map<string, nat>, k: string)
    ensures Total(m[k := Tally(m, k) + 1]) == Total(m) + 1
  {
    TotalPuts(m, k, Tally(m, k) + 1);
    if k in m {
      TotalTakes(m, k);
    } else {
      assert m - {k} == m;
    }
  }

  /** The books kept by rule: groups opened, codes shown, keys and events
      dropped. */
  datatype Ledger = Ledger(
    order: seq<Key>, opens: map<string, nat>, shown: set<string>,
    droppedGroups: map<string, set<Key>>, droppedEvents: map<string, nat>)

  ghost predicate Right(b: Ledger, evs: seq<Event>, l: Limits) {
    && b.order == Kept(evs, l)
    && b.shown == Shown(b.order)
    && (forall rule :: Tally(b.opens, rule) == OfRule(b.order, rule))
    && (forall rule :: KeysAt(b.droppedGroups, rule) == Turned(evs, b.order, rule))
    && (forall rule :: Tally(b.droppedEvents, rule) == Out(evs, b.order, rule))
    && Total(b.droppedEvents) == Outside(evs, b.order)
  }

  predicate Full(b: Ledger, e: Event, l: Limits) {
    var n, cap := Tally(b.opens, e.rule), Cap(l, e.rule);
    n >= cap && (n >= 2 * cap || e.codes <= b.shown)
  }

  function Opened(b: Ledger, e: Event): Ledger {
    b.(order := b.order + [KeyOf(e)], opens := b.opens[e.rule := Tally(b.opens, e.rule) + 1],
       shown := b.shown + e.codes)
  }

  function Refused(b: Ledger, e: Event): Ledger {
    b.(droppedGroups := b.droppedGroups[e.rule := KeysAt(b.droppedGroups, e.rule) + {KeyOf(e)}],
       droppedEvents := b.droppedEvents[e.rule := Tally(b.droppedEvents, e.rule) + 1])
  }

  function Judged(b: Ledger, e: Event, l: Limits): Ledger {
    if !e.notable || KeyOf(e) in b.order then b
    else if Full(b, e, l) then Refused(b, e)
    else Opened(b, e)
  }

  function LedgerOf(evs: seq<Event>, l: Limits): Ledger {
    if evs == [] then Ledger([], map[], {}, map[], map[])
    else Judged(LedgerOf(evs[..|evs| - 1], l), evs[|evs| - 1], l)
  }

  /** The first event of a key, or one of a key dropped before. */
  lemma OpenedRight(b: Ledger, evs: seq<Event>, e: Event, l: Limits)
    requires Right(b, evs, l) && e.notable && KeyOf(e) !in b.order && !Full(b, e, l)
    ensures Right(Opened(b, e), evs + [e], l)
  {
    assert !Refuses(b.order, l, KeyOf(e));
    OpenMoves(evs, e, l);
  }

  lemma RefusedRight(b: Ledger, evs: seq<Event>, e: Event, l: Limits)
    requires Right(b, evs, l) && e.notable && KeyOf(e) !in b.order && Full(b, e, l)
    ensures Right(Refused(b, e), evs + [e], l)
  {
    assert Refuses(b.order, l, KeyOf(e));
    DropMoves(evs, e, l);
    TotalBumps(b.droppedEvents, e.rule);
  }

  /** An event that opens nothing and drops nothing. */
  lemma SameRight(b: Ledger, evs: seq<Event>, e: Event, l: Limits)
    requires Right(b, evs, l) && (!e.notable || KeyOf(e) in b.order)
    ensures Right(b, evs + [e], l)
  {
    KeptOne(evs, e, l);
    forall rule ensures KeysAt(b.droppedGroups, rule) == Turned(evs + [e], b.order, rule)
      ensures Tally(b.droppedEvents, rule) == Out(evs + [e], b.order, rule)
    {
      OutStep(evs, e, l, rule);
    }
    OutStep(evs, e, l, e.rule);
  }

  /** The books are right after any events. */
  lemma {:induction false} LedgerRight(evs: seq<Event>, l: Limits)
    ensures Right(LedgerOf(evs, l), evs, l)
  {
    if evs != [] {
      var front, e := evs[..|evs| - 1], evs[|evs| - 1];
      assert evs == front + [e];
      LedgerRight(front, l);
      var b := LedgerOf(front, l);
      if !e.notable || KeyOf(e) in b.order {
        SameRight(b, front, e, l);
      } else if Full(b, e, l) {
        RefusedRight(b, front, e, l);
      } else {
        OpenedRight(b, front, e, l);
      }
    }
  }

  lemma OpenMoves(evs: seq<Event>, e: Event, l: Limits)
    requires e.notable && KeyOf(e) !in Kept(evs, l) && !Refuses(Kept(evs, l), l, KeyOf(e))
    ensures var kept := Kept(evs, l);
            var more := kept + [KeyOf(e)];
            && Kept(evs + [e], l) == more
            && Shown(more) == Shown(kept) + e.codes
            && Outside(evs + [e], more) == Outside(evs, kept)
            && (forall rule :: OfRule(more, rule) == OfRule(kept, rule) + if e.rule == rule then 1 else 0)
            && (forall rule :: Out(evs + [e], more, rule) == Out(evs, kept, rule))
            && (forall rule :: Turned(evs + [e], more, rule) == Turned(evs, kept, rule))
  {
    var kept := Kept(evs, l);
    KeptOne(evs, e, l);
    KeyAdded(kept, KeyOf(e));
    OutStep(evs, e, l, e.rule);
    forall rule ensures Out(evs + [e], kept + [KeyOf(e)], rule) == Out(evs, kept, rule)
      ensures Turned(evs + [e], kept + [KeyOf(e)], rule) == Turned(evs, kept, rule)
    {
      OutStep(evs, e, l, rule);
    }
  }

  lemma DropMoves(evs: seq<Event>, e: Event, l: Limits)
    requires e.notable && KeyOf(e) !in Kept(evs, l) && Refuses(Kept(evs, l), l, KeyOf(e))
    ensures var kept := Kept(evs, l);
            && Kept(evs + [e], l) == kept
            && Outside(evs + [e], kept) == Outside(evs, kept) + 1
            && (forall rule :: Out(evs + [e], kept, rule) == Out(evs, kept, rule) + if e.rule == rule then 1 else 0)
            && (forall rule :: Turned(evs + [e], kept, rule)
                                 == Turned(evs, kept, rule) + if e.rule == rule then {KeyOf(e)} else {})
  {
    var kept := Kept(evs, l);
    KeptOne(evs, e, l);
    OutStep(evs, e, l, e.rule);
    forall rule ensures Out(evs + [e], kept, rule) == Out(evs, kept, rule) + if e.rule == rule then 1 else 0
      ensures Turned(evs + [e], kept, rule) == Turned(evs, kept, rule) + if e.rule == rule then {KeyOf(e)} else {}
    {
      OutStep(evs, e, l, rule);
    }
  }

  // ---- the scan ----------------------------------------------------------

  method Advance(groups: map<Key, Group>, pending: seq<Group>, line: Line, context: nat, ghost rows: map<Key, Row>)
    returns (still: seq<Group>)
    requires Open(groups, pending, context) && Holds(groups, rows)
    requires forall k | k in groups :: groups[k].key == k
    modifies pending
    ensures Open(groups, still, context) && Holds(groups, AllLined(rows, line, context))
    ensures forall g | g in still :: g in pending
  {
    still := FeedLine(pending, line, context);
    forall k | k in groups ensures groups[k].AsRow() == Lined(rows[k], line, context) {
      assert old(groups[k].AsRow()) == rows[k];
      if groups[k] !in pending {
        assert groups[k].AsRow() == old(groups[k].AsRow());
      }
    }
  }

  method Join(groups: map<Key, Group>, pending: seq<Group>, e: Event, l: Limits, ghost rows: map<Key, Row>)
    requires Open(groups, pending, l.context) && Holds(groups, rows)
    requires forall k | k in groups :: groups[k].key == k
    requires KeyOf(e) in groups
    modifies groups[KeyOf(e)]
    ensures Open(groups, pending, l.context)
    ensures Holds(groups, rows[KeyOf(e) := Added(rows[KeyOf(e)], e, l.maxSamples)])
  {
    groups[KeyOf(e)].Add(e, l.maxSamples);
    assert forall k | k in groups :: groups[k].AsRow().after == old(groups[k].AsRow()).after;
  }

  /** A new group, opened with the lines just before its first event. */
  method Found(groups: map<Key, Group>, pending: seq<Group>, before: seq<Line>, e: Event, l: Limits,
               ghost rows: map<Key, Row>)
    returns (more: map<Key, Group>, waiting: seq<Group>)
    requires Open(groups, pending, l.context) && Holds(groups, rows)
    requires forall k | k in groups :: groups[k].key == k
    requires KeyOf(e) !in groups
    ensures more.Keys == groups.Keys + {KeyOf(e)}
    ensures forall k | k in groups :: more[k] == groups[k]
    ensures more[KeyOf(e)].key == KeyOf(e) && fresh(more[KeyOf(e)])
    ensures Open(more, waiting, l.context)
    ensures Holds(more, rows[KeyOf(e) := Added(NewRow(e, before), e, l.maxSamples)])
  {
    var g := new Group(e, before);
    g.Add(e, l.maxSamples);
    assert g.AsRow().after == [] && g.AsRow().key == KeyOf(e);
    more := groups[KeyOf(e) := g];
    waiting := if l.context > 0 then pending + [g] else pending;
  }

  /** A group that opens, opens at its key's first event. */
  lemma OpensAtFirst(evs: seq<Event>, e: Event, l: Limits)
    requires e.notable && KeyOf(e) !in Kept(evs, l) && KeyOf(e) in Kept(evs + [e], l)
    ensures First(evs, KeyOf(e)) == |evs|
  {
    FirstIsFirst(evs, KeyOf(e));
    var at := First(evs, KeyOf(e));
    if at < |evs| {
      var all := evs + [e];
      assert all[..|evs|] == evs && all[..|all|] == all;
      assert all[at] == evs[at];
      KeptAtFirst(all, l, at, |evs|);
      KeptAtFirst(all, l, at, |all|);
    }
  }

  /** The rows after one event, once it is known whether it opens a group. */
  predicate Opens(b: Ledger, e: Event, l: Limits) {
    e.notable && KeyOf(e) !in b.order && !Full(b, e, l)
  }

  ghost function RowsAfter(evs: seq<Event>, l: Limits): map<Key, Row> {
    if evs == [] then map[]
    else
      var front, e := evs[..|evs| - 1], evs[|evs| - 1];
      NextRows(RowsAfter(front, l), DequeOf(front, l.context), Opens(LedgerOf(front, l), e, l), e, l)
  }

  lemma {:induction false} RowsKeyed(evs: seq<Event>, l: Limits)
    ensures forall k :: k in RowsAfter(evs, l) <==> k in LedgerOf(evs, l).order
  {
    if evs != [] {
      RowsKeyed(evs[..|evs| - 1], l);
    }
  }

  /** The rows that the scan builds up event by event are what the whole list
      says of their keys. */
  lemma {:induction false} RowsTrack(evs: seq<Event>, l: Limits)
    ensures Tracks(RowsAfter(evs, l), evs, l)
  {
    if evs != [] {
      var front, e := evs[..|evs| - 1], evs[|evs| - 1];
      assert evs == front + [e];
      RowsTrack(front, l);
      RowsKeyed(front, l);
      DequeIsPreceding(front, l.context);
      var rows, before := RowsAfter(front, l), DequeOf(front, l.context);
      if Opens(LedgerOf(front, l), e, l) {
        OpensNew(front, e, l);
        FoundTracks(rows, before, front, e, l);
      } else if e.notable && KeyOf(e) in rows {
        JoinTracks(rows, before, front, e, l);
      } else {
        PassTracks(rows, before, front, e, l);
      }
    }
  }

  lemma OpensNew(evs: seq<Event>, e: Event, l: Limits)
    requires Opens(LedgerOf(evs, l), e, l)
    ensures First(evs, KeyOf(e)) == |evs|
  {
    LedgerRight(evs, l);
    assert !Refuses(Kept(evs, l), l, KeyOf(e));
    KeptOne(evs, e, l);
    OpensAtFirst(evs, e, l);
  }

  // ---- the scan ----------------------------------------------------------

  class Books {
    var order: seq<Key>
    var opens: map<string, nat>
    var shown: set<string>
    var droppedGroups: map<string, set<Key>>
    var droppedEvents: map<string, nat>

    constructor ()
      ensures AsLedger() == Ledger([], map[], {}, map[], map[])
    {
      order, opens, shown, droppedGroups, droppedEvents := [], map[], {}, map[], map[];
    }

    function AsLedger(): Ledger
      reads this
    {
      Ledger(order, opens, shown, droppedGroups, droppedEvents)
    }

    /** Whether the event opens a group, and the books after it. */
    method Judge(e: Event, l: Limits, known: bool) returns (opening: bool)
      requires known <==> KeyOf(e) in order
      modifies this
      ensures AsLedger() == Judged(old(AsLedger()), e, l)
      ensures opening <==> Opens(old(AsLedger()), e, l)
    {
      opening := false;
      if e.notable && !known {
        var cap := Cap(l, e.rule);
        var n := Tally(opens, e.rule);
        if n >= cap && (n >= 2 * cap || e.codes <= shown) {
          droppedGroups := droppedGroups[e.rule := KeysAt(droppedGroups, e.rule) + {KeyOf(e)}];
          droppedEvents := droppedEvents[e.rule := Tally(droppedEvents, e.rule) + 1];
        } else {
          opens := opens[e.rule := n + 1];
          shown := shown + e.codes;
          order := order + [KeyOf(e)];
          opening := true;
        }
      }
    }
  }

  /** Every group under its own key, pending exactly those with open context,
      each in the state its row says. */
  ghost predicate Memory(groups: map<Key, Group>, pending: seq<Group>, held: map<Key, Row>, context: nat)
    reads Objects(groups)
  {
    && (forall k | k in groups :: groups[k].key == k)
    && Open(groups, pending, context) && Holds(groups, held)
  }

  /** The event joins its group, opens one or is passed by. */
  method Seat(groups: map<Key, Group>, pending: seq<Group>, before: seq<Line>, opens: bool, e: Event, l: Limits,
              ghost lined: map<Key, Row>)
    returns (more: map<Key, Group>, waiting: seq<Group>)
    requires Memory(groups, pending, lined, l.context)
    requires opens ==> e.notable && KeyOf(e) !in groups
    modifies Objects(groups)
    ensures Memory(more, waiting, Seated(lined, before, opens, e, l), l.context)
    ensures forall g | g in Objects(more) :: g in Objects(groups) || fresh(g)
  {
    more, waiting := groups, pending;
    if opens {
      more, waiting := Found(groups, pending, before, e, l, lined);
    } else if e.notable && KeyOf(e) in groups {
      Join(groups, pending, e, l, lined);
    }
  }

  /** One event: every open context takes its line, then the event joins its
      group, opens one or is passed by. */
  method Place(groups: map<Key, Group>, pending: seq<Group>, before: seq<Line>, opens: bool, e: Event, l: Limits,
               ghost held: map<Key, Row>)
    returns (more: map<Key, Group>, waiting: seq<Group>)
    requires Memory(groups, pending, held, l.context)
    requires opens ==> e.notable && KeyOf(e) !in groups
    modifies Objects(groups)
    ensures Memory(more, waiting, NextRows(held, before, opens, e, l), l.context)
    ensures forall g | g in Objects(more) :: g in Objects(groups) || fresh(g)
  {
    assert forall g | g in pending :: g in Objects(groups);
    waiting := Advance(groups, pending, LineOf(e), l.context, held);
    more, waiting := Seat(groups, waiting, before, opens, e, l, AllLined(held, LineOf(e), l.context));
  }

  lemma OneMore(evs: seq<Event>, e: Event, l: Limits)
    ensures var all, b := evs + [e], LedgerOf(evs, l);
            && LedgerOf(all, l) == Judged(b, e, l)
            && DequeOf(all, l.context) == Pushed(DequeOf(evs, l.context), LineOf(e), l.context)
            && RowsAfter(all, l) == NextRows(RowsAfter(evs, l), DequeOf(evs, l.context), Opens(b, e, l), e, l)
  {
    assert (evs + [e])[..|evs|] == evs;
  }

  /** One event taken in by the books and by the groups. */
  method Step(books: Books, groups: map<Key, Group>, pending: seq<Group>, dq: seq<Line>, e: Event, l: Limits,
              ghost held: map<Key, Row>)
    returns (more: map<Key, Group>, waiting: seq<Group>)
    requires Memory(groups, pending, held, l.context) && forall k :: k in held <==> k in books.order
    modifies books, Objects(groups)
    ensures books.AsLedger() == Judged(old(books.AsLedger()), e, l)
    ensures Memory(more, waiting, NextRows(held, dq, Opens(old(books.AsLedger()), e, l), e, l), l.context)
    ensures forall g | g in Objects(more) :: g in Objects(groups) || fresh(g)
  {
    var opens := books.Judge(e, l, KeyOf(e) in groups);
    more, waiting := Place(groups, pending, dq, opens, e, l, held);
  }

  /** The pass itself. */
  method Pass(evs: seq<Event>, l: Limits) returns (books: Books, groups: map<Key, Group>)
    ensures books.AsLedger() == LedgerOf(evs, l)
    ensures Holds(groups, RowsAfter(evs, l))
  {
    books := new Books();
    groups := map[];
    var pending: seq<Group> := [];
    var dq: seq<Line> := [];
    for i := 0 to |evs|
      invariant fresh(books) && forall g | g in Objects(groups) :: fresh(g)
      invariant books.AsLedger() == LedgerOf(evs[..i], l)
      invariant Memory(groups, pending, RowsAfter(evs[..i], l), l.context)
      invariant dq == DequeOf(evs[..i], l.context)
    {
      hide LedgerOf, RowsAfter, DequeOf, NextRows, Judged, Pushed;
      ghost var seen := evs[..i];
      assert evs[..i + 1] == seen + [evs[i]];
      OneMore(seen, evs[i], l);
      RowsKeyed(seen, l);
      groups, pending := Step(books, groups, pending, dq, evs[i], l, RowsAfter(seen, l));
      dq := Pushed(dq, LineOf(evs[i]), l.context);
    }
    assert evs[..|evs|] == evs;
  }

  /** One pass over the events.  The groups come back in order of creation, each
      the row its key has over the whole list; what was dropped is counted by
      rule. */
  method Scan(evs: seq<Event>, l: Limits)
    returns (rows: seq<Row>, droppedGroups: map<string, set<Key>>, droppedEvents: map<string, nat>)
    ensures |rows| == |Kept(evs, l)|
    ensures forall i | 0 <= i < |rows| :: Occurs(evs, Kept(evs, l)[i]) && rows[i] == RowOf(evs, l, Kept(evs, l)[i])
    ensures forall i | 0 <= i < |rows| :: rows[i].key == Kept(evs, l)[i] && RowSays(evs, l, rows[i])
    ensures forall rule :: KeysAt(droppedGroups, rule) == Turned(evs, Kept(evs, l), rule)
    ensures forall rule :: Tally(droppedEvents, rule) == Out(evs, Kept(evs, l), rule)
    ensures forall rule :: DropsCounted(evs, rows, droppedEvents, rule)
    ensures Total(droppedEvents) == Outside(evs, Kept(evs, l))
    ensures forall rule :: AllIn(evs, l, rows, droppedEvents, rule)
  {
    var books, groups := Pass(evs, l);
    RowsKeyed(evs, l);
    RowsTrack(evs, l);
    LedgerRight(evs, l);
    droppedGroups, droppedEvents := books.droppedGroups, books.droppedEvents;
    rows := Listed(groups, books.order);
    RowsAreSaid(evs, l, rows);
    forall rule ensures AllIn(evs, l, rows, droppedEvents, rule) && DropsCounted(evs, rows, droppedEvents, rule) {
      NoneDropped(evs, l, rows, droppedEvents, rule);
      DropsAreCounted(evs, l, rows, droppedEvents, rule);
    }
  }

  lemma RowsAreSaid(evs: seq<Event>, l: Limits, rows: seq<Row>)
    requires |rows| == |Kept(evs, l)|
    requires forall i | 0 <= i < |rows| :: Occurs(evs, Kept(evs, l)[i]) && rows[i] == RowOf(evs, l, Kept(evs, l)[i])
    ensures forall i | 0 <= i < |rows| :: rows[i].key == Kept(evs, l)[i] && RowSays(evs, l, rows[i])
  {
    hide RowSays;
    forall i | 0 <= i < |rows| ensures rows[i].key == Kept(evs, l)[i] && RowSays(evs, l, rows[i]) {
      assert rows[i] == RowOf(evs, l, Kept(evs, l)[i]);
      RowIsSaid(evs, l, Kept(evs, l)[i]);
    }
  }

  /** The count of a rule's dropped events is that of its notable events whose key
      has no row. */
  ghost predicate DropsCounted(evs: seq<Event>, rows: seq<Row>, dropped: map<string, nat>, rule: string) {
    (if rule in dropped then dropped[rule] else 0)
      == |set i | 0 <= i < |evs| && evs[i].notable && evs[i].rule == rule && NoRow(rows, KeyOf(evs[i]))|
  }

  predicate NoRow(rows: seq<Row>, k: Key) {
    forall r | r in rows :: r.key != k
  }

  lemma DropsAreCounted(evs: seq<Event>, l: Limits, rows: seq<Row>, dropped: map<string, nat>, rule: string)
    requires |rows| == |Kept(evs, l)| && forall i | 0 <= i < |rows| :: rows[i].key == Kept(evs, l)[i]
    requires Tally(dropped, rule) == Out(evs, Kept(evs, l), rule)
    ensures DropsCounted(evs, rows, dropped, rule)
  {
    var kept := Kept(evs, l);
    OutIs(evs, kept, rule);
    forall k: Key ensures NoRow(rows, k) <==> k !in kept {
      if k in kept {
        var i :| 0 <= i < |kept| && kept[i] == k;
        assert rows[i] in rows;
      }
    }
    assert (set i | 0 <= i < |evs| && evs[i].notable && evs[i].rule == rule && NoRow(rows, KeyOf(evs[i])))
        == DroppedAt(evs, kept, rule);
  }

  /** A rule with no more distinct keys than its own limit has a row for each, and
      none of its events is dropped. */
  ghost predicate AllIn(evs: seq<Event>, l: Limits, rows: seq<Row>, dropped: map<string, nat>, rule: string) {
    |KeysSeen(evs, rule)| <= (if rule == "unmatched" then l.maxUnmatched else l.maxGroups) ==>
      && (rule in dropped ==> dropped[rule] == 0)
      && forall e | e in evs && e.notable && e.rule == rule :: exists r :: r in rows && r.key == KeyOf(e)
  }

  lemma {:induction false} NoneOut(evs: seq<Event>, kept: seq<Key>, rule: string)
    requires forall e | e in evs && e.notable && e.rule == rule :: KeyOf(e) in kept
    ensures Out(evs, kept, rule) == 0
  {
    if evs != [] {
      var n := |evs| - 1;
      assert evs == evs[..n] + [evs[n]];
      NoneOut(evs[..n], kept, rule);
    }
  }

  lemma NoneDropped(evs: seq<Event>, l: Limits, rows: seq<Row>, dropped: map<string, nat>, rule: string)
    requires |rows| == |Kept(evs, l)| && forall i | 0 <= i < |rows| :: rows[i].key == Kept(evs, l)[i]
    requires Tally(dropped, rule) == Out(evs, Kept(evs, l), rule)
    ensures AllIn(evs, l, rows, dropped, rule)
  {
    var limit := if rule == "unmatched" then l.maxUnmatched else l.maxGroups;
    if |KeysSeen(evs, rule)| <= limit {
      AllKept(evs, l, rule, limit);
      forall e | e in evs && e.notable && e.rule == rule ensures KeyOf(e) in Kept(evs, l) {
        assert KeyOf(e) in KeysSeen(evs, rule);
      }
      NoneOut(evs, Kept(evs, l), rule);
      forall e | e in evs && e.notable && e.rule == rule ensures exists r :: r in rows && r.key == KeyOf(e) {
        var i :| 0 <= i < |Kept(evs, l)| && Kept(evs, l)[i] == KeyOf(e);
        assert rows[i] in rows;
      }
    }
  }

  method Listed(groups: map<Key, Group>, order: seq<Key>) returns (rows: seq<Row>)
    requires forall k | k in order :: k in groups
    ensures |rows| == |order| && forall i | 0 <= i < |order| :: rows[i] == groups[order[i]].AsRow()
  {
    rows := [];
    for i := 0 to |order|
      invariant |rows| == i && forall j | 0 <= j < i :: rows[j] == groups[order[j]].AsRow()
    {
      rows := rows + [groups[order[i]].AsRow()];
    }
  }

  // ---- conservation ------------------------------------------------------

  function Counts(rows: seq<Row>): nat {
    if rows == [] then 0 else Counts(rows[..|rows| - 1]) + rows[|rows| - 1].count
  }

  lemma {:induction false} InGrows(evs: seq<Event>, kept: seq<Key>, k: Key)
    requires k !in kept
    ensures In(evs, kept + [k]) == In(evs, kept) + |Of(evs, k)|
  {
    if evs != [] {
      InGrows(evs[..|evs| - 1], kept, k);
    }
  }

  lemma {:induction false} InEmpty(evs: seq<Event>)
    ensures In(evs, []) == 0
  {
    if evs != [] {
      InEmpty(evs[..|evs| - 1]);
    }
  }

  lemma {:induction false} CountsAreIn(evs: seq<Event>, kept: seq<Key>, rows: seq<Row>)
    requires |rows| == |kept| && forall i | 0 <= i < |rows| :: rows[i].count == |Of(evs, kept[i])|
    requires forall i, j | 0 <= i < j < |kept| :: kept[i] != kept[j]
    ensures Counts(rows) == In(evs, kept)
  {
    if rows == [] {
      InEmpty(evs);
    } else {
      var n := |kept| - 1;
      CountsAreIn(evs, kept[..n], rows[..n]);
      InGrows(evs, kept[..n], kept[n]);
      assert kept[..n] + [kept[n]] == kept;
    }
  }

  lemma {:induction false} InOrOut(evs: seq<Event>, kept: seq<Key>)
    ensures In(evs, kept) + Outside(evs, kept) == Notable(evs)
  {
    if evs != [] {
      InOrOut(evs[..|evs| - 1], kept);
    }
  }

  /** Group counts plus dropped events are the notable events, whatever the
      caps. */
  lemma Conserved(evs: seq<Event>, l: Limits, rows: seq<Row>)
    requires |rows| == |Kept(evs, l)|
    requires forall i | 0 <= i < |rows| :: Occurs(evs, Kept(evs, l)[i]) && rows[i] == RowOf(evs, l, Kept(evs, l)[i])
    ensures Counts(rows) + Outside(evs, Kept(evs, l)) == Notable(evs)
  {
    var kept := Kept(evs, l);
    KeptDistinct(evs, l);
    forall i | 0 <= i < |rows| ensures rows[i].count == |Of(evs, kept[i])| {
      assert rows[i] == RowOf(evs, l, kept[i]);
    }
    CountsAreIn(evs, kept, rows);
    InOrOut(evs, kept);
  }

  /** The digest's total of notable events. */
  method NotableTotal(rows: seq<Row>, droppedEvents: map<string, nat>) returns (n: nat)
    ensures n == Counts(rows) + Total(droppedEvents)
  {
    n := 0;
    for i := 0 to |rows|
      invariant n == Counts(rows[..i])
    {
      assert rows[..i + 1][..i] == rows[..i];
      n := n + rows[i].count;
    }
    assert rows[..|rows|] == rows;
    var dropped := droppedEvents;
    while dropped != map[]
      invariant n + Total(dropped) == Counts(rows) + Total(droppedEvents)
      decreases |dropped|
    {
      var rule :| rule in dropped;
      TotalTakes(dropped, rule);
      n := n + dropped[rule];
      dropped := dropped - {rule};
    }
  }

  /** One source scanned and summed: exactly its notable events. */
  method CompactSource(evs: seq<Event>, l: Limits) returns (notable: nat)
    ensures notable == Notable(evs)
    ensures notable == |NotableAt(evs)|
  {
    NotableIs(evs);
    var rows, _, dropped := Scan(evs, l);
    Conserved(evs, l, rows);
    notable := NotableTotal(rows, dropped);
  }

  /** A source's events, and the limits it is scanned under. */
  datatype Source = Source(events: seq<Event>, limits: Limits)

  function NotableIn(sources: seq<Source>): nat {
    if sources == [] then 0
    else NotableIn(sources[..|sources| - 1]) + Notable(sources[|sources| - 1].events)
  }

  /** The digest's total over all sources: exactly the notable events of each,
      no more and no less, whatever the caps. */
  method Compact(sources: seq<Source>) returns (total: nat)
    ensures total == NotableIn(sources)
  {
    total := 0;
    for i := 0 to |sources|
      invariant total == NotableIn(sources[..i])
    {
      assert sources[..i + 1][..i] == sources[..i];
      var notable := CompactSource(sources[i].events, sources[i].limits);
      total := total + notable;
    }
    assert sources[..|sources|] == sources;
  }
}
