/**
 The capped run-health log: every process appends under the log's lock and trims
 by its own running line count, which other processes leave stale.
 */
module HealthLog {
  import opened Wrappers
  import opened Numbers

  function Slack(cap: nat): nat {
    if cap / 10 > 1 then cap / 10 else 1
  }

  /** `lines[-cap:]`, which for a cap of zero is every line. */
  function LastLines(lines: seq<string>, cap: nat): seq<string> {
    if cap == 0 || |lines| <= cap then lines else lines[|lines| - cap..]
  }

  /** The log and the process's count after one append. */
  function Written(log: seq<string>, count: Option<nat>, line: string, cap: nat): (seq<string>, nat) {
    var longer := log + [line];
    var n := if count.Some? then count.value + 1 else |longer|;
    if n <= cap + Slack(cap) then (longer, n)
    else (LastLines(longer, cap), Min(|longer|, cap))
  }

  /** A tenth of the cap, and at least one line, is let grow before a trim: with a
      count read from the file, the log is cut to its last `cap` lines exactly when
      it is longer than that, and never for a cap of zero. */
  lemma TrimsWhen(log: seq<string>, line: string, cap: nat)
    ensures var longer := log + [line];
            var r := Written(log, None, line, cap);
            var over := if cap < 20 then |longer| > cap + 1 else |longer| > cap + cap / 10;
            && (over && cap > 0 ==> |r.0| == cap == r.1 && r.0 == longer[|longer| - cap..])
            && (!over || cap == 0 ==> r.0 == longer)
            && (!over ==> r.1 == |longer|)
  {
  }

  /** With a count of its own a process adds one and trims by that, whatever the
      file holds; a file that is not over the cap only corrects the count. */
  lemma TrimsByCount(log: seq<string>, n: nat, line: string, cap: nat)
    ensures var longer := log + [line];
            var r := Written(log, Some(n), line, cap);
            var over := if cap < 20 then n + 1 > cap + 1 else n + 1 > cap + cap / 10;
            && (!over ==> r == (longer, n + 1))
            && (over && |longer| <= cap ==> r == (longer, |longer|))
            && (over && |longer| > cap > 0 ==> r == (longer[|longer| - cap..], cap))
            && (over && cap == 0 ==> r == (longer, 0))
  {
  }

  class Disk {
    var files: map<string, seq<string>>
  }

  function ReadLines(files: map<string, seq<string>>, path: string): seq<string> {
    if path in files then files[path] else []
  }

  function CountAt(counts: map<string, nat>, path: string): Option<nat> {
    if path in counts then Some(counts[path]) else None
  }

  class Process {
    var counts: map<string, nat>

    constructor ()
      ensures counts == map[]
    {
      counts := map[];
    }

    /** Append a line, and trim when the count has drifted past the slack. */
    method AppendAndTrim(disk: Disk, path: string, line: string, cap: nat)
      modifies this, disk
      ensures var w := Written(old(ReadLines(disk.files, path)), old(CountAt(counts, path)), line, cap);
              disk.files == old(disk.files)[path := w.0] && counts == old(counts)[path := w.1]
    {
      var lines := ReadLines(disk.files, path) + [line];
      disk.files := disk.files[path := lines];
      var n := if path in counts then counts[path] + 1 else |lines|;
      counts := counts[path := n];
      if n > cap + Slack(cap) {
        Trim(disk, path, cap);
      }
    }

    /** The count corrected from the file, and the file cut if it is over. */
    method Trim(disk: Disk, path: string, cap: nat)
      requires path in disk.files
      modifies this, disk
      ensures disk.files == old(disk.files)[path := LastLines(old(disk.files)[path], cap)]
      ensures counts == old(counts)[path := Min(|old(disk.files)[path]|, cap)]
    {
      var lines := disk.files[path];
      if |lines| <= cap {
        counts := counts[path := |lines|];
        return;
      }
      disk.files := disk.files[path := LastLines(lines, cap)];
      counts := counts[path := cap];
    }
  }

  // ---- runs of many processes on one log ---------------------------------

  /** A process appends a line, or ends and takes its count with it. */
  datatype Step = Append(process: nat, line: string) | End(process: nat)

  /** The log, the counts of the processes that have one, and every line there
      has ever been. */
  datatype World = World(log: seq<string>, counts: map<nat, nat>, ever: seq<string>)

  function Stepped(w: World, s: Step, cap: nat): World {
    match s
    case Append(p, line) =>
      var r := Written(w.log, if p in w.counts then Some(w.counts[p]) else None, line, cap);
      World(r.0, w.counts[p := r.1], w.ever + [line])
    case End(p) => w.(counts := w.counts - {p})
  }

  function Run(w: World, steps: seq<Step>, cap: nat): World {
    if steps == [] then w else Stepped(Run(w, steps[..|steps| - 1], cap), steps[|steps| - 1], cap)
  }

  predicate IsSuffix(a: seq<string>, b: seq<string>) {
    |a| <= |b| && b[|b| - |a|..] == a
  }

  lemma SuffixAdds(a: seq<string>, b: seq<string>, line: string)
    requires IsSuffix(a, b)
    ensures IsSuffix(a + [line], b + [line])
  {
    assert (b + [line])[|b| - |a|..] == b[|b| - |a|..] + [line];
  }

  lemma SuffixLast(a: seq<string>, b: seq<string>, cap: nat)
    requires IsSuffix(a, b)
    ensures IsSuffix(LastLines(a, cap), b)
  {
    if 0 < cap < |a| {
      assert b[|b| - cap..] == a[|a| - cap..];
    }
  }

  lemma SuffixStep(w: World, s: Step, cap: nat)
    requires IsSuffix(w.log, w.ever) && |w.log| >= Min(|w.ever|, cap)
    ensures var t := Stepped(w, s, cap); IsSuffix(t.log, t.ever) && |t.log| >= Min(|t.ever|, cap)
  {
    if s.Append? {
      SuffixAdds(w.log, w.ever, s.line);
      SuffixLast(w.log + [s.line], w.ever + [s.line], cap);
    }
  }

  /** Whatever the processes do, the log is the end of everything written, and
      loses no line while there are at most `cap`. */
  lemma {:induction false} AlwaysASuffix(w: World, steps: seq<Step>, cap: nat)
    requires w.ever == w.log
    ensures var t := Run(w, steps, cap); IsSuffix(t.log, t.ever) && |t.log| >= Min(|t.ever|, cap)
  {
    if steps == [] {
      assert w.log[0..] == w.log;
    } else {
      AlwaysASuffix(w, steps[..|steps| - 1], cap);
      SuffixStep(Run(w, steps[..|steps| - 1], cap), steps[|steps| - 1], cap);
    }
  }

  // ---- how long it gets --------------------------------------------------

  /** `m` holds the count of every process that has one, and of those that ended
      since a process last counted the file; together they cover the log. */
  ghost predicate Weighs(m: map<nat, nat>, w: World, cap: nat, processes: nat) {
    && (forall p | p in w.counts :: p in m && m[p] == w.counts[p])
    && (forall p | p in m :: m[p] <= cap + Slack(cap))
    && |m| <= processes
    && |w.log| <= Total(m)
  }

  lemma WrittenCount(log: seq<string>, count: Option<nat>, line: string, cap: nat)
    requires cap > 0
    ensures var r := Written(log, count, line, cap);
            && r.1 <= cap + Slack(cap)
            && |r.0| <= |log| + 1
            && (count.None? ==> r.1 == |r.0|)
            && (count.Some? ==> r.1 == |r.0| || (r.1 == count.value + 1 && |r.0| == |log| + 1))
  {
  }

  lemma AppendWeighs(m: map<nat, nat>, w: World, p: nat, line: string, cap: nat, processes: nat)
    returns (n: map<nat, nat>)
    requires cap > 0 && p in w.counts && Weighs(m, w, cap, processes)
    ensures Weighs(n, Stepped(w, Append(p, line), cap), cap, processes)
  {
    var t := Stepped(w, Append(p, line), cap);
    WrittenCount(w.log, Some(w.counts[p]), line, cap);
    n := m[p := t.counts[p]];
    TotalTakes(m, p);
    TotalPuts(m, p, t.counts[p]);
    assert n.Keys == m.Keys;
  }

  /** A process that counts the file afresh needs nobody else's count. */
  lemma SeedWeighs(w: World, p: nat, line: string, cap: nat, processes: nat) returns (n: map<nat, nat>)
    requires cap > 0 && p !in w.counts && |Stepped(w, Append(p, line), cap).counts| <= processes
    requires forall q | q in w.counts :: w.counts[q] <= cap + Slack(cap)
    ensures Weighs(n, Stepped(w, Append(p, line), cap), cap, processes)
  {
    WrittenCount(w.log, None, line, cap);
    n := Stepped(w, Append(p, line), cap).counts;
    TotalTakes(n, p);
  }

  /** At no time more than `processes` processes have a count. */
  ghost predicate AtMost(w: World, steps: seq<Step>, cap: nat, processes: nat) {
    && |Run(w, steps, cap).counts| <= processes
    && (steps == [] || AtMost(w, steps[..|steps| - 1], cap, processes))
  }

  predicate Appended(steps: seq<Step>) {
    steps != [] && (steps[|steps| - 1].Append? || Appended(steps[..|steps| - 1]))
  }

  /** One more step, once some process has counted the file. */
  lemma StepWeighs(m: map<nat, nat>, w: World, s: Step, cap: nat, processes: nat) returns (n: map<nat, nat>)
    requires cap > 0 && Weighs(m, w, cap, processes)
    requires |Stepped(w, s, cap).counts| <= processes
    ensures Weighs(n, Stepped(w, s, cap), cap, processes)
  {
    match s
    case Append(p, line) =>
      if p in w.counts {
        n := AppendWeighs(m, w, p, line, cap, processes);
      } else {
        n := SeedWeighs(w, p, line, cap, processes);
      }
    case End(_) => n := m;
  }

  lemma {:induction false} NoCounts(w: World, steps: seq<Step>, cap: nat)
    requires w.counts == map[] && !Appended(steps)
    ensures Run(w, steps, cap).counts == map[]
  {
    if steps != [] {
      NoCounts(w, steps[..|steps| - 1], cap);
    }
  }

  lemma {:induction false} SomeWeight(w: World, steps: seq<Step>, cap: nat, processes: nat)
    returns (m: map<nat, nat>)
    requires cap > 0 && w.counts == map[] && AtMost(w, steps, cap, processes) && Appended(steps)
    ensures Weighs(m, Run(w, steps, cap), cap, processes)
    decreases |steps|
  {
    var front, last := steps[..|steps| - 1], steps[|steps| - 1];
    if Appended(front) {
      m := SomeWeight(w, front, cap, processes);
      m := StepWeighs(m, Run(w, front, cap), last, cap, processes);
    } else {
      NoCounts(w, front, cap);
      m := SeedWeighs(Run(w, front, cap), last.process, last.line, cap, processes);
    }
  }

  /** With a positive cap, after any append the log is within cap and slack for
      one process, and within as many times that as processes hold a count;
      ended processes and the log's first length do not matter. */
  lemma StaysShort(w: World, steps: seq<Step>, cap: nat, processes: nat)
    requires cap > 0 && w.counts == map[] && AtMost(w, steps, cap, processes) && Appended(steps)
    ensures |Run(w, steps, cap).log| <= processes * (cap + if cap < 20 then 1 else cap / 10)
  {
    var m := SomeWeight(w, steps, cap, processes);
    var bound: nat := cap + if cap < 20 then 1 else cap / 10;
    WeighsAtMost(m, Run(w, steps, cap), cap, processes, bound);
  }

  lemma WeighsAtMost(m: map<nat, nat>, w: World, cap: nat, processes: nat, bound: nat)
    requires Weighs(m, w, cap, processes) && bound == cap + Slack(cap)
    ensures |w.log| <= processes * bound
  {
    TotalAtMost(m, bound);
    Scales(|m|, processes, bound);
  }

  /** A cap of zero trims nothing: the log keeps every line ever written. */
  lemma {:induction false} ZeroKeepsAll(w: World, steps: seq<Step>)
    requires w.ever == w.log
    ensures Run(w, steps, 0).log == Run(w, steps, 0).ever
  {
    if steps != [] {
      ZeroKeepsAll(w, steps[..|steps| - 1]);
    }
  }
}
