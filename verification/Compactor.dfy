/**
 What the compactor's scan of one source keeps, said over the whole list of
 events.  A rule's class, codes and template are taken as given per event.
 */
module Compactor {

  /** An event time: how it is written, and the instant it is compared by. */
  datatype Stamp = Stamp(instant: int, text: string)

  datatype Line = Line(ts: Stamp, klass: string, text: string)

  datatype Event = Event(
    rule: string, klass: string, notable: bool, template: string, codes: set<string>,
    ts: Stamp, message: string, id: string, text: string)

  datatype Key = Key(rule: string, template: string, codes: set<string>)

  datatype Limits = Limits(maxGroups: nat, maxUnmatched: nat, maxSamples: nat, context: nat)

  datatype Row = Row(
    key: Key, message: string, count: nat, first: Stamp, last: Stamp, samples: seq<string>,
    before: seq<Line>, after: seq<Line>)

  function KeyOf(e: Event): Key { Key(e.rule, e.template, e.codes) }

  function LineOf(e: Event): Line { Line(e.ts, e.klass, e.text) }

  function Cap(l: Limits, rule: string): nat {
    if rule == "unmatched" then l.maxUnmatched else l.maxGroups
  }

  // ---- which groups are kept ---------------------------------------------

  function OfRule(keys: seq<Key>, rule: string): nat {
    if keys == [] then 0
    else OfRule(keys[..|keys| - 1], rule) + if keys[|keys| - 1].rule == rule then 1 else 0
  }

  function Shown(keys: seq<Key>): set<string> {
    set k, c | k in keys && c in k.codes :: c
  }

  /** At the cap only a group with a code no kept group shows gets in, up to one
      more cap's worth. */
  predicate Refuses(keys: seq<Key>, l: Limits, k: Key) {
    var n, cap := OfRule(keys, k.rule), Cap(l, k.rule);
    n >= cap && (n >= 2 * cap || forall c | c in k.codes :: c in Shown(keys))
  }

  /** The keys kept after `evs`, in order of creation. */
  function Kept(evs: seq<Event>, l: Limits): seq<Key> {
    if evs == [] then []
    else
      var kept, e := Kept(evs[..|evs| - 1], l), evs[|evs| - 1];
      if !e.notable || KeyOf(e) in kept || Refuses(kept, l, KeyOf(e)) then kept
      else kept + [KeyOf(e)]
  }

  lemma KeptStep(evs: seq<Event>, l: Limits, i: nat)
    requires i < |evs|
    ensures var kept, e := Kept(evs[..i], l), evs[i];
            Kept(evs[..i + 1], l) ==
              if !e.notable || KeyOf(e) in kept || Refuses(kept, l, KeyOf(e)) then kept else kept + [KeyOf(e)]
  {
    assert evs[..i + 1][..i] == evs[..i];
  }

  lemma KeyAdded(keys: seq<Key>, k: Key)
    ensures Shown(keys + [k]) == Shown(keys) + k.codes
    ensures forall rule :: OfRule(keys + [k], rule) == OfRule(keys, rule) + if k.rule == rule then 1 else 0
  {
    assert (keys + [k])[..|keys|] == keys;
    assert forall x :: x in keys + [k] <==> x in keys || x == k;
  }

  lemma {:induction false} LongerShows(a: seq<Key>, b: seq<Key>)
    requires a <= b
    ensures Shown(a) <= Shown(b) && forall rule :: OfRule(a, rule) <= OfRule(b, rule)
  {
    if |a| < |b| {
      var front := b[..|b| - 1];
      LongerShows(a, front);
      KeyAdded(front, b[|b| - 1]);
      assert front + [b[|b| - 1]] == b;
    } else {
      assert a == b;
    }
  }

  lemma {:induction false} KeptLonger(evs: seq<Event>, l: Limits, i: nat, j: nat)
    requires i <= j <= |evs|
    ensures Kept(evs[..i], l) <= Kept(evs[..j], l)
    decreases j
  {
    if i < j {
      KeptLonger(evs, l, i, j - 1);
      KeptStep(evs, l, j - 1);
    }
  }

  /** Kept keys are only ever added to, and what they show only grows. */
  lemma KeptGrows(evs: seq<Event>, l: Limits, i: nat, j: nat)
    requires i <= j <= |evs|
    ensures Kept(evs[..i], l) <= Kept(evs[..j], l)
    ensures forall rule :: OfRule(Kept(evs[..i], l), rule) <= OfRule(Kept(evs[..j], l), rule)
    ensures Shown(Kept(evs[..i], l)) <= Shown(Kept(evs[..j], l))
  {
    KeptLonger(evs, l, i, j);
    LongerShows(Kept(evs[..i], l), Kept(evs[..j], l));
  }

  lemma {:induction false} KeptDistinct(evs: seq<Event>, l: Limits)
    ensures forall i, j | 0 <= i < j < |Kept(evs, l)| :: Kept(evs, l)[i] != Kept(evs, l)[j]
    ensures forall k | k in Kept(evs, l) :: exists i :: 0 <= i < |evs| && evs[i].notable && KeyOf(evs[i]) == k
  {
    if evs != [] {
      var front := evs[..|evs| - 1];
      KeptDistinct(front, l);
      forall k | k in Kept(evs, l) ensures exists i :: 0 <= i < |evs| && evs[i].notable && KeyOf(evs[i]) == k {
        if k in Kept(front, l) {
          var i :| 0 <= i < |front| && front[i].notable && KeyOf(front[i]) == k;
          assert evs[i] == front[i];
        } else {
          assert evs[|evs| - 1].notable && KeyOf(evs[|evs| - 1]) == k;
        }
      }
    }
  }

  /** A rule keeps at most twice its cap. */
  lemma {:induction false} TwiceTheCap(evs: seq<Event>, l: Limits, rule: string)
    ensures OfRule(Kept(evs, l), rule) <= 2 * Cap(l, rule)
  {
    if evs != [] {
      TwiceTheCap(evs[..|evs| - 1], l, rule);
    }
  }

  lemma RefusesLater(evs: seq<Event>, l: Limits, i: nat, j: nat, k: Key)
    requires i <= j <= |evs| && Refuses(Kept(evs[..i], l), l, k)
    ensures Refuses(Kept(evs[..j], l), l, k)
  {
    KeptGrows(evs, l, i, j);
  }

  /** A key that is not kept, and would be refused now. */
  ghost predicate Out(kept: seq<Key>, l: Limits, k: Key) {
    k !in kept && Refuses(kept, l, k)
  }

  lemma StillOut(evs: seq<Event>, l: Limits, i: nat, k: Key)
    requires i < |evs| && Out(Kept(evs[..i], l), l, k)
    ensures Out(Kept(evs[..i + 1], l), l, k)
  {
    RefusesLater(evs, l, i, i + 1, k);
    KeptStep(evs, l, i);
  }

  lemma {:induction false} OutForGood(evs: seq<Event>, l: Limits, i: nat, j: nat, k: Key)
    requires i <= j <= |evs| && Out(Kept(evs[..i], l), l, k)
    ensures Out(Kept(evs[..j], l), l, k)
    decreases j
  {
    hide Out, Kept;
    if i < j {
      OutForGood(evs, l, i, j - 1, k);
      StillOut(evs, l, j - 1, k);
    }
  }

  /** A key turned away once is turned away for good. */
  lemma DroppedStays(evs: seq<Event>, l: Limits, i: nat, j: nat)
    requires i < j <= |evs| && evs[i].notable && KeyOf(evs[i]) !in Kept(evs[..i + 1], l)
    ensures Refuses(Kept(evs[..j], l), l, KeyOf(evs[i])) && KeyOf(evs[i]) !in Kept(evs[..j], l)
  {
    var k := KeyOf(evs[i]);
    KeptStep(evs, l, i);
    assert Out(Kept(evs[..i], l), l, k);
    OutForGood(evs, l, i, j, k);
  }

  /** Kept and dropped keys never meet: a key of a notable event is kept at its
      first occurrence or not at all. */
  lemma KeptAtFirst(evs: seq<Event>, l: Limits, i: nat, j: nat)
    requires i < j <= |evs| && evs[i].notable
    ensures KeyOf(evs[i]) in Kept(evs[..i + 1], l) <==> KeyOf(evs[i]) in Kept(evs[..j], l)
  {
    if KeyOf(evs[i]) in Kept(evs[..i + 1], l) {
      KeptGrows(evs, l, i + 1, j);
    } else {
      DroppedStays(evs, l, i, j);
    }
  }

  lemma ShownByKept(keys: seq<Key>, code: string)
    ensures code in Shown(keys) <==> exists k :: k in keys && code in k.codes
  {
  }

  /** The code rescue: unless a rule filled twice its cap, every code on any of
      its events is shown by some kept group. */
  lemma CodesCovered(evs: seq<Event>, l: Limits, i: nat, code: string)
    requires i < |evs| && evs[i].notable && code in evs[i].codes
    requires OfRule(Kept(evs, l), evs[i].rule) < 2 * Cap(l, evs[i].rule)
    ensures exists k :: k in Kept(evs, l) && code in k.codes
  {
    var k := KeyOf(evs[i]);
    assert evs[..|evs|] == evs;
    ShownByKept(Kept(evs, l), code);
    if k !in Kept(evs, l) {
      KeptAtFirst(evs, l, i, |evs|);
      DroppedStays(evs, l, i, |evs|);
    }
  }

  // ---- the caps in numbers -----------------------------------------------

  function RuleKeys(keys: seq<Key>, rule: string): set<Key> {
    set k | k in keys && k.rule == rule
  }

  lemma {:induction false} OfRuleIs(keys: seq<Key>, rule: string)
    requires forall i, j | 0 <= i < j < |keys| :: keys[i] != keys[j]
    ensures OfRule(keys, rule) == |RuleKeys(keys, rule)|
  {
    if keys == [] {
      assert RuleKeys(keys, rule) == {};
    } else {
      OfRuleIs(keys[..|keys| - 1], rule);
      RuleKeysLonger(keys, rule);
    }
  }

  lemma RuleKeysLonger(keys: seq<Key>, rule: string)
    requires keys != [] && forall i, j | 0 <= i < j < |keys| :: keys[i] != keys[j]
    ensures var front, last := keys[..|keys| - 1], keys[|keys| - 1];
            && last !in RuleKeys(front, rule)
            && RuleKeys(keys, rule) == RuleKeys(front, rule) + if last.rule == rule then {last} else {}
  {
    var front, last := keys[..|keys| - 1], keys[|keys| - 1];
    assert keys == front + [last];
  }

  /** The limit the configuration gives a rule: its own for what no rule matched,
      one for all the others. */
  predicate IsLimit(n: nat, l: Limits, rule: string) {
    (rule == "unmatched" ==> n == l.maxUnmatched) && (rule != "unmatched" ==> n == l.maxGroups)
  }

  /** A code of the key that no key of the list shows. */
  ghost predicate HasNewCode(k: Key, keys: seq<Key>) {
    exists c :: c in k.codes && forall other | other in keys :: c !in other.codes
  }

  lemma RefusesWhen(keys: seq<Key>, l: Limits, k: Key, limit: nat)
    requires forall i, j | 0 <= i < j < |keys| :: keys[i] != keys[j]
    requires IsLimit(limit, l, k.rule)
    ensures var n := |RuleKeys(keys, k.rule)|;
            Refuses(keys, l, k) <==> n >= 2 * limit || (n >= limit && !HasNewCode(k, keys))
  {
    OfRuleIs(keys, k.rule);
    assert limit == Cap(l, k.rule);
    if c :| c in k.codes && c !in Shown(keys) {
      assert forall other | other in keys :: c !in other.codes;
    }
    if HasNewCode(k, keys) {
      var c :| c in k.codes && forall other | other in keys :: c !in other.codes;
      assert c !in Shown(keys);
    }
  }

  /** A key gets a group if and only if, when it first occurs, its rule has fewer
      groups than its limit, or fewer than twice its limit and the key has a code
      no group shows yet. */
  lemma KeptWhen(evs: seq<Event>, l: Limits, i: nat, limit: nat)
    requires i < |evs| && evs[i].notable && IsLimit(limit, l, evs[i].rule)
    requires forall j | 0 <= j < i && evs[j].notable :: KeyOf(evs[j]) != KeyOf(evs[i])
    ensures var k, before := KeyOf(evs[i]), Kept(evs[..i], l);
            var n := |RuleKeys(before, k.rule)|;
            k in Kept(evs, l) <==> n < limit || (n < 2 * limit && HasNewCode(k, before))
  {
    var k, before := KeyOf(evs[i]), Kept(evs[..i], l);
    KeptDistinct(evs[..i], l);
    RefusesWhen(before, l, k, limit);
    KeptStep(evs, l, i);
    assert evs[..|evs|] == evs;
    KeptAtFirst(evs, l, i, |evs|);
    assert forall j | 0 <= j < i :: evs[..i][j] == evs[j];
    assert k !in before;
  }

  /** The ceiling: no rule has more groups than twice its limit. */
  lemma AtMostTwice(evs: seq<Event>, l: Limits, rule: string)
    ensures rule == "unmatched" ==> |RuleKeys(Kept(evs, l), rule)| <= 2 * l.maxUnmatched
    ensures rule != "unmatched" ==> |RuleKeys(Kept(evs, l), rule)| <= 2 * l.maxGroups
  {
    TwiceTheCap(evs, l, rule);
    KeptDistinct(evs, l);
    OfRuleIs(Kept(evs, l), rule);
  }

  /** The distinct keys of a rule's notable events. */
  function KeysSeen(evs: seq<Event>, rule: string): set<Key> {
    set e | e in evs && e.notable && e.rule == rule :: KeyOf(e)
  }

  lemma KeptSeen(evs: seq<Event>, l: Limits, rule: string)
    ensures RuleKeys(Kept(evs, l), rule) <= KeysSeen(evs, rule)
  {
    KeptDistinct(evs, l);
    forall k | k in RuleKeys(Kept(evs, l), rule) ensures k in KeysSeen(evs, rule) {
      var i :| 0 <= i < |evs| && evs[i].notable && KeyOf(evs[i]) == k;
      assert evs[i] in evs;
    }
  }

  lemma SmallerSet(a: set<Key>, b: set<Key>)
    requires a <= b
    ensures |a| <= |b|
    ensures |a| == |b| ==> a == b
  {
    var rest := b - a;
    assert b == a + rest && |b| == |a| + |rest|;
    if |rest| == 0 {
      assert rest == {};
    }
  }

  lemma SeenStep(evs: seq<Event>, rule: string)
    requires evs != []
    ensures var front, e := evs[..|evs| - 1], evs[|evs| - 1];
            KeysSeen(evs, rule) == KeysSeen(front, rule) + if e.notable && e.rule == rule then {KeyOf(e)} else {}
  {
    assert evs == evs[..|evs| - 1] + [evs[|evs| - 1]];
  }

  /** The floor: a rule with no more distinct keys than its limit keeps them all. */
  lemma {:induction false} AllKept(evs: seq<Event>, l: Limits, rule: string, limit: nat)
    requires IsLimit(limit, l, rule) && |KeysSeen(evs, rule)| <= limit
    ensures KeysSeen(evs, rule) == RuleKeys(Kept(evs, l), rule)
  {
    if evs == [] {
      assert KeysSeen(evs, rule) == {} && RuleKeys(Kept(evs, l), rule) == {};
    } else {
      var front, e := evs[..|evs| - 1], evs[|evs| - 1];
      SeenStep(evs, rule);
      SmallerSet(KeysSeen(front, rule), KeysSeen(evs, rule));
      AllKept(front, l, rule, limit);
      if e.notable && e.rule == rule && KeyOf(e) !in Kept(front, l) {
        NotRefused(evs, l, rule, limit);
      }
      KeptSeen(evs, l, rule);
    }
  }

  lemma NotRefused(evs: seq<Event>, l: Limits, rule: string, limit: nat)
    requires evs != [] && IsLimit(limit, l, rule) && |KeysSeen(evs, rule)| <= limit
    requires var front, e := evs[..|evs| - 1], evs[|evs| - 1];
             && KeysSeen(front, rule) == RuleKeys(Kept(front, l), rule)
             && e.notable && e.rule == rule && KeyOf(e) !in Kept(front, l)
    ensures KeyOf(evs[|evs| - 1]) in Kept(evs, l)
  {
    var front, e := evs[..|evs| - 1], evs[|evs| - 1];
    SeenStep(evs, rule);
    assert KeyOf(e) !in KeysSeen(front, rule);
    KeptDistinct(front, l);
    RefusesWhen(Kept(front, l), l, KeyOf(e), limit);
  }

  /** Two events share a key exactly when rule, template and codes are the same. */
  lemma SameKey(a: Event, b: Event)
    ensures KeyOf(a) == KeyOf(b) <==> a.rule == b.rule && a.template == b.template && a.codes == b.codes
    ensures KeyOf(a).rule == a.rule && KeyOf(a).codes == a.codes
  {
  }
}
