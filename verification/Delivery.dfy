/**
 Who a published review reaches, one key per recipient; sending what is planned
 and not delivered yet; and folding attempts into the review's rows.
 */
module Delivery {
  import opened Wrappers
  import opened Text

  const INBOX := "inbox"
  const EMAIL := "email"
  const CHANNELS: set<string> := {"inbox", "email"}
  const ROLES: set<string> := {"viewer", "operator", "closer"}
  const CLASSES: set<string> := {"internal_full"}
  const DEFAULT_CLASS := "internal_full"

  // ---- the policy --------------------------------------------------------

  datatype Recipient = Recipient(id: string, address: string, channels: seq<string>, contentClass: string, role: string)

  datatype Settings = Settings(enabled: bool, external: bool, host: string, sender: string, rows: seq<Recipient>)

  datatype Policy = Policy(enabled: bool, external: bool, recipients: seq<Recipient>)

  function WithDefaults(r: Recipient): Recipient {
    r.(contentClass := if r.contentClass == "" then DEFAULT_CLASS else r.contentClass,
       role := if r.role == "" then "viewer" else r.role)
  }

  predicate RowOk(r: Recipient) {
    && r.id != "" && r.id != INBOX
    && r.channels != [] && (forall c | c in r.channels :: c in CHANNELS)
    && (EMAIL in r.channels ==> r.address != "")
    && WithDefaults(r).contentClass in CLASSES && WithDefaults(r).role in ROLES
  }

  predicate DistinctIds(rows: seq<Recipient>) {
    forall i, j | 0 <= i < j < |rows| :: rows[i].id != rows[j].id
  }

  predicate Sendable(s: Settings) {
    s.external ==> s.host != "" && s.sender != "" && AnyEmail(s.rows)
  }

  predicate AnyEmail(rows: seq<Recipient>) {
    exists i :: 0 <= i < |rows| && EMAIL in rows[i].channels
  }

  predicate RowsOk(rows: seq<Recipient>) {
    (forall i | 0 <= i < |rows| :: RowOk(rows[i])) && DistinctIds(rows)
  }

  function AllDefaults(rows: seq<Recipient>): seq<Recipient> {
    seq(|rows|, i requires 0 <= i < |rows| => WithDefaults(rows[i]))
  }

  predicate Acceptable(s: Settings) {
    RowsOk(s.rows) && Sendable(s)
  }

  /** A policy some settings resolve to. */
  predicate Resolved(p: Policy) {
    RowsOk(p.recipients) && AllDefaults(p.recipients) == p.recipients
  }

  method CheckRow(r: Recipient, seen: set<string>) returns (error: Option<string>)
    ensures error.None? <==> RowOk(r) && r.id !in seen
  {
    if r.id == "" {
      return Some("a recipient needs an id");
    }
    if r.id in seen {
      return Some("already a recipient");
    }
    if r.id == INBOX {
      return Some("reserved for the inbox row");
    }
    if r.channels == [] {
      return Some("a recipient needs at least one channel");
    }
    for i := 0 to |r.channels|
      invariant forall c | c in r.channels[..i] :: c in CHANNELS
    {
      if r.channels[i] !in CHANNELS {
        return Some("not a channel");
      }
    }
    assert r.channels[..|r.channels|] == r.channels;
    if EMAIL in r.channels && r.address == "" {
      return Some("a recipient on the email channel needs an address");
    }
    if WithDefaults(r).contentClass !in CLASSES {
      return Some("not a content class");
    }
    if WithDefaults(r).role !in ROLES {
      return Some("not a role");
    }
    return None;
  }

  method CheckRows(rows: seq<Recipient>) returns (r: Result<seq<Recipient>>)
    ensures r.Ok? <==> RowsOk(rows)
    ensures r.Ok? ==> r.value == AllDefaults(rows)
  {
    var recipients: seq<Recipient> := [];
    var seen: set<string> := {};
    for i := 0 to |rows|
      invariant recipients == AllDefaults(rows[..i]) && seen == IdsOf(rows[..i])
      invariant RowsOk(rows[..i])
    {
      assert rows[..i + 1] == rows[..i] + [rows[i]];
      RowsOkWith(rows[..i], rows[i]);
      var error := CheckRow(rows[i], seen);
      if error.Some? {
        RowsOkFront(rows, i + 1);
        return Err(error.value);
      }
      IdsWith(rows[..i], rows[i]);
      seen := seen + {rows[i].id};
      recipients := recipients + [WithDefaults(rows[i])];
    }
    assert rows[..|rows|] == rows;
    return Ok(recipients);
  }

  ghost function IdsOf(rows: seq<Recipient>): set<string> {
    set i | 0 <= i < |rows| :: rows[i].id
  }

  lemma IdsWith(rows: seq<Recipient>, r: Recipient)
    ensures IdsOf(rows + [r]) == IdsOf(rows) + {r.id}
  {
    var all := rows + [r];
    assert all[|rows|] == r;
    forall x | x in IdsOf(rows) ensures x in IdsOf(all) {
      var i :| 0 <= i < |rows| && rows[i].id == x;
      assert all[i] == rows[i];
    }
  }

  lemma RowsOkWith(rows: seq<Recipient>, r: Recipient)
    requires RowsOk(rows)
    ensures RowsOk(rows + [r]) <==> RowOk(r) && r.id !in IdsOf(rows)
  {
    var all := rows + [r];
    assert all[|rows|] == r;
    if r.id in IdsOf(rows) {
      var i :| 0 <= i < |rows| && rows[i].id == r.id;
      assert all[i].id == all[|rows|].id;
    }
  }

  lemma RowsOkFront(rows: seq<Recipient>, n: nat)
    requires n <= |rows| && !RowsOk(rows[..n])
    ensures !RowsOk(rows)
  {
    if RowsOk(rows) {
      assert forall i | 0 <= i < n :: rows[..n][i] == rows[i];
    }
  }

  method NamesEmail(rows: seq<Recipient>) returns (b: bool)
    ensures b <==> AnyEmail(rows)
  {
    for i := 0 to |rows|
      invariant forall j | 0 <= j < i :: EMAIL !in rows[j].channels
    {
      if EMAIL in rows[i].channels {
        return true;
      }
    }
    return false;
  }

  lemma DefaultsStay(rows: seq<Recipient>)
    requires RowsOk(rows)
    ensures RowsOk(AllDefaults(rows)) && AllDefaults(AllDefaults(rows)) == AllDefaults(rows)
  {
    var all := AllDefaults(rows);
    forall i | 0 <= i < |all| ensures RowOk(all[i]) && WithDefaults(all[i]) == all[i] {
      assert RowOk(rows[i]);
    }
  }

  /** What the configuration demands of a row, and of the whole. */
  predicate RowInOrder(r: Recipient) {
    && |r.id| > 0 && r.id != "inbox" && |r.channels| > 0
    && (forall c | c in r.channels :: c == "inbox" || c == "email")
    && ("email" in r.channels ==> |r.address| > 0)
    && (r.contentClass == "" || r.contentClass == "internal_full")
    && (r.role == "" || r.role == "viewer" || r.role == "operator" || r.role == "closer")
  }

  predicate InOrder(s: Settings) {
    && (forall i | 0 <= i < |s.rows| :: RowInOrder(s.rows[i]))
    && (forall i, j | 0 <= i < |s.rows| && 0 <= j < |s.rows| && s.rows[i].id == s.rows[j].id :: i == j)
    && (s.external ==>
          |s.host| > 0 && |s.sender| > 0
          && exists i :: 0 <= i < |s.rows| && "email" in s.rows[i].channels)
  }

  lemma RowInOrderIs(r: Recipient)
    ensures RowOk(r) <==> RowInOrder(r)
  {
    assert "" !in CLASSES && "" !in ROLES;
  }

  lemma InOrderIs(s: Settings)
    ensures Acceptable(s) <==> InOrder(s)
  {
    forall i | 0 <= i < |s.rows| ensures RowOk(s.rows[i]) <==> RowInOrder(s.rows[i]) {
      RowInOrderIs(s.rows[i]);
    }
  }

  /** A row as it is taken: its own id, address and channels, the one content class
      there is, and its role or, when it has none, the viewer's. */
  predicate Typed(row: Recipient, r: Recipient) {
    && r.id == row.id && r.address == row.address && r.channels == row.channels
    && r.contentClass == "internal_full" && row.contentClass in {"", "internal_full"}
    && (row.role == "" ==> r.role == "viewer")
    && (row.role != "" ==> r.role == row.role && r.role in {"viewer", "operator", "closer"})
  }

  /** The configuration is taken exactly when every row and the whole are in
      order; the rows come through as they were, defaults filled in. */
  method Resolve(s: Settings) returns (r: Result<Policy>)
    ensures r.Ok? <==> Acceptable(s)
    ensures r.Ok? <==> InOrder(s)
    ensures r.Ok? ==> Resolved(r.value) && r.value == Policy(s.enabled, s.external, AllDefaults(s.rows))
    ensures r.Ok? ==> |r.value.recipients| == |s.rows|
                      && forall i | 0 <= i < |s.rows| :: Typed(s.rows[i], r.value.recipients[i])
  {
    InOrderIs(s);
    var rows := CheckRows(s.rows);
    if rows.Err? {
      return Err(rows.error);
    }
    DefaultsStay(s.rows);
    var someEmail := NamesEmail(s.rows);
    if s.external && (s.host == "" || s.sender == "" || !someEmail) {
      return Err("external_enabled is true and there is nothing to send through");
    }
    forall i | 0 <= i < |s.rows| ensures Typed(s.rows[i], AllDefaults(s.rows)[i]) {
      assert RowOk(s.rows[i]);
    }
    return Ok(Policy(s.enabled, s.external, rows.value));
  }

  // ---- the plan ----------------------------------------------------------

  datatype Delivery = Delivery(
    key: string, review: string, channel: string, recipient: string, address: string, contentClass: string)

  function DeliveryKey(review: string, recipient: string): string {
    review + "|" + recipient
  }

  lemma KeysDiffer(review: string, a: string, b: string)
    ensures DeliveryKey(review, a) == DeliveryKey(review, b) <==> a == b
  {
    var n := |review| + 1;
    assert DeliveryKey(review, a)[n..] == a && DeliveryKey(review, b)[n..] == b;
  }

  function ToEmail(review: string, r: Recipient): Delivery {
    Delivery(DeliveryKey(review, r.id), review, EMAIL, r.id, r.address, r.contentClass)
  }

  /** The email rows; a content class nobody knows raises. */
  function Emails(review: string, recipients: seq<Recipient>): Result<seq<Delivery>> {
    if recipients == [] then Ok([])
    else
      match Emails(review, recipients[..|recipients| - 1])
      case Err(e) => Err(e)
      case Ok(plan) =>
        var r := recipients[|recipients| - 1];
        if EMAIL !in r.channels then Ok(plan)
        else if r.contentClass !in CLASSES then Err("not a content class")
        else Ok(plan + [ToEmail(review, r)])
  }

  function InboxRow(review: string): Delivery {
    Delivery(DeliveryKey(review, INBOX), review, INBOX, INBOX, "", DEFAULT_CLASS)
  }

  function Decide(review: string, p: Policy): Result<seq<Delivery>> {
    if !p.enabled || review == "" then Ok([])
    else if !p.external then Ok([InboxRow(review)])
    else
      match Emails(review, p.recipients)
      case Err(e) => Err(e)
      case Ok(plan) => Ok([InboxRow(review)] + plan)
  }

  predicate DistinctKeys(plan: seq<Delivery>) {
    forall i, j | 0 <= i < j < |plan| :: plan[i].key != plan[j].key
  }

  /** `d` is some recipient's email row. */
  ghost predicate IsEmailOf(d: Delivery, review: string, recipients: seq<Recipient>) {
    exists i :: 0 <= i < |recipients| && EMAIL in recipients[i].channels && d == ToEmail(review, recipients[i])
  }

  lemma EmailOfFront(d: Delivery, review: string, recipients: seq<Recipient>)
    requires recipients != []
    ensures IsEmailOf(d, review, recipients) <==>
              var last := recipients[|recipients| - 1];
              IsEmailOf(d, review, recipients[..|recipients| - 1]) || (EMAIL in last.channels && d == ToEmail(review, last))
  {
    var n := |recipients| - 1;
    var front := recipients[..n];
    if i :| 0 <= i < |recipients| && EMAIL in recipients[i].channels && d == ToEmail(review, recipients[i]) {
      if i < n {
        assert front[i] == recipients[i];
      }
    }
    if i :| 0 <= i < |front| && EMAIL in front[i].channels && d == ToEmail(review, front[i]) {
      assert front[i] == recipients[i];
    }
  }

  /** The email rows are those of the recipients that name the channel. */
  lemma {:induction false} EmailsAreRecipients(review: string, recipients: seq<Recipient>)
    requires forall i | 0 <= i < |recipients| :: recipients[i].contentClass in CLASSES
    ensures Emails(review, recipients).Ok?
    ensures forall d :: d in Emails(review, recipients).value <==> IsEmailOf(d, review, recipients)
  {
    if recipients != [] {
      EmailsAreRecipients(review, recipients[..|recipients| - 1]);
      forall d ensures d in Emails(review, recipients).value <==> IsEmailOf(d, review, recipients) {
        EmailOfFront(d, review, recipients);
      }
    }
  }

  /** What is planned, row by row: the inbox's, and, when mail goes out, one for each
      recipient on the email channel, to its own address and under its own key. */
  ghost predicate Planned(d: Delivery, review: string, p: Policy) {
    && p.enabled && review != "" && d.review == review && d.contentClass == "internal_full"
    && d.key == review + "|" + d.recipient
    && (|| (d.channel == "inbox" && d.recipient == "inbox" && d.address == "")
        || (p.external && d.channel == "email"
            && exists i :: 0 <= i < |p.recipients| && "email" in p.recipients[i].channels
                 && d.recipient == p.recipients[i].id && d.address == p.recipients[i].address))
  }

  lemma PlanIs(review: string, p: Policy, d: Delivery)
    requires Resolved(p)
    ensures Decide(review, p).Ok? && (d in Decide(review, p).value <==> Planned(d, review, p))
  {
    forall i | 0 <= i < |p.recipients| ensures p.recipients[i].contentClass == "internal_full" {
      assert RowOk(p.recipients[i]) && AllDefaults(p.recipients)[i] == p.recipients[i];
    }
    EmailsAreRecipients(review, p.recipients);
    if p.enabled && review != "" {
      assert d in Emails(review, p.recipients).value <==> IsEmailOf(d, review, p.recipients);
      if d.channel == "email" && Planned(d, review, p) {
        var i :| 0 <= i < |p.recipients| && "email" in p.recipients[i].channels
                 && d.recipient == p.recipients[i].id && d.address == p.recipients[i].address;
        assert d == ToEmail(review, p.recipients[i]);
      }
    }
  }

  lemma KeyOfEmail(d: Delivery, review: string, recipients: seq<Recipient>, id: string)
    requires IsEmailOf(d, review, recipients)
    requires forall i | 0 <= i < |recipients| :: recipients[i].id != id
    ensures d.key != DeliveryKey(review, id)
  {
    var i :| 0 <= i < |recipients| && EMAIL in recipients[i].channels && d == ToEmail(review, recipients[i]);
    KeysDiffer(review, recipients[i].id, id);
  }

  lemma {:induction false} EmailKeysDistinct(review: string, recipients: seq<Recipient>)
    requires forall i | 0 <= i < |recipients| :: recipients[i].contentClass in CLASSES
    requires DistinctIds(recipients)
    ensures Emails(review, recipients).Ok? && DistinctKeys(Emails(review, recipients).value)
  {
    EmailsAreRecipients(review, recipients);
    if recipients != [] {
      var front, last := recipients[..|recipients| - 1], recipients[|recipients| - 1];
      EmailKeysDistinct(review, front);
      EmailsAreRecipients(review, front);
      var plan := Emails(review, front).value;
      forall i | 0 <= i < |plan| ensures plan[i].key != ToEmail(review, last).key {
        assert plan[i] in plan;
        KeyOfEmail(plan[i], review, front, last.id);
      }
    }
  }

  /** A resolved policy always decides, and no two planned keys are the same: no
      recipient's row can pass for another's, nor for the inbox's. */
  lemma PlannedKeysDistinct(review: string, p: Policy)
    requires Resolved(p)
    ensures Decide(review, p).Ok? && DistinctKeys(Decide(review, p).value)
  {
    forall i | 0 <= i < |p.recipients| ensures p.recipients[i].contentClass in CLASSES && p.recipients[i].id != INBOX {
      assert RowOk(p.recipients[i]) && AllDefaults(p.recipients)[i] == p.recipients[i];
    }
    EmailKeysDistinct(review, p.recipients);
    EmailsAreRecipients(review, p.recipients);
    var plan := Emails(review, p.recipients).value;
    forall i | 0 <= i < |plan| ensures plan[i].key != InboxRow(review).key {
      assert plan[i] in plan;
      KeyOfEmail(plan[i], review, p.recipients, INBOX);
    }
  }

  // ---- sending -----------------------------------------------------------

  datatype Attempt = Attempt(delivery: Delivery, delivered: bool, at: string)

  /** Delivered rows of one review and key in the audit's log. */
  function Deliveries(log: seq<Attempt>, review: string, key: string): nat {
    if log == [] then 0
    else
      var a := log[|log| - 1];
      Deliveries(log[..|log| - 1], review, key)
      + if a.delivered && a.delivery.review == review && a.delivery.key == key then 1 else 0
  }

  function DeliveredKeys(log: seq<Attempt>, review: string): set<string> {
    set a | a in log && a.delivered && a.delivery.review == review :: a.delivery.key
  }

  /** What is tried of one delivery: nothing when it is delivered already. */
  function Try(d: Delivery, already: set<string>, fails: set<string>, now: string): seq<Attempt> {
    if d.key in already then [] else [Attempt(d, d.key !in fails, now)]
  }

  /** What is tried of a plan; `fails` are the keys whose rendering or sending
      raises this time. */
  function Tried(plan: seq<Delivery>, already: set<string>, fails: set<string>, now: string): seq<Attempt> {
    if plan == [] then []
    else
      var d := plan[|plan| - 1];
      Tried(plan[..|plan| - 1], already, fails, now) + Try(d, already, fails, now)
  }

  class Audit {
    var log: seq<Attempt>

    constructor ()
      ensures log == []
    {
      log := [];
    }
  }

  /** Send what is planned and not delivered, one audit row per attempt. */
  method Dispatch(review: string, p: Policy, audit: Audit, fails: set<string>, now: string)
    returns (r: Result<seq<Attempt>>)
    modifies audit
    ensures r.Ok? <==> Decide(review, p).Ok?
    ensures r.Ok? ==> r.value == Tried(Decide(review, p).value, DeliveredKeys(old(audit.log), review), fails, now)
    ensures audit.log == old(audit.log) + if r.Ok? then r.value else []
  {
    var plan := Decide(review, p);
    if plan.Err? {
      return Err(plan.error);
    }
    var already := DeliveredKeys(audit.log, review);
    var attempts: seq<Attempt> := [];
    for i := 0 to |plan.value|
      invariant attempts == Tried(plan.value[..i], already, fails, now)
      invariant audit.log == old(audit.log) + attempts
    {
      var d := plan.value[i];
      assert plan.value[..i + 1][..i] == plan.value[..i];
      if d.key in already {
        continue;
      }
      var attempt := Attempt(d, d.key !in fails, now);
      audit.log := audit.log + [attempt];
      attempts := attempts + [attempt];
    }
    assert plan.value[..|plan.value|] == plan.value;
    return Ok(attempts);
  }

  // ---- over any dispatches -----------------------------------------------

  datatype Sending = Sending(review: string, policy: Policy, fails: set<string>, now: string)

  function AttemptsOf(log: seq<Attempt>, s: Sending): seq<Attempt>
    requires Resolved(s.policy)
  {
    PlannedKeysDistinct(s.review, s.policy);
    Tried(Decide(s.review, s.policy).value, DeliveredKeys(log, s.review), s.fails, s.now)
  }

  function Log(sendings: seq<Sending>): seq<Attempt>
    requires forall s | s in sendings :: Resolved(s.policy)
  {
    if sendings == [] then []
    else
      var log := Log(sendings[..|sendings| - 1]);
      log + AttemptsOf(log, sendings[|sendings| - 1])
  }

  lemma {:induction false} DeliveriesAdd(a: seq<Attempt>, b: seq<Attempt>, review: string, key: string)
    ensures Deliveries(a + b, review, key) == Deliveries(a, review, key) + Deliveries(b, review, key)
  {
    if b == [] {
      assert a + b == a;
    } else {
      assert (a + b)[..|a + b| - 1] == a + b[..|b| - 1];
      DeliveriesAdd(a, b[..|b| - 1], review, key);
    }
  }

  lemma {:induction false} DeliveredMeansSome(log: seq<Attempt>, review: string, key: string)
    ensures Deliveries(log, review, key) > 0 <==> key in DeliveredKeys(log, review)
  {
    if log != [] {
      var front := log[..|log| - 1];
      DeliveredMeansSome(front, review, key);
      assert forall a :: a in log <==> a in front || a == log[|log| - 1];
    }
  }

  lemma TryOne(d: Delivery, already: set<string>, fails: set<string>, now: string, review: string, key: string)
    ensures Deliveries(Try(d, already, fails, now), review, key) <= 1
    ensures key in already || d.key != key || d.review != review ==> Deliveries(Try(d, already, fails, now), review, key) == 0
  {
    if d.key !in already {
      assert Try(d, already, fails, now)[..0] == [];
    }
  }

  /** A plan tries each key at most once, and none that was delivered. */
  lemma {:induction false} TriedOnce(plan: seq<Delivery>, already: set<string>, fails: set<string>, now: string,
                                     review: string, key: string)
    requires DistinctKeys(plan)
    ensures Deliveries(Tried(plan, already, fails, now), review, key) <= 1
    ensures key in already || (forall i | 0 <= i < |plan| :: plan[i].key != key) ==>
              Deliveries(Tried(plan, already, fails, now), review, key) == 0
  {
    if plan != [] {
      var front, d := plan[..|plan| - 1], plan[|plan| - 1];
      TriedOnce(front, already, fails, now, review, key);
      DeliveriesAdd(Tried(front, already, fails, now), Try(d, already, fails, now), review, key);
      TryOne(d, already, fails, now, review, key);
    }
  }

  /** Over any dispatches of any reviews against one audit, whatever fails, no
      key of a review is delivered twice. */
  lemma {:induction false} DeliveredAtMostOnce(sendings: seq<Sending>, review: string, key: string)
    requires forall s | s in sendings :: Resolved(s.policy)
    ensures Deliveries(Log(sendings), review, key) <= 1
  {
    if sendings != [] {
      var front, s := sendings[..|sendings| - 1], sendings[|sendings| - 1];
      DeliveredAtMostOnce(front, review, key);
      var log := Log(front);
      PlannedKeysDistinct(s.review, s.policy);
      var plan := Decide(s.review, s.policy).value;
      DeliveriesAdd(log, AttemptsOf(log, s), review, key);
      DeliveredMeansSome(log, review, key);
      TriedOnce(plan, DeliveredKeys(log, s.review), s.fails, s.now, review, key);
      if s.review != review {
        TriedOther(plan, DeliveredKeys(log, s.review), s, review, key);
      }
    }
  }

  lemma {:induction false} EmailsOf(review: string, recipients: seq<Recipient>)
    requires Emails(review, recipients).Ok?
    ensures forall d | d in Emails(review, recipients).value :: d.review == review
  {
    if recipients != [] {
      EmailsOf(review, recipients[..|recipients| - 1]);
    }
  }

  lemma {:induction false} TriedOther(plan: seq<Delivery>, already: set<string>, s: Sending, review: string, key: string)
    requires s.review != review
    requires Decide(s.review, s.policy).Ok?
    requires forall d | d in plan :: d in Decide(s.review, s.policy).value
    ensures Deliveries(Tried(plan, already, s.fails, s.now), review, key) == 0
    decreases |plan|
  {
    if plan != [] {
      var front, d := plan[..|plan| - 1], plan[|plan| - 1];
      TriedOther(front, already, s, review, key);
      if s.policy.external && Emails(s.review, s.policy.recipients).Ok? {
        EmailsOf(s.review, s.policy.recipients);
      }
      assert d in plan && d.review == s.review;
      DeliveriesAdd(Tried(front, already, s.fails, s.now), Try(d, already, s.fails, s.now), review, key);
      TryOne(d, already, s.fails, s.now, review, key);
    }
  }

  lemma {:induction false} TriedAll(plan: seq<Delivery>, already: set<string>, fails: set<string>, now: string, d: Delivery)
    requires d in plan && d.key !in already
    ensures Attempt(d, d.key !in fails, now) in Tried(plan, already, fails, now)
  {
    var front := plan[..|plan| - 1];
    if d in front {
      TriedAll(front, already, fails, now, d);
    }
  }

  /** Every planned key not delivered before is tried again, and is delivered
      unless it fails this time. */
  lemma EveryOtherRetried(log: seq<Attempt>, s: Sending, d: Delivery)
    requires Resolved(s.policy) && Decide(s.review, s.policy).Ok? && d in Decide(s.review, s.policy).value
    ensures d.key in DeliveredKeys(log, s.review) || Attempt(d, d.key !in s.fails, s.now) in AttemptsOf(log, s)
    ensures d.key !in s.fails ==> d.key in DeliveredKeys(log + AttemptsOf(log, s), s.review)
  {
    var after := log + AttemptsOf(log, s);
    if d.key in DeliveredKeys(log, s.review) {
      var a :| a in log && a.delivered && a.delivery.review == s.review && a.delivery.key == d.key;
      assert a in after;
    } else {
      TriedAll(Decide(s.review, s.policy).value, DeliveredKeys(log, s.review), s.fails, s.now, d);
      if s.policy.external {
        EmailsOf(s.review, s.policy.recipients);
      }
      assert Attempt(d, d.key !in s.fails, s.now) in after;
    }
  }

  // ---- the review file's rows --------------------------------------------

  datatype Row = Row(key: string, delivered: bool, at: string)

  function ToRow(a: Attempt): Row {
    Row(a.delivery.key, a.delivered, a.at)
  }

  function ToRows(attempts: seq<Attempt>): seq<Row> {
    seq(|attempts|, i requires 0 <= i < |attempts| => ToRow(attempts[i]))
  }

  /** One row per key, a later one in the place of an earlier. */
  function ByKey(rows: seq<Row>): map<string, Row> {
    if rows == [] then map[] else ByKey(rows[..|rows| - 1])[rows[|rows| - 1].key := rows[|rows| - 1]]
  }

  function Listing(m: map<string, Row>): seq<Row> {
    SortedIs(m.Keys);
    var keys := Sorted(m.Keys);
    seq(|keys|, i requires 0 <= i < |keys| => assert keys[i] in keys; m[keys[i]])
  }

  function Merged(rows: seq<Row>, attempts: seq<Attempt>): seq<Row> {
    Listing(ByKey(rows + ToRows(attempts)))
  }

  method Merge(rows: seq<Row>, attempts: seq<Attempt>) returns (merged: seq<Row>)
    ensures merged == Merged(rows, attempts)
  {
    var byKey: map<string, Row> := map[];
    for i := 0 to |rows|
      invariant byKey == ByKey(rows[..i])
    {
      assert rows[..i + 1][..i] == rows[..i];
      byKey := byKey[rows[i].key := rows[i]];
    }
    assert rows[..|rows|] == rows;
    assert rows + ToRows(attempts[..0]) == rows;
    for i := 0 to |attempts|
      invariant byKey == ByKey(rows + ToRows(attempts[..i]))
    {
      var all := rows + ToRows(attempts[..i + 1]);
      assert all[..|all| - 1] == rows + ToRows(attempts[..i]) && all[|all| - 1] == ToRow(attempts[i]);
      byKey := byKey[attempts[i].delivery.key := ToRow(attempts[i])];
    }
    assert attempts[..|attempts|] == attempts;
    merged := Listing(byKey);
  }

  /** The last row of a key is the one kept. */
  lemma {:induction false} LastWins(rows: seq<Row>, i: nat)
    requires i < |rows| && forall j | i < j < |rows| :: rows[j].key != rows[i].key
    ensures rows[i].key in ByKey(rows) && ByKey(rows)[rows[i].key] == rows[i]
  {
    var front := rows[..|rows| - 1];
    if i < |front| {
      assert front[i] == rows[i] && rows[|rows| - 1].key != rows[i].key;
      assert forall j | i < j < |front| :: front[j].key == rows[j].key;
      LastWins(front, i);
    }
  }

  lemma {:induction false} KeysOf(rows: seq<Row>)
    ensures forall k :: k in ByKey(rows) <==> exists i :: 0 <= i < |rows| && rows[i].key == k
    ensures forall k | k in ByKey(rows) :: ByKey(rows)[k].key == k && ByKey(rows)[k] in rows
  {
    if rows != [] {
      var n := |rows| - 1;
      var front := rows[..n];
      KeysOf(front);
      forall k ensures k in ByKey(rows) <==> exists i :: 0 <= i < |rows| && rows[i].key == k {
        if k in ByKey(front) {
          var i :| 0 <= i < |front| && front[i].key == k;
          assert rows[i].key == k;
        }
        if i :| 0 <= i < |rows| && rows[i].key == k {
          if i < n {
            assert front[i].key == k;
          }
        }
      }
      assert rows[n].key in ByKey(rows);
    }
  }

  /** Merged rows are sorted by key, one to a key, for exactly the keys there are,
      and each is the last that was given for its key. */
  lemma MergedShape(rows: seq<Row>, attempts: seq<Attempt>)
    ensures var all, merged := rows + ToRows(attempts), Merged(rows, attempts);
            && (forall i, j | 0 <= i < j < |merged| ::
                  merged[i].key != merged[j].key && Leq(merged[i].key, merged[j].key))
            && (forall x | x in all :: exists i :: 0 <= i < |merged| && merged[i].key == x.key)
            && (forall i | 0 <= i < |merged| :: merged[i] in all)
            && (forall n | 0 <= n < |all| && (forall j | n < j < |all| :: all[j].key != all[n].key) :: all[n] in merged)
  {
    var all, merged := rows + ToRows(attempts), Merged(rows, attempts);
    var m := ByKey(all);
    KeysOf(all);
    SortedIs(m.Keys);
    var keys := Sorted(m.Keys);
    forall i | 0 <= i < |merged| ensures merged[i].key == keys[i] && merged[i] in all {
      assert keys[i] in keys;
    }
    forall x | x in all ensures exists i :: 0 <= i < |merged| && merged[i].key == x.key {
      var n :| 0 <= n < |all| && all[n] == x;
      assert x.key in m;
      assert x.key in keys;
      var i :| 0 <= i < |keys| && keys[i] == x.key;
      assert merged[i].key == x.key;
    }
    forall n | 0 <= n < |all| && (forall j | n < j < |all| :: all[j].key != all[n].key) ensures all[n] in merged {
      LastWins(all, n);
      assert all[n].key in keys;
      var i :| 0 <= i < |keys| && keys[i] == all[n].key;
      assert merged[i] == all[n];
    }
  }

  /** The last row of a key is the one that stands for it. */
  lemma LastStands(rows: seq<Row>, attempts: seq<Attempt>, all: seq<Row>, at: nat)
    requires all == rows + ToRows(attempts) && at < |all|
    requires forall j | at < j < |all| :: all[j].key != all[at].key
    ensures var merged := Merged(rows, attempts);
            && (exists i :: 0 <= i < |merged| && merged[i].key == all[at].key)
            && (forall r | r in merged && r.key == all[at].key :: r == all[at])
  {
    hide Merged, ToRows;
    MergedShape(rows, attempts);
    OneToAKey(Merged(rows, attempts), all[at]);
  }

  /** So the last attempt of a key is its row from then on. */
  lemma LastAttemptStands(rows: seq<Row>, attempts: seq<Attempt>, n: nat)
    requires n < |attempts|
    requires forall j | n < j < |attempts| :: attempts[j].delivery.key != attempts[n].delivery.key
    ensures var a, merged := attempts[n], Merged(rows, attempts);
            && (exists i :: 0 <= i < |merged| && merged[i].key == a.delivery.key)
            && forall r | r in merged && r.key == a.delivery.key :: r.delivered == a.delivered && r.at == a.at
  {
    hide Merged;
    var all := rows + ToRows(attempts);
    var at := |rows| + n;
    assert all[at] == ToRow(attempts[n]);
    forall j | at < j < |all| ensures all[j].key != all[at].key {
      assert all[j] == ToRow(attempts[j - |rows|]);
    }
    LastStands(rows, attempts, all, at);
  }

  lemma OneToAKey(rows: seq<Row>, x: Row)
    requires forall i, j | 0 <= i < j < |rows| :: rows[i].key != rows[j].key
    requires x in rows
    ensures exists i :: 0 <= i < |rows| && rows[i].key == x.key
    ensures forall r | r in rows && r.key == x.key :: r == x
  {
    var i :| 0 <= i < |rows| && rows[i] == x;
    assert rows[i].key == x.key;
  }

  ghost predicate KeyedBySelf(m: map<string, Row>) {
    forall k | k in m :: m[k].key == k
  }

  lemma ListingAt(m: map<string, Row>, i: nat)
    requires KeyedBySelf(m) && i < |Listing(m)|
    ensures Listing(m)[i].key == Sorted(m.Keys)[i] && Sorted(m.Keys)[i] in m
    ensures Listing(m)[i] == m[Sorted(m.Keys)[i]]
  {
    SortedIs(m.Keys);
    assert Sorted(m.Keys)[i] in Sorted(m.Keys);
  }

  lemma ListingHas(m: map<string, Row>, k: string)
    requires KeyedBySelf(m) && k in m
    ensures k in ByKey(Listing(m)) && ByKey(Listing(m))[k] == m[k]
  {
    var rows, keys := Listing(m), Sorted(m.Keys);
    SortedIs(m.Keys);
    assert k in keys;
    var i :| 0 <= i < |keys| && keys[i] == k;
    ListingAt(m, i);
    forall j | i < j < |rows| ensures rows[j].key != rows[i].key {
      ListingAt(m, j);
    }
    LastWins(rows, i);
  }

  lemma ListingIsKeyed(m: map<string, Row>)
    requires KeyedBySelf(m)
    ensures ByKey(Listing(m)) == m
  {
    var rows := Listing(m);
    KeysOf(rows);
    forall k | k in m ensures k in ByKey(rows) && ByKey(rows)[k] == m[k] {
      ListingHas(m, k);
    }
    forall k | k in ByKey(rows) ensures k in m {
      var i :| 0 <= i < |rows| && rows[i].key == k;
      ListingAt(m, i);
    }
  }

  lemma {:induction false} SameStart(a: seq<Row>, b: seq<Row>, more: seq<Row>)
    requires ByKey(a) == ByKey(b)
    ensures ByKey(a + more) == ByKey(b + more)
  {
    if more == [] {
      assert a + more == a && b + more == b;
    } else {
      var front := more[..|more| - 1];
      SameStart(a, b, front);
      assert (a + more)[..|a + more| - 1] == a + front;
      assert (b + more)[..|b + more| - 1] == b + front;
    }
  }

  /** Folding attempts in two batches is folding them at once. */
  lemma BatchesFold(rows: seq<Row>, a: seq<Attempt>, b: seq<Attempt>)
    ensures Merged(Merged(rows, a), b) == Merged(rows, a + b)
  {
    var first := rows + ToRows(a);
    KeysOf(first);
    ListingIsKeyed(ByKey(first));
    SameStart(Merged(rows, a), first, ToRows(b));
    assert first + ToRows(b) == rows + ToRows(a + b);
  }
}
