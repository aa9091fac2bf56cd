/** Confirmation records and what each locked section of the store and its manager does to them. */
module Confirmations {
  import opened Actions

  datatype Kind = ActionConfirmation | FactConfirmation | Notification | ToolApproval

  datatype Status =
    | Pending | Notified | ConfirmedOnce | ConfirmedPersistent
    | Rejected | Expired | Cancelled | Deferred

  /** The metadata entries that the manager itself reads and writes. */
  datatype RetryLink = RetryLink(retriedFrom: Option<nat>, root: Option<nat>, count: nat)

  const NO_RETRY := RetryLink(None, None, 0)

  /** ConfirmationRequest.  Ids are fixed-width hexadecimal strings, so their order is numeric. */
  datatype Confirmation = Confirmation(
    id: nat,
    kind: Kind,
    status: Status,
    prompt: string,
    decisionReason: string,
    snapshot: Snapshot,
    createdAt: int,
    expiresAt: int,
    consumedAt: Option<int>,
    retry: RetryLink,
    ownerId: Option<string>)

  /** The part of a confirmation from which the intent is rebuilt. */
  datatype Snapshot = Snapshot(
    action: Option<string>,
    scope: Option<string>,
    trigger: Option<string>,
    risk: Option<string>,
    requestedBy: Option<string>,
    requiresPresenceEmpty: bool,
    usesFacts: set<string>,
    payload: map<string, string>,
    idempotencyKey: Option<string>,
    continuity: Continuity)

  /** The five `arc_*` metadata entries. */
  datatype Continuity = Continuity(
    session: Option<string>,
    world: Option<string>,
    facts: Option<string>,
    origin: Option<string>,
    digest: Option<string>)

  const NO_CONTINUITY := Continuity(None, None, None, None, None)

  /** The content of the confirmation file by id. */
  type Table = map<nat, Confirmation>

  const MAX_RETRIES := 3

  predicate Lapsed(c: Confirmation, now: int) {
    c.expiresAt <= now
  }

  function Lapse(c: Confirmation): Confirmation {
    c.(status := Expired)
  }

  // ---- Locked sections ----

  predicate Claimable(c: Confirmation, now: int, kinds: set<Kind>) {
    !Lapsed(c, now) && c.kind in kinds && c.status == ConfirmedOnce && c.consumedAt.None?
  }

  function Claim(t: Table, id: nat, now: int, kinds: set<Kind>): (Table, Option<Confirmation>) {
    if id !in t then (t, None)
    else if Lapsed(t[id], now) then (t[id := Lapse(t[id])], None)
    else if !Claimable(t[id], now, kinds) then (t, None)
    else
      var claimed := t[id].(consumedAt := Some(now));
      (t[id := claimed], Some(claimed))
  }

  function ExpireIfNeeded(t: Table, id: nat, now: int): (Table, Option<Confirmation>) {
    if id !in t then (t, None)
    else if Lapsed(t[id], now) then (t[id := Lapse(t[id])], Some(Lapse(t[id])))
    else (t, Some(t[id]))
  }

  /** How a reply was classified. */
  datatype Reply = Confirms | Rejects | Persists | Unclear

  datatype Resolution = ResolvedConfirmed | ResolvedRejected | ResolvedPersistent | ResolvedExpired | ResolvedUnclear

  function Resolve(t: Table, id: nat, now: int, reply: Reply, caller: Option<string>): (Table, Resolution) {
    if id !in t then (t, ResolvedUnclear)
    else
      var c := t[id];
      if Lapsed(c, now) then (t[id := Lapse(c)], ResolvedExpired)
      else if c.kind == Notification then (t, ResolvedRejected)
      else if c.status != Pending then (t, ResolvedUnclear)
      else if c.ownerId.Some? && caller.Some? && caller != c.ownerId then (t, ResolvedRejected)
      else
        match reply
        case Confirms => (t[id := c.(status := ConfirmedOnce)], ResolvedConfirmed)
        case Rejects => (t[id := c.(status := Rejected)], ResolvedRejected)
        case Persists => (t[id := c.(status := ConfirmedPersistent)], ResolvedPersistent)
        case Unclear => (t, ResolvedUnclear)
  }

  predicate Sweepable(c: Confirmation, now: int) {
    (c.status == Pending || c.status == Notified) && Lapsed(c, now)
  }

  function Sweep(c: Confirmation, now: int): Confirmation {
    if Sweepable(c, now) then Lapse(c) else c
  }

  function ExpireOld(t: Table, now: int): Table {
    map id | id in t :: Sweep(t[id], now)
  }

  datatype RetryResult = Retried(confirmation: Confirmation) | NotFound | NotAllowed | LimitReached

  predicate Present(s: Option<string>) {
    s.Some? && s.value != ""
  }

  predicate MayRetry(c: Confirmation) {
    && (c.kind == ActionConfirmation || c.kind == ToolApproval)
    && c.status == Expired
    && c.consumedAt.None?
    && Present(c.snapshot.action) && c.prompt != "" && c.decisionReason != ""
  }

  /** The root recorded for the next retry of `c`. */
  function RootOf(c: Confirmation): nat {
    if c.retry.root.Some? then c.retry.root.value
    else if c.retry.retriedFrom.Some? then c.retry.retriedFrom.value
    else c.id
  }

  function RetryOf(c: Confirmation, requestedBy: Option<string>, now: int, ttl: nat, newId: nat): Confirmation {
    Confirmation(
      newId, c.kind, Pending, c.prompt, c.decisionReason,
      c.snapshot.(requestedBy := if Optional(requestedBy).Some? then Optional(requestedBy) else c.snapshot.requestedBy,
                  idempotencyKey := None),
      now, now + ttl, None,
      RetryLink(Some(c.id), Some(RootOf(c)), c.retry.count + 1),
      None)
  }

  function Retry(t: Table, id: nat, requestedBy: Option<string>, now: int, ttl: nat, newId: nat): (Table, RetryResult) {
    if id !in t then (t, NotFound)
    else if !MayRetry(t[id]) then (t, NotAllowed)
    else if t[id].retry.count + 1 > MAX_RETRIES then (t, LimitReached)
    else
      var c := RetryOf(t[id], requestedBy, now, ttl, newId);
      (t[newId := c], Retried(c))
  }

  /** What a creation puts into the table: a record of its own, not yet answered, consumed or retried. */
  predicate Newborn(c: Confirmation) {
    && (c.status == Pending || (c.kind == Notification && c.status == Notified))
    && c.consumedAt.None?
    && c.retry == NO_RETRY
  }

  function Create(t: Table, c: Confirmation): Table {
    t[c.id := c]
  }

  // ---- Any sequence of locked sections ----

  datatype Op =
    | DoCreate(c: Confirmation)
    | DoClaim(id: nat, now: int, kinds: set<Kind>)
    | DoExpire(id: nat, now: int)
    | DoResolve(id: nat, now: int, reply: Reply, caller: Option<string>)
    | DoExpireOld(now: int)
    | DoRetry(id: nat, requestedBy: Option<string>, now: int, ttl: nat, newId: nat)

  /** New ids are random and taken to be unused. */
  predicate Legal(t: Table, op: Op) {
    match op
    case DoCreate(c) => c.id !in t && Newborn(c)
    case DoRetry(_, _, _, _, newId) => newId !in t
    case _ => true
  }

  function Apply(t: Table, op: Op): Table {
    match op
    case DoCreate(c) => Create(t, c)
    case DoClaim(id, now, kinds) => Claim(t, id, now, kinds).0
    case DoExpire(id, now) => ExpireIfNeeded(t, id, now).0
    case DoResolve(id, now, reply, caller) => Resolve(t, id, now, reply, caller).0
    case DoExpireOld(now) => ExpireOld(t, now)
    case DoRetry(id, who, now, ttl, newId) => Retry(t, id, who, now, ttl, newId).0
  }

  predicate LegalRun(t: Table, ops: seq<Op>)
    decreases |ops|
  {
    ops == [] || (Legal(t, ops[0]) && LegalRun(Apply(t, ops[0]), ops[1..]))
  }

  function ApplyAll(t: Table, ops: seq<Op>): Table
    decreases |ops|
  {
    if ops == [] then t else ApplyAll(Apply(t, ops[0]), ops[1..])
  }

  /** How one record may change over any number of steps. */
  ghost predicate Evolves(c: Confirmation, d: Confirmation) {
    // only status and consumption ever change
    && d == c.(status := d.status, consumedAt := d.consumedAt)
    // `expired` is absorbing
    && (c.status == Expired ==> d.status == Expired)
    // a record is answered only while it is pending; nothing becomes pending, notified, cancelled or deferred again
    && (d.status != c.status ==> d.status == Expired || (c.status == Pending && d.status in {ConfirmedOnce, ConfirmedPersistent, Rejected}))
    // consumption is final, and starts only from a single-use approval
    && (c.consumedAt.Some? ==> d.consumedAt == c.consumedAt)
    && (c.consumedAt.None? && d.consumedAt.Some? ==> c.status == Pending || c.status == ConfirmedOnce)
    && (c.consumedAt.None? && d.consumedAt.Some? ==> d.status == ConfirmedOnce || d.status == Expired)
  }

  ghost predicate TableEvolves(t: Table, u: Table) {
    forall id :: id in t ==> id in u && Evolves(t[id], u[id])
  }

  lemma StepEvolves(t: Table, op: Op)
    requires Legal(t, op)
    ensures TableEvolves(t, Apply(t, op))
  {
  }

  lemma EvolvesTransitive(c: Confirmation, d: Confirmation, e: Confirmation)
    requires Evolves(c, d) && Evolves(d, e)
    ensures Evolves(c, e)
  {
  }

  /** The life of every confirmation, over every run. */
  lemma {:induction false} RunEvolves(t: Table, ops: seq<Op>)
    requires LegalRun(t, ops)
    ensures TableEvolves(t, ApplyAll(t, ops))
    decreases |ops|
  {
    if ops != [] {
      var u := Apply(t, ops[0]);
      StepEvolves(t, ops[0]);
      RunEvolves(u, ops[1..]);
      var v := ApplyAll(u, ops[1..]);
      forall id | id in t ensures id in v && Evolves(t[id], v[id]) {
        EvolvesTransitive(t[id], u[id], v[id]);
      }
    }
  }

  // ---- What a reply does ----

  /** A reply of this caller at this time is heard: in time, to a confirmation, by its owner where both are known. */
  predicate Hears(c: Confirmation, now: int, caller: Option<string>) {
    now < c.expiresAt && c.kind != Notification && (c.ownerId.None? || caller.None? || caller == c.ownerId)
  }

  predicate Replies(op: Op, c: Confirmation, reply: Reply) {
    op.DoResolve? && op.id == c.id && op.reply == reply && Hears(c, op.now, op.caller)
  }

  /** The operation finds a pending or notified confirmation after its time. */
  predicate FindsLapsed(op: Op, c: Confirmation) {
    match op
    case DoClaim(id, now, _) => id == c.id && c.expiresAt <= now
    case DoExpire(id, now) => id == c.id && c.expiresAt <= now
    case DoResolve(id, now, _, _) => id == c.id && c.expiresAt <= now
    case DoExpireOld(now) => c.expiresAt <= now
    case _ => false
  }

  /** A pending confirmation is confirmed only by a reply that confirms, rejected only by one that rejects, confirmed for
      good only by one that persists, and expired only after its time; nothing else changes it. */
  lemma PendingStep(t: Table, op: Op, id: nat)
    requires Legal(t, op) && id in t && t[id].id == id && t[id].status == Pending
    ensures id in Apply(t, op)
    ensures var c, d := t[id], Apply(t, op)[id];
            && d == c.(status := d.status)
            && (d.status == ConfirmedOnce <==> Replies(op, c, Confirms))
            && (d.status == Rejected <==> Replies(op, c, Rejects))
            && (d.status == ConfirmedPersistent <==> Replies(op, c, Persists))
            && (d.status == Expired <==> FindsLapsed(op, c))
            && d.status in {Pending, ConfirmedOnce, Rejected, ConfirmedPersistent, Expired}
  {
  }

  /** A notification that was given out can only expire. */
  lemma NotifiedStep(t: Table, op: Op, id: nat)
    requires Legal(t, op) && id in t && t[id].id == id && t[id].status == Notified && t[id].kind == Notification
    ensures id in Apply(t, op)
    ensures Apply(t, op)[id] == if FindsLapsed(op, t[id]) then t[id].(status := Expired) else t[id]
  {
  }

  /** What the one who replied is told. */
  lemma ReplyMeans(t: Table, id: nat, now: int, reply: Reply, caller: Option<string>)
    ensures var r := Resolve(t, id, now, reply, caller).1;
            if id !in t then r == ResolvedUnclear
            else
              var c := t[id];
              && (r == ResolvedExpired <==> c.expiresAt <= now)
              && (r == ResolvedConfirmed <==> c.status == Pending && Hears(c, now, caller) && reply.Confirms?)
              && (r == ResolvedPersistent <==> c.status == Pending && Hears(c, now, caller) && reply.Persists?)
              && (r == ResolvedRejected <==>
                    now < c.expiresAt
                    && (c.kind == Notification || (c.status == Pending && (reply.Rejects? || !Hears(c, now, caller)))))
  {
  }

  /** A confirmed and unconsumed confirmation is consumed only by a claim in time for its kind, which stamps it with the
      time of the claim, and is expired only by an operation that finds it after its time; nothing else changes it. */
  lemma ConfirmedStep(t: Table, op: Op, id: nat)
    requires Legal(t, op) && id in t && t[id].id == id && t[id].status == ConfirmedOnce && t[id].consumedAt.None?
    ensures id in Apply(t, op)
    ensures var c, d := t[id], Apply(t, op)[id];
            if op.DoClaim? && op.id == id && op.now < c.expiresAt && c.kind in op.kinds then d == c.(consumedAt := Some(op.now))
            else if FindsLapsed(op, c) && !op.DoExpireOld? then d == c.(status := Expired)
            else d == c
  {
  }

  /** Who wins a claim, and what they get. */
  lemma ClaimMeans(t: Table, id: nat, now: int, kinds: set<Kind>)
    ensures var (u, won) := Claim(t, id, now, kinds);
            && (won.Some? <==> id in t && t[id].status == ConfirmedOnce && t[id].consumedAt.None?
                               && now < t[id].expiresAt && t[id].kind in kinds)
            && (won.Some? ==> u == t[id := t[id].(consumedAt := Some(now))] && won.value == u[id])
  {
  }

  /** What a heard reply makes of the table. */
  lemma ReplyChanges(t: Table, id: nat, now: int, reply: Reply, caller: Option<string>)
    requires id in t && t[id].status == Pending && Hears(t[id], now, caller)
    ensures var (u, r) := Resolve(t, id, now, reply, caller);
            match reply
            case Confirms => r == ResolvedConfirmed && u == t[id := t[id].(status := ConfirmedOnce)]
            case Rejects => r == ResolvedRejected && u == t[id := t[id].(status := Rejected)]
            case Persists => r == ResolvedPersistent && u == t[id := t[id].(status := ConfirmedPersistent)]
            case Unclear => r == ResolvedUnclear && u == t
  {
  }

  ghost predicate Replied(ops: seq<Op>, c: Confirmation, reply: Reply) {
    exists k :: 0 <= k < |ops| && Replies(ops[k], c, reply)
  }

  /** The status of an answered confirmation tells, over any run, which reply there was. */
  ghost predicate AnsweredAs(ops: seq<Op>, c: Confirmation, status: Status) {
    && (status == ConfirmedOnce ==> Replied(ops, c, Confirms))
    && (status == Rejected ==> Replied(ops, c, Rejects))
    && (status == ConfirmedPersistent ==> Replied(ops, c, Persists))
    && status in {Pending, ConfirmedOnce, Rejected, ConfirmedPersistent, Expired}
  }

  lemma AnsweredLater(op: Op, rest: seq<Op>, c: Confirmation, status: Status)
    requires AnsweredAs(rest, c, status)
    ensures AnsweredAs([op] + rest, c, status)
  {
    var ops := [op] + rest;
    forall reply | Replied(rest, c, reply) ensures Replied(ops, c, reply) {
      var k :| 0 <= k < |rest| && Replies(rest[k], c, reply);
      assert ops[k + 1] == rest[k];
    }
  }

  lemma {:induction false} AnsweredByReply(t: Table, ops: seq<Op>, id: nat)
    requires LegalRun(t, ops) && id in t && t[id].id == id && t[id].status == Pending
    ensures id in ApplyAll(t, ops) && AnsweredAs(ops, t[id], ApplyAll(t, ops)[id].status)
    decreases |ops|
  {
    if ops != [] {
      var u, rest := Apply(t, ops[0]), ops[1..];
      PendingStep(t, ops[0], id);
      assert ops == [ops[0]] + rest;
      if u[id].status == Pending {
        AnsweredByReply(u, rest, id);
        AnsweredLater(ops[0], rest, t[id], ApplyAll(u, rest)[id].status);
      } else {
        RunEvolves(u, rest);
        assert Evolves(u[id], ApplyAll(u, rest)[id]);
        forall reply | Replies(ops[0], t[id], reply) ensures Replied(ops, t[id], reply) {
        }
      }
    }
  }

  /** The first reply that is heard, before anything finds the confirmation lapsed, is the answer for good. */
  lemma {:induction false} FirstReplyCounts(t: Table, ops: seq<Op>, id: nat, k: nat, reply: Reply)
    requires LegalRun(t, ops) && id in t && t[id].id == id && t[id].status == Pending
    requires k < |ops| && Replies(ops[k], t[id], reply)
    requires forall j, r :: 0 <= j < k && Replies(ops[j], t[id], r) ==> r == Unclear
    requires forall j :: 0 <= j < k ==> !FindsLapsed(ops[j], t[id])
    ensures id in ApplyAll(t, ops)
    ensures reply.Confirms? ==> ApplyAll(t, ops)[id].status in {ConfirmedOnce, Expired}
    ensures reply.Rejects? ==> ApplyAll(t, ops)[id].status in {Rejected, Expired}
    ensures reply.Persists? ==> ApplyAll(t, ops)[id].status in {ConfirmedPersistent, Expired}
    decreases |ops|
  {
    var u, rest := Apply(t, ops[0]), ops[1..];
    PendingStep(t, ops[0], id);
    if k == 0 {
      RunEvolves(u, rest);
      assert Evolves(u[id], ApplyAll(u, rest)[id]);
    } else {
      assert !FindsLapsed(ops[0], t[id]);
      assert u[id] == t[id];
      assert forall j :: 0 <= j < |rest| ==> rest[j] == ops[j + 1];
      FirstReplyCounts(u, rest, id, k - 1, reply);
    }
  }

  /** Approved once, or carried out already. */
  predicate Approved(c: Confirmation) {
    c.status == ConfirmedOnce || c.consumedAt.Some?
  }

  /** An operation approves a confirmation only if it is a reply that confirms it. */
  lemma ApprovalNeedsReply(t: Table, op: Op, id: nat)
    requires Legal(t, op) && id in Apply(t, op) && Approved(Apply(t, op)[id])
    requires id in t ==> t[id].id == id
    ensures id in t && (Approved(t[id]) || (t[id].status == Pending && Replies(op, t[id], Confirms)))
  {
    if id in t && t[id].status == Pending {
      PendingStep(t, op, id);
    }
  }

  // ---- Retry chains ----

  ghost predicate LinkOk(t: Table, c: Confirmation) {
    match c.retry.retriedFrom
    case None => c.retry == NO_RETRY
    case Some(p) =>
      && p in t && p != c.id
      && t[p].status == Expired && t[p].consumedAt.None?
      && c.retry == RetryLink(Some(p), Some(RootOf(t[p])), t[p].retry.count + 1)
      && c.retry.count <= MAX_RETRIES
  }

  ghost predicate Linked(t: Table) {
    forall id :: id in t ==> t[id].id == id && LinkOk(t, t[id])
  }

  lemma LinkOkKept(t: Table, u: Table, c: Confirmation, d: Confirmation)
    requires TableEvolves(t, u) && Evolves(c, d) && LinkOk(t, c)
    ensures LinkOk(u, d)
  {
  }

  lemma StepLinked(t: Table, op: Op)
    requires Linked(t) && Legal(t, op)
    ensures Linked(Apply(t, op))
  {
    var u := Apply(t, op);
    StepEvolves(t, op);
    forall id | id in u ensures u[id].id == id && LinkOk(u, u[id]) {
      if id in t {
        LinkOkKept(t, u, t[id], u[id]);
      }
    }
  }

  lemma {:induction false} RunLinked(t: Table, ops: seq<Op>)
    requires Linked(t) && LegalRun(t, ops)
    ensures Linked(ApplyAll(t, ops))
    decreases |ops|
  {
    if ops != [] {
      StepLinked(t, ops[0]);
      RunLinked(Apply(t, ops[0]), ops[1..]);
    }
  }

  /** What a retry is: the same question again, pending and unconsumed under a new id and a new time to live, linked to the
      record it retries, without that record's key and owner.  Nothing else changes. */
  lemma RetryCopies(t: Table, id: nat, requestedBy: Option<string>, now: int, ttl: nat, newId: nat)
    requires id in t && Retry(t, id, requestedBy, now, ttl, newId).1.Retried?
    ensures var (u, r) := Retry(t, id, requestedBy, now, ttl, newId);
            var c, d := t[id], r.confirmation;
            && u == t[newId := d]
            && d.id == newId && d.status == Pending && d.consumedAt.None? && d.ownerId.None?
            && d.createdAt == now && d.expiresAt == now + ttl
            && d.kind == c.kind && d.prompt == c.prompt && d.decisionReason == c.decisionReason
            && d.snapshot.action == c.snapshot.action && d.snapshot.scope == c.snapshot.scope
            && d.snapshot.trigger == c.snapshot.trigger && d.snapshot.risk == c.snapshot.risk
            && d.snapshot.requiresPresenceEmpty == c.snapshot.requiresPresenceEmpty
            && d.snapshot.usesFacts == c.snapshot.usesFacts && d.snapshot.payload == c.snapshot.payload
            && d.snapshot.continuity == c.snapshot.continuity && d.snapshot.idempotencyKey.None?
            && d.retry.retriedFrom == Some(c.id) && d.retry.count == c.retry.count + 1
            && (requestedBy.None? || Strip(requestedBy.value) == "" ==> d.snapshot.requestedBy == c.snapshot.requestedBy)
            && (requestedBy.Some? && Strip(requestedBy.value) != "" ==> d.snapshot.requestedBy == Some(Strip(requestedBy.value)))
  {
  }

  /** When a retry is made. */
  lemma RetryRules(t: Table, id: nat, requestedBy: Option<string>, now: int, ttl: nat, newId: nat)
    ensures var r := Retry(t, id, requestedBy, now, ttl, newId).1;
            && (r.Retried? <==> id in t && t[id].status == Expired && Retryable(t[id]))
            && (r.NotFound? <==> id !in t)
            && (r.LimitReached? <==>
                  id in t && t[id].status == Expired && Retryable(t[id].(retry := NO_RETRY)) && t[id].retry.count >= 3)
            && (r.Retried? || Retry(t, id, requestedBy, now, ttl, newId).0 == t)
  {
  }

  /** The chain from a confirmation back to the one its first retry was made from, read off the parent links alone. */
  ghost function Chain(t: Table, id: nat): (chain: seq<nat>)
    requires Linked(t) && id in t
    ensures |chain| >= 1 && chain[0] == id && forall i :: 0 <= i < |chain| ==> chain[i] in t
    decreases t[id].retry.count
  {
    match t[id].retry.retriedFrom
    case None => [id]
    case Some(p) => [id] + Chain(t, p)
  }

  /** Recorded counts and roots are the true ones, and chains are short. */
  lemma {:induction false} ChainFacts(t: Table, id: nat)
    requires Linked(t) && id in t
    ensures var chain := Chain(t, id);
            && t[id].retry.count == |chain| - 1 <= MAX_RETRIES
            && RootOf(t[id]) == chain[|chain| - 1]
            && (forall i :: 1 <= i < |chain| ==> t[chain[i]].status == Expired && t[chain[i]].consumedAt.None?)
    decreases t[id].retry.count
  {
    match t[id].retry.retriedFrom
    case None =>
    case Some(p) =>
      ChainFacts(t, p);
      var chain, tail := Chain(t, id), Chain(t, p);
      forall i | 1 <= i < |chain| ensures t[chain[i]].status == Expired && t[chain[i]].consumedAt.None? {
        assert chain[i] == tail[i - 1];
      }
  }

  /** From a linked table on, everything behind the newest confirmation of a chain stays unconsumed for good. */
  lemma AncestorsStayUnconsumed(t: Table, ops: seq<Op>, id: nat)
    requires Linked(t) && LegalRun(t, ops) && id in t
    ensures var u := ApplyAll(t, ops);
            var chain := Chain(t, id);
            forall i :: 1 <= i < |chain| ==> chain[i] in u && u[chain[i]].consumedAt.None?
  {
    ChainFacts(t, id);
    RunEvolves(t, ops);
    var u := ApplyAll(t, ops);
    var chain := Chain(t, id);
    forall i | 1 <= i < |chain| ensures chain[i] in u && u[chain[i]].consumedAt.None? {
      assert Evolves(t[chain[i]], u[chain[i]]);
    }
  }

  /** Along any retry chain of any reachable table, at most one confirmation is consumed. */
  lemma OneConsumedPerChain(ops: seq<Op>, id: nat, i: nat, j: nat)
    requires LegalRun(map[], ops) && id in ApplyAll(map[], ops)
    ensures Linked(ApplyAll(map[], ops))
    ensures var t := ApplyAll(map[], ops);
            var chain := Chain(t, id);
            i < |chain| && j < |chain| && t[chain[i]].consumedAt.Some? && t[chain[j]].consumedAt.Some? ==> i == j
  {
    RunLinked(map[], ops);
    ChainFacts(ApplyAll(map[], ops), id);
  }

  // ---- When a rejection is final ----

  /** The operation looks at the confirmation at or after its expiry.  The sweep passes over answered ones. */
  predicate Outlives(op: Op, id: nat, expiresAt: int) {
    match op
    case DoClaim(i, now, _) => i == id && expiresAt <= now
    case DoExpire(i, now) => i == id && expiresAt <= now
    case DoResolve(i, now, _, _) => i == id && expiresAt <= now
    case _ => false
  }

  ghost predicate SeenExpired(ops: seq<Op>, id: nat, expiresAt: int) {
    exists k :: 0 <= k < |ops| && Outlives(ops[k], id, expiresAt)
  }

  lemma AnsweredStep(t: Table, op: Op, id: nat)
    requires Legal(t, op) && id in t && t[id].status in {Rejected, Expired}
    ensures id in Apply(t, op)
    ensures Apply(t, op)[id] == if Outlives(op, id, t[id].expiresAt) then Lapse(t[id]) else t[id]
  {
  }

  /** Over any run a rejected confirmation changes in one way only: it becomes expired, at the first operation that looks
      at it once its time is up. */
  lemma {:induction false} RejectedUntilExpired(t: Table, ops: seq<Op>, id: nat)
    requires LegalRun(t, ops) && id in t && t[id].status in {Rejected, Expired}
    ensures id in ApplyAll(t, ops)
    ensures ApplyAll(t, ops)[id] == if SeenExpired(ops, id, t[id].expiresAt) then Lapse(t[id]) else t[id]
    decreases |ops|
  {
    if ops == [] {
    } else {
      var c, rest := t[id], ops[1..];
      AnsweredStep(t, ops[0], id);
      RejectedUntilExpired(Apply(t, ops[0]), rest, id);
      if SeenExpired(rest, id, c.expiresAt) {
        var k :| 0 <= k < |rest| && Outlives(rest[k], id, c.expiresAt);
        assert Outlives(ops[k + 1], id, c.expiresAt);
      }
      if SeenExpired(ops, id, c.expiresAt) && !Outlives(ops[0], id, c.expiresAt) {
        var k :| 0 <= k < |ops| && Outlives(ops[k], id, c.expiresAt);
        assert rest[k - 1] == ops[k];
      }
    }
  }

  predicate Retryable(c: Confirmation) {
    && (c.kind == ActionConfirmation || c.kind == ToolApproval) && c.consumedAt.None?
    && Present(c.snapshot.action) && c.prompt != "" && c.decisionReason != ""
    && c.retry.count < MAX_RETRIES
  }

  /** So a rejection is final if and only if nothing looks at it after its time is up, or it was not retryable at all. */
  lemma RejectedMayBeRetried(
    t: Table, ops: seq<Op>, id: nat, requestedBy: Option<string>, now: int, ttl: nat, newId: nat)
    requires LegalRun(t, ops) && id in t && t[id].status == Rejected
    ensures Retry(ApplyAll(t, ops), id, requestedBy, now, ttl, newId).1.Retried?
            <==> SeenExpired(ops, id, t[id].expiresAt) && Retryable(t[id])
  {
    RejectedUntilExpired(t, ops, id);
  }

  const SAMPLE_SNAPSHOT := Snapshot(
    Some("light.on"), Some("home"), Some("system"), Some("low"), None, false, {}, map[], None, NO_CONTINUITY)

  const SAMPLE := Confirmation(
    0, ActionConfirmation, Rejected, "Continue?", "ask", SAMPLE_SNAPSHOT, 0, 10, None, NO_RETRY, None)

  /** An input: rejected, looked at when its time was up, and retried. */
  lemma RejectedThenRetried()
    ensures Retry(ApplyAll(map[0 := SAMPLE], [DoExpire(0, 10)]), 0, None, 11, 10, 1).1.Retried?
  {
    var ops := [DoExpire(0, 10)];
    assert Outlives(ops[0], 0, 10);
    RejectedMayBeRetried(map[0 := SAMPLE], ops, 0, None, 11, 10, 1);
  }

  // ---- When a root is carried out once ----

  ghost predicate RetriedTwice(t: Table, p: nat) {
    exists x, y :: TwoRetries(t, p, x, y)
  }

  predicate TwoRetries(t: Table, p: nat, x: nat, y: nat) {
    && x in t && y in t && x != y
    && t[x].retry.retriedFrom == Some(p) && t[y].retry.retriedFrom == Some(p)
  }

  lemma {:induction false} ChainLinks(t: Table, id: nat, i: nat)
    requires Linked(t) && id in t && 1 <= i < |Chain(t, id)|
    ensures t[Chain(t, id)[i - 1]].retry.retriedFrom == Some(Chain(t, id)[i])
    decreases t[id].retry.count
  {
    var p := t[id].retry.retriedFrom.value;
    assert Chain(t, id)[i] == Chain(t, p)[i - 1];
    if i > 1 {
      ChainLinks(t, p, i - 1);
      assert Chain(t, id)[i - 1] == Chain(t, p)[i - 2];
    }
  }

  /** Two chains with one root that do not lie within each other part at a confirmation retried twice. */
  lemma {:induction false} Diverge(t: Table, a: nat, b: nat)
    requires Linked(t) && a in t && b in t && RootOf(t[a]) == RootOf(t[b])
    requires a !in Chain(t, b) && b !in Chain(t, a)
    ensures exists p :: RetriedTwice(t, p)
    decreases t[a].retry.count
  {
    var mine, other := Chain(t, a), Chain(t, b);
    ChainFacts(t, a);
    ChainFacts(t, b);
    assert other[|other| - 1] in other;
    match t[a].retry.retriedFrom
    case None =>
    case Some(p) =>
      assert mine == [a] + Chain(t, p);
      if p in other {
        var i :| 0 <= i < |other| && other[i] == p;
        assert p == Chain(t, p)[0] && mine[1] == p;
        ChainLinks(t, b, i);
        assert TwoRetries(t, p, a, other[i - 1]);
        assert RetriedTwice(t, p);
      } else {
        assert forall i :: 0 <= i < |Chain(t, p)| ==> Chain(t, p)[i] == mine[i + 1];
        Diverge(t, p, b);
      }
  }

  /** In every reachable table two consumed confirmations of one root stem from some confirmation retried twice; so where
      none is, each root is carried out at most once. */
  lemma OncePerRoot(ops: seq<Op>, a: nat, b: nat)
    requires LegalRun(map[], ops)
    requires var t := ApplyAll(map[], ops);
             a in t && b in t && a != b && t[a].consumedAt.Some? && t[b].consumedAt.Some? && RootOf(t[a]) == RootOf(t[b])
    ensures exists p :: RetriedTwice(ApplyAll(map[], ops), p)
  {
    RunLinked(map[], ops);
    var t := ApplyAll(map[], ops);
    ChainFacts(t, a);
    ChainFacts(t, b);
    Diverge(t, a, b);
  }

  /** Only depth is bounded: retrying any retryable confirmation twice gives two approvals that can both be consumed, so
      the same root may be carried out more than once. */
  lemma SiblingsBothConsumed(t: Table, id: nat, a: nat, b: nat, now: int, ttl: nat)
    requires id in t && MayRetry(t[id]) && t[id].id == id && t[id].retry.count < MAX_RETRIES
    requires a !in t && b !in t && a != b && ttl > 0 && t[id].kind == ActionConfirmation
    ensures var t1 := Retry(t, id, None, now, ttl, a).0;
            var t2 := Retry(t1, id, None, now, ttl, b).0;
            var t3 := Resolve(Resolve(t2, a, now, Confirms, None).0, b, now, Confirms, None).0;
            var first := Claim(t3, a, now, {ActionConfirmation});
            var second := Claim(first.0, b, now, {ActionConfirmation});
            first.1.Some? && second.1.Some? && RootOf(first.1.value) == RootOf(second.1.value)
  {
  }
}
