/** No action behind a confirmation without consent: every backend call for a confirmation has a reply behind it that
    confirmed it in time. */
module Consent {
  import opened Actions
  import opened Confirmations
  import opened ActionProtocol
  import opened ActionSafety

  // ---- Replies among the labels of a run ----

  /** The label brings a reply to this confirmation: with a resumption, or from another party. */
  predicate Brings(l: Label, c: Confirmation, reply: Reply) {
    match l
    case Resume(_, _, rid, r, now) => rid == c.id && r == reply && Hears(c, now, None)
    case Other(op) => Replies(op, c, reply)
    case _ => false
  }

  ghost predicate Consented(past: seq<Label>, c: Confirmation) {
    exists k :: 0 <= k < |past| && Brings(past[k], c, Confirms)
  }

  /** A process that is about to pass a reply on. */
  predicate PassesOn(point: Point, rid: nat, reply: Reply, now: int) {
    point == Resuming(rid, reply, now) || point == Replying(rid, reply, now)
  }

  ghost predicate Resumed(past: seq<Label>, rid: nat, reply: Reply, now: int) {
    exists k :: 0 <= k < |past| && past[k].Resume? && past[k].rid == rid && past[k].reply == reply && past[k].now == now
  }

  /** Every reply a process passes on came with its resumption. */
  ghost predicate RepliesAreReal(procs: map<nat, Proc>, past: seq<Label>) {
    forall a, rid, reply, now :: a in procs && PassesOn(procs[a].point, rid, reply, now) ==> Resumed(past, rid, reply, now)
  }

  /** Every approved confirmation was consented to. */
  ghost predicate ApprovalsAreReal(t: Table, past: seq<Label>) {
    forall id :: id in t ==> t[id].id == id && (Approved(t[id]) ==> Consented(past, t[id]))
  }

  ghost predicate Real(s: State, past: seq<Label>) {
    RepliesAreReal(s.procs, past) && ApprovalsAreReal(s.table, past)
  }

  lemma ConsentedLater(past: seq<Label>, l: Label, c: Confirmation, d: Confirmation)
    requires Consented(past, c) && d == c.(status := d.status, consumedAt := d.consumedAt)
    ensures Consented(past + [l], d)
  {
    var k :| 0 <= k < |past| && Brings(past[k], c, Confirms);
    assert (past + [l])[k] == past[k];
  }

  lemma ConsentedNow(past: seq<Label>, l: Label, c: Confirmation)
    requires Brings(l, c, Confirms)
    ensures Consented(past + [l], c)
  {
    assert (past + [l])[|past|] == l;
  }

  lemma ResumedLater(past: seq<Label>, l: Label, rid: nat, reply: Reply, now: int)
    requires Resumed(past, rid, reply, now)
    ensures Resumed(past + [l], rid, reply, now)
  {
    var k :| 0 <= k < |past| && past[k].Resume? && past[k].rid == rid && past[k].reply == reply && past[k].now == now;
    assert (past + [l])[k] == past[k];
  }

  /** A reply that came with a resumption and is heard is a consent. */
  lemma ResumedConsents(past: seq<Label>, c: Confirmation, now: int)
    requires Resumed(past, c.id, Confirms, now) && Hears(c, now, None)
    ensures Consented(past, c)
  {
    var k :| 0 <= k < |past| && past[k].Resume? && past[k].rid == c.id && past[k].reply == Confirms && past[k].now == now;
    assert Brings(past[k], c, Confirms);
  }

  // ---- Every step ----

  /** The table moves by an operation that approves nothing without consent. */
  lemma TableStaysReal(t: Table, op: Op, past: seq<Label>, l: Label)
    requires ApprovalsAreReal(t, past) && Legal(t, op)
    requires forall id :: id in t && t[id].status == Pending && Replies(op, t[id], Confirms) ==> Consented(past + [l], t[id])
    ensures ApprovalsAreReal(Apply(t, op), past + [l])
  {
    StepEvolves(t, op);
    hide Consented, Replies;
    forall id | id in Apply(t, op)
      ensures Apply(t, op)[id].id == id && (Approved(Apply(t, op)[id]) ==> Consented(past + [l], Apply(t, op)[id]))
    {
      if id in t { assert Evolves(t[id], Apply(t, op)[id]); }
      if Approved(Apply(t, op)[id]) {
        ApprovalNeedsReply(t, op, id);
        var c, d := t[id], Apply(t, op)[id];
        if Approved(c) {
          ConsentedLater(past, l, c, d);
        } else {
          SameConsent(past + [l], c, d);
        }
      }
    }
  }

  lemma SameConsent(past: seq<Label>, c: Confirmation, d: Confirmation)
    requires Consented(past, c) && d == c.(status := d.status, consumedAt := d.consumedAt)
    ensures Consented(past, d)
  {
    var k :| 0 <= k < |past| && Brings(past[k], c, Confirms);
    assert Brings(past[k], d, Confirms);
  }

  lemma TableRests(t: Table, past: seq<Label>, l: Label)
    requires ApprovalsAreReal(t, past)
    ensures ApprovalsAreReal(t, past + [l])
  {
    hide Consented;
    forall id | id in t && Approved(t[id]) ensures Consented(past + [l], t[id]) {
      ConsentedLater(past, l, t[id], t[id]);
    }
  }

  /** A process comes to pass on a reply only from passing it on before. */
  ghost predicate NoNewReplies(s: State, u: State) {
    forall a, rid, reply, now :: a in u.procs && PassesOn(u.procs[a].point, rid, reply, now) ==>
      a in s.procs && PassesOn(s.procs[a].point, rid, reply, now)
  }

  lemma RepliesRest(s: State, u: State, past: seq<Label>, l: Label)
    requires RepliesAreReal(s.procs, past) && NoNewReplies(s, u)
    ensures RepliesAreReal(u.procs, past + [l])
  {
    hide Resumed;
    forall a, rid, reply, now | a in u.procs && PassesOn(u.procs[a].point, rid, reply, now)
      ensures Resumed(past + [l], rid, reply, now)
    {
      ResumedLater(past, l, rid, reply, now);
    }
  }

  /** What the steps of a process do to the table: an operation, or nothing. */
  function OpOf(cfg: Config, s: State, l: Label): Option<Op> {
    match l
    case CreateRecord(aid, newId, prompt, reason, now, ttl) =>
      if aid in s.procs && s.procs[aid].point.Creating? && newId !in s.table
      then Some(DoCreate(RecordFor(cfg.policy, s.procs[aid].point.intent, newId, prompt, reason, now, ttl))) else None
    case ExpireFirst(aid) =>
      if aid in s.procs && s.procs[aid].point.Resuming?
      then Some(DoExpire(s.procs[aid].point.rid, s.procs[aid].point.now)) else None
    case Answer(aid) =>
      if aid in s.procs && s.procs[aid].point.Replying?
      then Some(DoResolve(s.procs[aid].point.rid, s.procs[aid].point.now, s.procs[aid].point.reply, None)) else None
    case TakeClaim(aid) =>
      if aid in s.procs && s.procs[aid].point.Claiming?
      then Some(DoClaim(s.procs[aid].point.rid, s.procs[aid].point.now, {ActionConfirmation})) else None
    case Other(op) => if Legal(s.table, op) then Some(op) else None
    case _ => None
  }

  ghost predicate MovesBy(cfg: Config, s: State, l: Label, u: State) {
    var op := OpOf(cfg, s, l);
    if op.Some? then Legal(s.table, op.value) && u.table == Apply(s.table, op.value) else u.table == s.table
  }

  lemma CheckMoves(cfg: Config, s: State, l: Label)
    requires (l.Check? || l.Simulate? || l.Gate? || l.Permit?) && l.aid in s.procs
    ensures MovesBy(cfg, s, l, StepProc(cfg, s, l)) && NoNewReplies(s, StepProc(cfg, s, l))
  {
    hide IntentSnapshot.Rebuild, Composite, Apply;
  }

  lemma CallMoves(cfg: Config, s: State, l: Label)
    requires (l.Enqueue? || l.Call? || l.Remember? || l.Reread? || l.Decide? || l.Crash?) && l.aid in s.procs
    ensures MovesBy(cfg, s, l, StepProc(cfg, s, l)) && NoNewReplies(s, StepProc(cfg, s, l))
  {
    hide ResumeVerdict, Apply;
  }

  lemma LockedMoves(cfg: Config, s: State, l: Label)
    requires (l.CreateRecord? || l.ExpireFirst? || l.Answer? || l.TakeClaim?) && l.aid in s.procs
    ensures MovesBy(cfg, s, l, StepProc(cfg, s, l)) && NoNewReplies(s, StepProc(cfg, s, l))
  {
    hide ExpireIfNeeded, Resolve, Claim;
  }

  lemma ProcMoves(cfg: Config, s: State, l: Label)
    requires !l.Submit? && !l.Resume? && !l.Dispatch? && !l.Restart? && !l.Other? && l.aid in s.procs
    ensures MovesBy(cfg, s, l, StepProc(cfg, s, l)) && NoNewReplies(s, StepProc(cfg, s, l))
  {
    hide MovesBy, NoNewReplies, StepProc;
    if l.Check? || l.Simulate? || l.Gate? || l.Permit? {
      CheckMoves(cfg, s, l);
    } else if l.CreateRecord? || l.ExpireFirst? || l.Answer? || l.TakeClaim? {
      LockedMoves(cfg, s, l);
    } else {
      CallMoves(cfg, s, l);
    }
  }

  lemma OtherMoves(cfg: Config, s: State, l: Label)
    requires l.Submit? || l.Dispatch? || l.Restart? || l.Other? || (!l.Resume? && l.aid !in s.procs)
    ensures MovesBy(cfg, s, l, Step(cfg, s, l)) && NoNewReplies(s, Step(cfg, s, l))
  {
    hide Apply, StepProc, LoadedKeys, Keep;
  }

  /** Whatever an operation of a label approves, the label or an earlier one brought the consent. */
  lemma OpIsReal(cfg: Config, s: State, past: seq<Label>, l: Label, op: Op, id: nat)
    requires Real(s, past) && OpOf(cfg, s, l) == Some(op)
    requires id in s.table && Replies(op, s.table[id], Confirms)
    ensures Consented(past + [l], s.table[id])
  {
    hide Consented, Resumed, ApprovalsAreReal;
    var c := s.table[id];
    match l
    case Answer(aid) =>
      var point := s.procs[aid].point;
      assert PassesOn(point, point.rid, point.reply, point.now);
      ResumedConsents(past, c, point.now);
      ConsentedLater(past, l, c, c);
    case Other(_) => ConsentedNow(past, l, c);
    case CreateRecord(_, _, _, _, _, _) =>
    case ExpireFirst(_) =>
    case TakeClaim(_) =>
  }

  lemma ResumeIsReal(cfg: Config, s: State, past: seq<Label>, l: Label)
    requires Real(s, past) && l.Resume?
    ensures Real(Step(cfg, s, l), past + [l])
  {
    TableRests(s.table, past, l);
    hide ApprovalsAreReal, Resumed;
    var u := Step(cfg, s, l);
    forall a, rid, reply, now | a in u.procs && PassesOn(u.procs[a].point, rid, reply, now)
      ensures Resumed(past + [l], rid, reply, now)
    {
      if a in s.procs && u.procs[a] == s.procs[a] {
        ResumedLater(past, l, rid, reply, now);
      } else {
        ResumedNow(past, l);
      }
    }
  }

  lemma ResumedNow(past: seq<Label>, l: Label)
    requires l.Resume?
    ensures Resumed(past + [l], l.rid, l.reply, l.now)
  {
    assert (past + [l])[|past|] == l;
  }

  lemma StepIsReal(cfg: Config, s: State, past: seq<Label>, l: Label)
    requires Real(s, past)
    ensures Real(Step(cfg, s, l), past + [l])
  {
    if l.Resume? {
      ResumeIsReal(cfg, s, past, l);
    } else {
      var u := Step(cfg, s, l);
      hide StepProc, Apply, OpOf;
      if l.Submit? || l.Dispatch? || l.Restart? || l.Other? || l.aid !in s.procs {
        OtherMoves(cfg, s, l);
      } else {
        ProcMoves(cfg, s, l);
      }
      RepliesRest(s, u, past, l);
      var op := OpOf(cfg, s, l);
      hide NoNewReplies, RepliesAreReal;
      if op.Some? {
        forall id | id in s.table && s.table[id].status == Pending && Replies(op.value, s.table[id], Confirms)
          ensures Consented(past + [l], s.table[id])
        {
          OpIsReal(cfg, s, past, l, op.value, id);
        }
        TableStaysReal(s.table, op.value, past, l);
      } else {
        TableRests(s.table, past, l);
      }
    }
  }

  lemma {:induction false} RunIsReal(cfg: Config, s: State, past: seq<Label>, labels: seq<Label>)
    requires Real(s, past)
    ensures Real(Run(cfg, s, labels), past + labels)
    decreases |labels|
  {
    hide Real, Step;
    if labels == [] {
      assert past + labels == past;
    } else {
      StepIsReal(cfg, s, past, labels[0]);
      RunIsReal(cfg, Step(cfg, s, labels[0]), past + [labels[0]], labels[1..]);
      assert (past + [labels[0]]) + labels[1..] == past + labels;
    }
  }

  // ---- Main result ----

  /** In every run of any interleaving, as soon as the backend was entered for a confirmation, a reply that confirms it has
      come before: with a resumption or from another party, before its expiry and by its owner where both are known. */
  lemma NoCallWithoutConsent(cfg: Config, labels: seq<Label>, rid: nat, k: nat)
    requires CallsFor(Run(cfg, INIT, labels).trace, k, rid)
    ensures var s := Run(cfg, INIT, labels);
            rid in s.table && s.table[rid].id == rid && Consented(labels, s.table[rid])
  {
    hide Run, Real, ByTheClaimant, CallsFor, Consented;
    assert Real(INIT, []) by { FirstIsReal(); }
    RunIsReal(cfg, INIT, [], labels);
    assert [] + labels == labels;
    AtMostOncePerConfirmation(cfg, labels, rid, k, k);
    ClaimedIsReal(Run(cfg, INIT, labels), labels, rid, k);
  }

  lemma FirstIsReal()
    ensures Real(INIT, [])
  {
  }

  lemma ClaimedIsReal(s: State, past: seq<Label>, rid: nat, k: nat)
    requires Real(s, past) && CallsFor(s.trace, k, rid) && ByTheClaimant(s, k, rid)
    ensures rid in s.table && s.table[rid].id == rid && Consented(past, s.table[rid])
  {
    hide Consented, RepliesAreReal;
  }
}
