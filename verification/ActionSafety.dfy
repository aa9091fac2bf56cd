/** Safety of the action machine over every run: complete mediation and at-most-once consumption. */
module ActionSafety {
  import opened Actions
  import opened Confirmations
  import opened IntentSnapshot
  import opened ActionProtocol

  // ---- Evidence in a trace ----

  ghost predicate SimulationPassed(trace: seq<Event>, aid: nat, i: Intent, asks: bool) {
    exists k :: 0 <= k < |trace| && trace[k].SimulationSaid? && trace[k].aid == aid && trace[k].intent == i
                && !trace[k].sim.SimBlocks? && (trace[k].sim.SimAsks? <==> asks)
  }

  /** Every composed gate said allow. */
  ghost predicate GatesAllowed(trace: seq<Event>, aid: nat, i: Intent) {
    exists k :: 0 <= k < |trace| && trace[k].GatesSaid? && trace[k].aid == aid && trace[k].intent == i
                && forall g :: 0 <= g < |trace[k].gates| ==> trace[k].gates[g].verdict.Allow?
  }

  /** The resume precheck said allow, or gave no decision and every composed gate said allow. */
  ghost predicate ResumeAllowed(trace: seq<Event>, aid: nat, i: Intent) {
    exists k :: 0 <= k < |trace| && trace[k].ResumeDecided? && trace[k].aid == aid && trace[k].intent == i
                && (match trace[k].precheck
                    case Some(d) => d.verdict.Allow?
                    case None => forall g :: 0 <= g < |trace[k].gates| ==> trace[k].gates[g].verdict.Allow?)
  }

  ghost predicate Permitted(trace: seq<Event>, aid: nat, i: Intent, asked: Asked) {
    PermissionSaid(aid, i, asked, Granted) in trace
  }

  ghost predicate SubmitEvidence(trace: seq<Event>, aid: nat, i: Intent) {
    SimulationPassed(trace, aid, i, false) && GatesAllowed(trace, aid, i) && Permitted(trace, aid, i, ExecuteAction)
  }

  ghost predicate ResumeEvidence(trace: seq<Event>, aid: nat, i: Intent) {
    ResumeAllowed(trace, aid, i) && Permitted(trace, aid, i, ConfirmAction) && Permitted(trace, aid, i, ExecuteAction)
  }

  /** What must lie in the past of a backend call. */
  ghost predicate Mediated(cfg: Config, past: seq<Event>, e: Event)
    requires e.BackendCalled?
  {
    match e.cid
    case None => SubmitEvidence(past, e.aid, e.intent) && (cfg.motor(e.exec) ==> Queued(e.exec, e.aid, e.intent) in past)
    case Some(rid) => ResumeEvidence(past, e.aid, e.intent) && ClaimWon(e.aid, rid) in past
  }

  ghost predicate Extends(past: seq<Event>, now: seq<Event>) {
    past <= now
  }

  lemma SimulationKept(past: seq<Event>, now: seq<Event>, aid: nat, i: Intent, asks: bool)
    requires Extends(past, now) && SimulationPassed(past, aid, i, asks)
    ensures SimulationPassed(now, aid, i, asks)
  {
    var k :| 0 <= k < |past| && past[k].SimulationSaid? && past[k].aid == aid && past[k].intent == i
             && !past[k].sim.SimBlocks? && (past[k].sim.SimAsks? <==> asks);
    assert now[k] == past[k];
  }

  lemma GatesKept(past: seq<Event>, now: seq<Event>, aid: nat, i: Intent)
    requires Extends(past, now) && GatesAllowed(past, aid, i)
    ensures GatesAllowed(now, aid, i)
  {
    var k :| 0 <= k < |past| && past[k].GatesSaid? && past[k].aid == aid && past[k].intent == i
             && forall g :: 0 <= g < |past[k].gates| ==> past[k].gates[g].verdict.Allow?;
    assert now[k] == past[k];
  }

  lemma ResumeKept(past: seq<Event>, now: seq<Event>, aid: nat, i: Intent)
    requires Extends(past, now) && ResumeAllowed(past, aid, i)
    ensures ResumeAllowed(now, aid, i)
  {
    var k :| 0 <= k < |past| && past[k].ResumeDecided? && past[k].aid == aid && past[k].intent == i
             && (match past[k].precheck
                 case Some(d) => d.verdict.Allow?
                 case None => forall g :: 0 <= g < |past[k].gates| ==> past[k].gates[g].verdict.Allow?);
    assert now[k] == past[k];
  }

  lemma EventKept(past: seq<Event>, now: seq<Event>, e: Event)
    requires Extends(past, now) && e in past
    ensures e in now
  {
    var k :| 0 <= k < |past| && past[k] == e;
    assert now[k] == e;
  }

  lemma EvidenceKept(past: seq<Event>, now: seq<Event>, aid: nat, i: Intent, asks: bool, asked: Asked, e: Event)
    requires Extends(past, now)
    ensures SimulationPassed(past, aid, i, asks) ==> SimulationPassed(now, aid, i, asks)
    ensures GatesAllowed(past, aid, i) ==> GatesAllowed(now, aid, i)
    ensures ResumeAllowed(past, aid, i) ==> ResumeAllowed(now, aid, i)
    ensures Permitted(past, aid, i, asked) ==> Permitted(now, aid, i, asked)
    ensures e in past ==> e in now
  {
    hide SimulationPassed, GatesAllowed, ResumeAllowed;
    if SimulationPassed(past, aid, i, asks) { SimulationKept(past, now, aid, i, asks); }
    if GatesAllowed(past, aid, i) { GatesKept(past, now, aid, i); }
    if ResumeAllowed(past, aid, i) { ResumeKept(past, now, aid, i); }
    if Permitted(past, aid, i, asked) { EventKept(past, now, PermissionSaid(aid, i, asked, Granted)); }
    if e in past { EventKept(past, now, e); }
  }

  // ---- The invariant ----

  /** The confirmation a resumption works on, and the intent it was rebuilt to. */
  ghost predicate Concerns(cfg: Config, t: Table, rid: nat, i: Intent) {
    rid in t && t[rid].kind == ActionConfirmation && Rebuild(cfg.policy, t[rid].snapshot) == Some(i)
  }

  ghost predicate PointOk(cfg: Config, t: Table, trace: seq<Event>, aid: nat, exec: nat, point: Point) {
    match point
    case Gating(i, asks) => SimulationPassed(trace, aid, i, asks)
    case Permitting(i) => SimulationPassed(trace, aid, i, false) && GatesAllowed(trace, aid, i)
    case Enqueuing(i) => SubmitEvidence(trace, aid, i) && cfg.motor(exec)
    case Calling(i, cid) => (
      match cid
      case None => SubmitEvidence(trace, aid, i) && (cfg.motor(exec) ==> Queued(exec, aid, i) in trace)
      case Some(rid) => ResumeEvidence(trace, aid, i) && ClaimWon(aid, rid) in trace && Concerns(cfg, t, rid, i))
    case Replying(rid, _, _) => rid in t && t[rid].kind == ActionConfirmation
    case Rereading(rid, _) => rid in t && t[rid].kind == ActionConfirmation
    case Holding(rid, _, c) => rid in t && c.kind == ActionConfirmation && Evolves(c, t[rid])
    case Deciding(rid, _, i) => Concerns(cfg, t, rid, i)
    case Confirming(rid, _, i) => Concerns(cfg, t, rid, i) && ResumeAllowed(trace, aid, i)
    case Executing(rid, _, i) => Concerns(cfg, t, rid, i) && ResumeAllowed(trace, aid, i) && Permitted(trace, aid, i, ConfirmAction)
    case Claiming(rid, _, i) => Concerns(cfg, t, rid, i) && ResumeEvidence(trace, aid, i)
    case _ => true
  }

  ghost predicate ProcOk(cfg: Config, s: State, aid: nat)
    requires aid in s.procs
  {
    aid in s.used && PointOk(cfg, s.table, s.trace, aid, s.procs[aid].exec, s.procs[aid].point)
  }

  ghost predicate ProcsOk(cfg: Config, s: State) {
    forall a :: a in s.procs ==> ProcOk(cfg, s, a)
  }

  ghost predicate TicketOk(cfg: Config, s: State, t: Ticket) {
    t.aid in s.used && t.aid !in s.procs && SubmitEvidence(s.trace, t.aid, t.intent)
    && Queued(t.exec, t.aid, t.intent) in s.trace
  }

  ghost predicate QueueOk(cfg: Config, s: State) {
    && (forall i :: 0 <= i < |s.queue| ==> TicketOk(cfg, s, s.queue[i]))
    && (forall i, j :: 0 <= i < j < |s.queue| ==> s.queue[i].aid != s.queue[j].aid)
  }

  ghost predicate NotQueued(s: State, aid: nat) {
    forall i :: 0 <= i < |s.queue| ==> s.queue[i].aid != aid
  }

  /** A process that called the backend has nothing left to call it with. */
  ghost predicate Spent(s: State, aid: nat) {
    aid in s.used && NotQueued(s, aid) && (aid in s.procs ==> s.procs[aid].point.Called?)
  }

  ghost predicate CallOk(cfg: Config, s: State, k: nat)
    requires k < |s.trace| && s.trace[k].BackendCalled?
  {
    var e := s.trace[k];
    Mediated(cfg, s.trace[..k], e) && Spent(s, e.aid) && (e.cid.Some? ==> Concerns(cfg, s.table, e.cid.value, e.intent))
  }

  ghost predicate ClaimOk(s: State, e: Event)
    requires e.ClaimWon?
  {
    e.rid in s.table && s.table[e.rid].consumedAt.Some?
  }

  ghost predicate TraceOk(cfg: Config, s: State) {
    && (forall k :: 0 <= k < |s.trace| && s.trace[k].BackendCalled? ==> CallOk(cfg, s, k))
    && (forall k :: 0 <= k < |s.trace| && s.trace[k].ClaimWon? ==> ClaimOk(s, s.trace[k]))
    && (forall k, l :: 0 <= k < l < |s.trace| && s.trace[k].BackendCalled? && s.trace[l].BackendCalled? ==>
          s.trace[k].aid != s.trace[l].aid)
    && (forall k, l :: 0 <= k < l < |s.trace| && s.trace[k].ClaimWon? && s.trace[l].ClaimWon? ==>
          s.trace[k].rid != s.trace[l].rid)
  }

  ghost predicate Inv(cfg: Config, s: State) {
    ProcsOk(cfg, s) && QueueOk(cfg, s) && TraceOk(cfg, s) && Linked(s.table)
  }

  // ---- Preservation ----

  ghost predicate Advances(s: State, u: State) {
    Extends(s.trace, u.trace) && TableEvolves(s.table, u.table) && s.used <= u.used
  }

  lemma PointKept(cfg: Config, s: State, u: State, aid: nat, exec: nat, point: Point)
    requires PointOk(cfg, s.table, s.trace, aid, exec, point) && Advances(s, u)
    ensures PointOk(cfg, u.table, u.trace, aid, exec, point)
  {
    hide SimulationPassed, GatesAllowed, ResumeAllowed, Permitted;
    match point
    case Gating(i, asks) => EvidenceKept(s.trace, u.trace, aid, i, asks, ExecuteAction, ClaimWon(0, 0));
    case Permitting(i) => EvidenceKept(s.trace, u.trace, aid, i, false, ExecuteAction, ClaimWon(0, 0));
    case Enqueuing(i) => EvidenceKept(s.trace, u.trace, aid, i, false, ExecuteAction, ClaimWon(0, 0));
    case Calling(i, cid) =>
      EvidenceKept(s.trace, u.trace, aid, i, false, ExecuteAction, Queued(exec, aid, i));
      if cid.Some? {
        EvidenceKept(s.trace, u.trace, aid, i, false, ConfirmAction, ClaimWon(aid, cid.value));
      }
    case Holding(rid, _, c) => EvolvesTransitive(c, s.table[rid], u.table[rid]);
    case Confirming(_, _, i) => EvidenceKept(s.trace, u.trace, aid, i, false, ConfirmAction, ClaimWon(0, 0));
    case Executing(_, _, i) => EvidenceKept(s.trace, u.trace, aid, i, false, ConfirmAction, ClaimWon(0, 0));
    case Claiming(_, _, i) =>
      EvidenceKept(s.trace, u.trace, aid, i, false, ConfirmAction, ClaimWon(0, 0));
      EvidenceKept(s.trace, u.trace, aid, i, false, ExecuteAction, ClaimWon(0, 0));
    case _ =>
  }

  /** Processes other than `aid` are as they were. */
  ghost predicate OnlyMoves(s: State, u: State, aid: nat) {
    forall a :: a in u.procs && a != aid ==> a in s.procs && u.procs[a] == s.procs[a]
  }

  lemma ProcsKept(cfg: Config, s: State, u: State, aid: nat)
    requires ProcsOk(cfg, s) && Advances(s, u) && OnlyMoves(s, u, aid)
    requires aid in u.procs ==> ProcOk(cfg, u, aid)
    ensures ProcsOk(cfg, u)
  {
    forall a | a in u.procs && a != aid ensures ProcOk(cfg, u, a) {
      assert ProcOk(cfg, s, a);
      PointKept(cfg, s, u, a, s.procs[a].exec, s.procs[a].point);
    }
  }

  lemma TicketKept(cfg: Config, s: State, u: State, t: Ticket)
    requires TicketOk(cfg, s, t) && Advances(s, u) && t.aid !in u.procs
    ensures TicketOk(cfg, u, t)
  {
    EvidenceKept(s.trace, u.trace, t.aid, t.intent, false, ExecuteAction, Queued(t.exec, t.aid, t.intent));
  }

  lemma QueueKept(cfg: Config, s: State, u: State)
    requires QueueOk(cfg, s) && Advances(s, u) && u.queue == s.queue
    requires forall i :: 0 <= i < |s.queue| ==> s.queue[i].aid !in u.procs
    ensures QueueOk(cfg, u)
  {
    forall i | 0 <= i < |u.queue| ensures TicketOk(cfg, u, u.queue[i]) {
      TicketKept(cfg, s, u, s.queue[i]);
    }
  }

  lemma MediatedKept(cfg: Config, s: State, u: State, k: nat)
    requires k < |s.trace| && s.trace[k].BackendCalled? && CallOk(cfg, s, k) && Advances(s, u)
    requires Spent(u, s.trace[k].aid)
    ensures u.trace[k] == s.trace[k] && CallOk(cfg, u, k)
  {
    assert u.trace[..k] == s.trace[..k];
  }

  lemma QueueStill(cfg: Config, s: State, u: State)
    requires QueueOk(cfg, s) && Advances(s, u) && u.queue == s.queue && u.procs.Keys <= s.procs.Keys
    ensures QueueOk(cfg, u)
  {
    forall i | 0 <= i < |s.queue| ensures s.queue[i].aid !in u.procs {
      assert TicketOk(cfg, s, s.queue[i]);
    }
    QueueKept(cfg, s, u);
  }

  /** Appending nothing, or an event that is neither a call nor a claim. */
  lemma TraceKept(cfg: Config, s: State, u: State)
    requires TraceOk(cfg, s) && Advances(s, u)
    requires forall k :: |s.trace| <= k < |u.trace| ==> !u.trace[k].BackendCalled? && !u.trace[k].ClaimWon?
    requires forall a :: Spent(s, a) ==> Spent(u, a)
    ensures TraceOk(cfg, u)
  {
    assert forall k :: 0 <= k < |s.trace| ==> u.trace[k] == s.trace[k];
    forall k | 0 <= k < |u.trace| && u.trace[k].BackendCalled? ensures CallOk(cfg, u, k) {
      MediatedKept(cfg, s, u, k);
    }
    forall k | 0 <= k < |u.trace| && u.trace[k].ClaimWon? ensures ClaimOk(u, u.trace[k]) {
      assert ClaimOk(s, s.trace[k]);
    }
  }

  /** Neither a call nor a claim is added. */
  ghost predicate Quiet(past: seq<Event>, now: seq<Event>) {
    Extends(past, now) && forall k :: |past| <= k < |now| ==> !now[k].BackendCalled? && !now[k].ClaimWon?
  }

  /** The shape of almost every step: at most one process changes, and at most one quiet event is added. */
  lemma QuietStep(cfg: Config, s: State, u: State, aid: nat)
    requires Inv(cfg, s) && Advances(s, u) && OnlyMoves(s, u, aid) && u.queue == s.queue && Linked(u.table)
    requires aid in u.procs ==> ProcOk(cfg, u, aid) && NotQueued(s, aid)
    requires aid in u.procs ==> aid !in s.used || (aid in s.procs && !s.procs[aid].point.Called?)
    requires Quiet(s.trace, u.trace)
    ensures Inv(cfg, u)
  {
    ProcsKept(cfg, s, u, aid);
    forall i | 0 <= i < |s.queue| ensures s.queue[i].aid !in u.procs {
      assert TicketOk(cfg, s, s.queue[i]);
    }
    QueueKept(cfg, s, u);
    forall a | Spent(s, a) ensures Spent(u, a) {
    }
    TraceKept(cfg, s, u);
  }

  lemma ProcAt(cfg: Config, s: State, aid: nat)
    requires Inv(cfg, s) && aid in s.procs
    ensures ProcOk(cfg, s, aid) && NotQueued(s, aid)
    ensures !s.procs[aid].point.Called? ==> !Spent(s, aid)
  {
    forall i | 0 <= i < |s.queue| ensures s.queue[i].aid != aid {
      assert TicketOk(cfg, s, s.queue[i]);
    }
  }

  /** A process moves on. */
  lemma GotoKeeps(cfg: Config, s: State, aid: nat, t: Table, trace: seq<Event>, point: Point)
    requires Inv(cfg, s) && aid in s.procs && !s.procs[aid].point.Called?
    requires TableEvolves(s.table, t) && Linked(t) && Quiet(s.trace, trace)
    requires PointOk(cfg, t, trace, aid, s.procs[aid].exec, point)
    ensures Inv(cfg, Goto(s.(table := t, trace := trace), aid, point))
  {
    ProcAt(cfg, s, aid);
    QuietStep(cfg, s, Goto(s.(table := t, trace := trace), aid, point), aid);
  }

  /** A process ends. */
  lemma FinishKeeps(cfg: Config, s: State, aid: nat, t: Table, trace: seq<Event>)
    requires Inv(cfg, s)
    requires TableEvolves(s.table, t) && Linked(t) && Quiet(s.trace, trace)
    ensures Inv(cfg, Finish(s.(table := t, trace := trace), aid))
  {
    QuietStep(cfg, s, Finish(s.(table := t, trace := trace), aid), aid);
  }

  lemma SameTable(cfg: Config, s: State)
    requires Inv(cfg, s)
    ensures TableEvolves(s.table, s.table) && Linked(s.table) && Quiet(s.trace, s.trace)
  {
  }

  lemma SpawnKeeps(cfg: Config, s: State, aid: nat, exec: nat, point: Point)
    requires Inv(cfg, s) && (point.Submitted? || point.Resuming?)
    ensures Inv(cfg, Spawn(s, aid, exec, point))
  {
    if aid !in s.used {
      SameTable(cfg, s);
      forall i | 0 <= i < |s.queue| ensures s.queue[i].aid != aid {
        assert TicketOk(cfg, s, s.queue[i]);
      }
      QuietStep(cfg, s, Spawn(s, aid, exec, point), aid);
    }
  }

  /** The process's own record, apart from the rest of the invariant. */
  lemma OnlyProc(cfg: Config, s: State, aid: nat)
    requires Inv(cfg, s) && aid in s.procs
    ensures PointOk(cfg, s.table, s.trace, aid, s.procs[aid].exec, s.procs[aid].point)
  {
    ProcAt(cfg, s, aid);
  }

  lemma CheckKeeps(cfg: Config, s: State, aid: nat)
    requires Inv(cfg, s) && aid in s.procs
    ensures Inv(cfg, StepCheck(cfg, s, aid))
  {
    SameTable(cfg, s);
    OnlyProc(cfg, s, aid);
    hide Inv, SimulationPassed, GatesAllowed, ResumeAllowed, Permitted, Concerns;
    FinishKeeps(cfg, s, aid, s.table, s.trace);
    match s.procs[aid].point
    case Submitted(intent) => GotoKeeps(cfg, s, aid, s.table, s.trace, Simulating(intent));
    case Holding(rid, now, c) =>
      var r := Rebuild(cfg.policy, c.snapshot);
      if r.Some? {
        GotoKeeps(cfg, s, aid, s.table, s.trace, Deciding(rid, now, r.value));
      }
    case _ =>
  }

  lemma Said(trace: seq<Event>, e: Event)
    requires !e.BackendCalled? && !e.ClaimWon?
    ensures Quiet(trace, trace + [e]) && e in trace + [e] && (trace + [e])[|trace|] == e
  {
  }

  lemma SimulateKeeps(cfg: Config, s: State, aid: nat, sim: Simulation)
    requires Inv(cfg, s) && aid in s.procs
    ensures Inv(cfg, StepSimulate(s, aid, sim))
  {
    SameTable(cfg, s);
    hide Inv;
    if s.procs[aid].point.Simulating? {
      var i := Traced(s.procs[aid].point.intent, sim);
      var e := SimulationSaid(aid, i, sim);
      Said(s.trace, e);
      if sim.SimBlocks? {
        FinishKeeps(cfg, s, aid, s.table, s.trace + [e]);
      } else {
        assert SimulationPassed(s.trace + [e], aid, i, sim.SimAsks?);
        GotoKeeps(cfg, s, aid, s.table, s.trace + [e], Gating(i, sim.SimAsks?));
      }
    }
  }

  lemma GatesJustAllowed(trace: seq<Event>, aid: nat, i: Intent, gates: seq<Decision>)
    requires Composite(gates).verdict.Allow?
    ensures GatesAllowed(trace + [GatesSaid(aid, i, gates)], aid, i)
  {
    Said(trace, GatesSaid(aid, i, gates));
  }

  lemma ResumeJustAllowed(trace: seq<Event>, aid: nat, i: Intent, precheck: Option<Decision>, gates: seq<Decision>)
    requires ResumeVerdict(precheck, gates) == Allow
    ensures ResumeAllowed(trace + [ResumeDecided(aid, i, precheck, gates)], aid, i)
  {
    Said(trace, ResumeDecided(aid, i, precheck, gates));
  }

  lemma GateKeeps(cfg: Config, s: State, aid: nat, gates: seq<Decision>)
    requires Inv(cfg, s) && aid in s.procs
    ensures Inv(cfg, StepGate(s, aid, gates))
  {
    SameTable(cfg, s);
    OnlyProc(cfg, s, aid);
    hide Inv;
    var point := s.procs[aid].point;
    if point.Gating? {
      var i, e := point.intent, GatesSaid(aid, point.intent, gates);
      Said(s.trace, e);
      FinishKeeps(cfg, s, aid, s.table, s.trace + [e]);
      GotoKeeps(cfg, s, aid, s.table, s.trace + [e], Asking(i));
      if Composite(gates).verdict.Allow? && !point.asks {
        GatesJustAllowed(s.trace, aid, i, gates);
        EvidenceKept(s.trace, s.trace + [e], aid, i, false, ExecuteAction, e);
        GotoKeeps(cfg, s, aid, s.table, s.trace + [e], Permitting(i));
      }
    }
  }

  lemma PermittingReady(cfg: Config, s: State, aid: nat, i: Intent)
    requires aid in s.procs && PointOk(cfg, s.table, s.trace, aid, s.procs[aid].exec, Permitting(i))
    ensures ReadyFor(cfg, s, aid, i, ExecuteAction, if cfg.motor(s.procs[aid].exec) then Enqueuing(i) else Calling(i, None))
  {
    hide SimulationPassed, GatesAllowed, ResumeAllowed, Permitted, Concerns;
  }

  lemma PermittingKeeps(cfg: Config, s: State, aid: nat, i: Intent, permission: Permission)
    requires Inv(cfg, s) && aid in s.procs && s.procs[aid].point == Permitting(i)
    ensures Inv(cfg, AfterPermission(s, aid, i, ExecuteAction, permission,
                                     if cfg.motor(s.procs[aid].exec) then Enqueuing(i) else Calling(i, None)))
  {
    OnlyProc(cfg, s, aid);
    hide Inv, PointOk, ReadyFor, AfterPermission;
    PermittingReady(cfg, s, aid, i);
    PermissionGiven(cfg, s, aid, i, ExecuteAction, permission, if cfg.motor(s.procs[aid].exec) then Enqueuing(i) else Calling(i, None));
  }

  lemma ConfirmingReady(cfg: Config, s: State, aid: nat, rid: nat, now: int, i: Intent)
    requires aid in s.procs && PointOk(cfg, s.table, s.trace, aid, s.procs[aid].exec, Confirming(rid, now, i))
    ensures ReadyFor(cfg, s, aid, i, ConfirmAction, Executing(rid, now, i))
  {
    hide SimulationPassed, GatesAllowed, ResumeAllowed, Permitted, Concerns;
  }

  lemma ConfirmingKeeps(cfg: Config, s: State, aid: nat, rid: nat, now: int, i: Intent, permission: Permission)
    requires Inv(cfg, s) && aid in s.procs && s.procs[aid].point == Confirming(rid, now, i)
    ensures Inv(cfg, AfterPermission(s, aid, i, ConfirmAction, permission, Executing(rid, now, i)))
  {
    OnlyProc(cfg, s, aid);
    hide Inv, PointOk, ReadyFor, AfterPermission;
    ConfirmingReady(cfg, s, aid, rid, now, i);
    PermissionGiven(cfg, s, aid, i, ConfirmAction, permission, Executing(rid, now, i));
  }

  lemma ExecutingReady(cfg: Config, s: State, aid: nat, rid: nat, now: int, i: Intent)
    requires aid in s.procs && PointOk(cfg, s.table, s.trace, aid, s.procs[aid].exec, Executing(rid, now, i))
    ensures ReadyFor(cfg, s, aid, i, ExecuteAction, Claiming(rid, now, i))
  {
    hide SimulationPassed, GatesAllowed, ResumeAllowed, Permitted, Concerns;
  }

  lemma ExecutingKeeps(cfg: Config, s: State, aid: nat, rid: nat, now: int, i: Intent, permission: Permission)
    requires Inv(cfg, s) && aid in s.procs && s.procs[aid].point == Executing(rid, now, i)
    ensures Inv(cfg, AfterPermission(s, aid, i, ExecuteAction, permission, Claiming(rid, now, i)))
  {
    OnlyProc(cfg, s, aid);
    hide Inv, PointOk, ReadyFor, AfterPermission;
    ExecutingReady(cfg, s, aid, rid, now, i);
    PermissionGiven(cfg, s, aid, i, ExecuteAction, permission, Claiming(rid, now, i));
  }

  lemma PermitKeeps(cfg: Config, s: State, aid: nat, permission: Permission)
    requires Inv(cfg, s) && aid in s.procs
    ensures Inv(cfg, StepPermit(cfg, s, aid, permission))
  {
    hide Inv, AfterPermission;
    match s.procs[aid].point {
      case Permitting(i) => PermittingKeeps(cfg, s, aid, i, permission);
      case Asking(i) => PermissionGiven(cfg, s, aid, i, ConfirmAction, permission, Creating(i));
      case Confirming(rid, now, i) => ConfirmingKeeps(cfg, s, aid, rid, now, i, permission);
      case Executing(rid, now, i) => ExecutingKeeps(cfg, s, aid, rid, now, i, permission);
      case _ =>
    }
  }

  /** What the process needs for its next point once the permission is on record. */
  ghost predicate ReadyFor(cfg: Config, s: State, aid: nat, i: Intent, asked: Asked, next: Point)
    requires aid in s.procs
  {
    match next
    case Enqueuing(j) => j == i && asked == ExecuteAction && SimulationPassed(s.trace, aid, i, false)
                         && GatesAllowed(s.trace, aid, i) && cfg.motor(s.procs[aid].exec)
    case Calling(j, cid) => j == i && cid.None? && asked == ExecuteAction && SimulationPassed(s.trace, aid, i, false)
                            && GatesAllowed(s.trace, aid, i) && !cfg.motor(s.procs[aid].exec)
    case Creating(j) => true
    case Executing(rid, _, j) => j == i && asked == ConfirmAction && Concerns(cfg, s.table, rid, i) && ResumeAllowed(s.trace, aid, i)
    case Claiming(rid, _, j) => j == i && asked == ExecuteAction && Concerns(cfg, s.table, rid, i)
                                && ResumeAllowed(s.trace, aid, i) && Permitted(s.trace, aid, i, ConfirmAction)
    case _ => false
  }

  lemma PermissionGiven(cfg: Config, s: State, aid: nat, i: Intent, asked: Asked, permission: Permission, next: Point)
    requires Inv(cfg, s) && aid in s.procs && !s.procs[aid].point.Called?
    requires ReadyFor(cfg, s, aid, i, asked, next)
    ensures Inv(cfg, AfterPermission(s, aid, i, asked, permission, next))
  {
    SameTable(cfg, s);
    hide Inv, SimulationPassed, GatesAllowed, ResumeAllowed, Permitted, Concerns;
    var e := PermissionSaid(aid, i, asked, permission);
    Said(s.trace, e);
    if permission != Granted {
      FinishKeeps(cfg, s, aid, s.table, s.trace + [e]);
    } else {
      EvidenceKept(s.trace, s.trace + [e], aid, i, false, ConfirmAction, e);
      GotoKeeps(cfg, s, aid, s.table, s.trace + [e], next);
    }
  }

  /** A locked section moves the table as the operation says. */
  lemma TableMoves(cfg: Config, s: State, op: Op)
    requires Inv(cfg, s) && Legal(s.table, op)
    ensures TableEvolves(s.table, Apply(s.table, op)) && Linked(Apply(s.table, op)) && Quiet(s.trace, s.trace)
  {
    StepEvolves(s.table, op);
    StepLinked(s.table, op);
  }

  lemma CreateKeeps(cfg: Config, s: State, aid: nat, newId: nat, prompt: string, reason: string, now: int, ttl: nat)
    requires Inv(cfg, s) && aid in s.procs
    ensures Inv(cfg, StepCreate(cfg, s, aid, newId, prompt, reason, now, ttl))
  {
    var point := s.procs[aid].point;
    if point.Creating? && newId !in s.table {
      var op := DoCreate(RecordFor(cfg.policy, point.intent, newId, prompt, reason, now, ttl));
      TableMoves(cfg, s, op);
      hide Inv;
      FinishKeeps(cfg, s, aid, Apply(s.table, op), s.trace);
    }
  }

  lemma ExpireFirstKeeps(cfg: Config, s: State, aid: nat)
    requires Inv(cfg, s) && aid in s.procs
    ensures Inv(cfg, StepExpireFirst(s, aid))
  {
    var point := s.procs[aid].point;
    if point.Resuming? {
      var op := DoExpire(point.rid, point.now);
      TableMoves(cfg, s, op);
      hide Inv;
      var (t, found) := ExpireIfNeeded(s.table, point.rid, point.now);
      FinishKeeps(cfg, s, aid, t, s.trace);
      if found.Some? && found.value.kind == ActionConfirmation {
        GotoKeeps(cfg, s, aid, t, s.trace, Replying(point.rid, point.reply, point.now));
        GotoKeeps(cfg, s, aid, t, s.trace, Holding(point.rid, point.now, found.value));
      }
    }
  }

  lemma AnswerKeeps(cfg: Config, s: State, aid: nat)
    requires Inv(cfg, s) && aid in s.procs
    ensures Inv(cfg, StepAnswer(s, aid))
  {
    var point := s.procs[aid].point;
    if point.Replying? {
      OnlyProc(cfg, s, aid);
      var op := DoResolve(point.rid, point.now, point.reply, None);
      TableMoves(cfg, s, op);
      hide Inv;
      var t := Apply(s.table, op);
      FinishKeeps(cfg, s, aid, t, s.trace);
      GotoKeeps(cfg, s, aid, t, s.trace, Rereading(point.rid, point.now));
    }
  }

  lemma RereadKeeps(cfg: Config, s: State, aid: nat)
    requires Inv(cfg, s) && aid in s.procs
    ensures Inv(cfg, StepReread(s, aid))
  {
    var point := s.procs[aid].point;
    if point.Rereading? {
      SameTable(cfg, s);
      OnlyProc(cfg, s, aid);
      hide Inv;
      GotoKeeps(cfg, s, aid, s.table, s.trace, Holding(point.rid, point.now, s.table[point.rid]));
    }
  }

  lemma DecideKeeps(cfg: Config, s: State, aid: nat, precheck: Option<Decision>, gates: seq<Decision>)
    requires Inv(cfg, s) && aid in s.procs
    ensures Inv(cfg, StepDecide(s, aid, precheck, gates))
  {
    var point := s.procs[aid].point;
    if point.Deciding? {
      SameTable(cfg, s);
      OnlyProc(cfg, s, aid);
      hide Inv;
      var e := ResumeDecided(aid, point.intent, precheck, gates);
      Said(s.trace, e);
      if ResumeVerdict(precheck, gates) == Allow {
        ResumeJustAllowed(s.trace, aid, point.intent, precheck, gates);
        GotoKeeps(cfg, s, aid, s.table, s.trace + [e], Confirming(point.rid, point.now, point.intent));
      } else {
        FinishKeeps(cfg, s, aid, s.table, s.trace + [e]);
      }
    }
  }

  /** The invariant is not about remembered keys. */
  lemma MemoryIsFree(cfg: Config, s: State, memory: map<nat, set<string>>, persisted: seq<string>)
    requires Inv(cfg, s)
    ensures Inv(cfg, s.(memory := memory, persisted := persisted))
  {
    var u := s.(memory := memory, persisted := persisted);
    SameTable(cfg, s);
    forall a | a in u.procs ensures ProcOk(cfg, u, a) {
      assert ProcOk(cfg, s, a);
    }
    QueueStill(cfg, s, u);
    TraceKept(cfg, s, u);
  }

  lemma RememberKeeps(cfg: Config, s: State, aid: nat, saved: bool)
    requires Inv(cfg, s) && aid in s.procs
    ensures Inv(cfg, StepRemember(s, aid, saved))
  {
    SameTable(cfg, s);
    hide Inv;
    FinishKeeps(cfg, s, aid, s.table, s.trace);
    var u := StepRemember(s, aid, saved);
    MemoryIsFree(cfg, Finish(s, aid), u.memory, u.persisted);
  }

  lemma OtherKeeps(cfg: Config, s: State, op: Op)
    requires Inv(cfg, s) && Legal(s.table, op)
    ensures Inv(cfg, s.(table := Apply(s.table, op)))
  {
    var u := s.(table := Apply(s.table, op));
    TableMoves(cfg, s, op);
    forall a | a in u.procs ensures ProcOk(cfg, u, a) {
      assert ProcOk(cfg, s, a);
      PointKept(cfg, s, u, a, s.procs[a].exec, s.procs[a].point);
    }
    QueueStill(cfg, s, u);
    TraceKept(cfg, s, u);
  }

  lemma CrashKeeps(cfg: Config, s: State, aid: nat)
    requires Inv(cfg, s)
    ensures Inv(cfg, Finish(s, aid))
  {
    SameTable(cfg, s);
    FinishKeeps(cfg, s, aid, s.table, s.trace);
  }

  lemma EnqueueKeeps(cfg: Config, s: State, aid: nat)
    requires Inv(cfg, s) && aid in s.procs
    ensures Inv(cfg, StepEnqueue(s, aid))
  {
    hide SimulationPassed, GatesAllowed, ResumeAllowed, Permitted, Concerns;
    if s.procs[aid].point.Enqueuing? {
      ProcAt(cfg, s, aid);
      SameTable(cfg, s);
      var t := Ticket(s.procs[aid].exec, aid, s.procs[aid].point.intent);
      var u := StepEnqueue(s, aid);
      Said(s.trace, Queued(t.exec, aid, t.intent));
      EvidenceKept(s.trace, u.trace, aid, t.intent, false, ExecuteAction, ClaimWon(0, 0));
      ProcsKept(cfg, s, u, aid);
      QueueExtended(cfg, s, u, t);
      forall a | Spent(s, a) ensures Spent(u, a) {
        assert a != aid;
      }
      TraceKept(cfg, s, u);
    }
  }

  lemma QueueExtended(cfg: Config, s: State, u: State, t: Ticket)
    requires QueueOk(cfg, s) && Advances(s, u) && u.queue == s.queue + [t] && u.procs.Keys <= s.procs.Keys
    requires TicketOk(cfg, u, t) && NotQueued(s, t.aid)
    ensures QueueOk(cfg, u)
  {
    forall k | 0 <= k < |u.queue| ensures TicketOk(cfg, u, u.queue[k]) {
      if k < |s.queue| {
        TicketKept(cfg, s, u, s.queue[k]);
      }
    }
  }

  lemma DispatchKeeps(cfg: Config, s: State, k: nat)
    requires Inv(cfg, s)
    ensures Inv(cfg, StepDispatch(s, k))
  {
    hide SimulationPassed, GatesAllowed, ResumeAllowed, Permitted, Concerns;
    if k < |s.queue| {
      SameTable(cfg, s);
      var u, t := StepDispatch(s, k), s.queue[k];
      assert TicketOk(cfg, s, t);
      assert forall i :: 0 <= i < |u.queue| ==> u.queue[i] == s.queue[if i < k then i else i + 1];
      ProcsKept(cfg, s, u, t.aid);
      forall i | 0 <= i < |u.queue| ensures TicketOk(cfg, u, u.queue[i]) {
        var j := if i < k then i else i + 1;
        assert s.queue[j].aid != t.aid;
        TicketKept(cfg, s, u, s.queue[j]);
      }
      forall a | Spent(s, a) ensures Spent(u, a) {
        assert a != t.aid;
      }
      TraceKept(cfg, s, u);
    }
  }

  ghost predicate DistinctTickets(q: seq<Ticket>) {
    forall i, j :: 0 <= i < j < |q| ==> q[i].aid != q[j].aid
  }

  lemma {:induction false} KeepDistinct(q: seq<Ticket>, exec: nat)
    requires DistinctTickets(q)
    ensures DistinctTickets(Keep(q, exec))
  {
    if q != [] {
      var rest := q[1..];
      assert forall i :: 0 <= i < |rest| ==> rest[i] == q[i + 1];
      KeepDistinct(rest, exec);
      var tail := Keep(rest, exec);
      forall j | 0 <= j < |tail| ensures tail[j].aid != q[0].aid {
        assert tail[j] in tail;
        var i :| 0 <= i < |rest| && rest[i] == tail[j];
      }
      var r := Keep(q, exec);
      if q[0].exec == exec {
        assert r == [] + tail == tail;
      } else {
        assert r == [q[0]] + tail;
        assert forall j :: 0 < j < |r| ==> r[j] == tail[j - 1];
      }
    }
  }

  lemma KeepFrom(q: seq<Ticket>, exec: nat, i: nat)
    requires i < |Keep(q, exec)|
    ensures exists j :: 0 <= j < |q| && q[j] == Keep(q, exec)[i]
  {
    assert Keep(q, exec)[i] in Keep(q, exec);
  }

  lemma RestartQueue(cfg: Config, s: State, u: State, exec: nat)
    requires QueueOk(cfg, s) && Advances(s, u) && u.queue == Keep(s.queue, exec) && u.procs.Keys <= s.procs.Keys
    ensures QueueOk(cfg, u)
    ensures forall a :: NotQueued(s, a) ==> NotQueued(u, a)
  {
    KeepDistinct(s.queue, exec);
    forall i | 0 <= i < |u.queue|
      ensures TicketOk(cfg, u, u.queue[i]) && exists j :: 0 <= j < |s.queue| && s.queue[j] == u.queue[i]
    {
      KeepFrom(s.queue, exec, i);
      TicketKept(cfg, s, u, u.queue[i]);
    }
  }

  lemma RestartKeeps(cfg: Config, s: State, exec: nat)
    requires Inv(cfg, s)
    ensures Inv(cfg, StepRestart(cfg, s, exec))
  {
    SameTable(cfg, s);
    var u := StepRestart(cfg, s, exec);
    RestartQueue(cfg, s, u, exec);
    forall a | a in u.procs ensures ProcOk(cfg, u, a) {
      assert ProcOk(cfg, s, a);
      PointKept(cfg, s, u, a, s.procs[a].exec, s.procs[a].point);
    }
    TraceKept(cfg, s, u);
  }

  /** The one step that enters the backend. */
  lemma CallKeeps(cfg: Config, s: State, aid: nat, success: bool)
    requires Inv(cfg, s) && aid in s.procs
    ensures Inv(cfg, StepCall(s, aid, success))
  {
    hide SimulationPassed, GatesAllowed, ResumeAllowed, Permitted, Concerns;
    var point := s.procs[aid].point;
    if point.Calling? {
      SameTable(cfg, s);
      ProcAt(cfg, s, aid);
      var u := StepCall(s, aid, success);
      var e := BackendCalled(s.procs[aid].exec, aid, point.intent, point.cid, success);
      assert Mediated(cfg, s.trace, e) && (e.cid.Some? ==> Concerns(cfg, u.table, e.cid.value, e.intent));
      ProcsKept(cfg, s, u, aid);
      QueueStill(cfg, s, u);
      CallTrace(cfg, s, u, e);
    }
  }

  lemma CallTrace(cfg: Config, s: State, u: State, e: Event)
    requires TraceOk(cfg, s) && Advances(s, u) && e.BackendCalled? && u.trace == s.trace + [e]
    requires forall a :: Spent(s, a) ==> Spent(u, a)
    requires !Spent(s, e.aid) && Spent(u, e.aid)
    requires Mediated(cfg, s.trace, e) && (e.cid.Some? ==> Concerns(cfg, u.table, e.cid.value, e.intent))
    ensures TraceOk(cfg, u)
  {
    assert forall k :: 0 <= k < |s.trace| ==> u.trace[k] == s.trace[k];
    forall k | 0 <= k < |u.trace| && u.trace[k].BackendCalled?
      ensures CallOk(cfg, u, k) && (k < |s.trace| ==> u.trace[k].aid != e.aid)
    {
      if k < |s.trace| {
        assert CallOk(cfg, s, k);
        MediatedKept(cfg, s, u, k);
      } else {
        assert u.trace[..k] == s.trace;
      }
    }
    forall k | 0 <= k < |u.trace| && u.trace[k].ClaimWon? ensures ClaimOk(u, u.trace[k]) {
      assert ClaimOk(s, s.trace[k]);
    }
  }

  /** The linearization point: a claim is won at most once per confirmation. */
  lemma ClaimKeeps(cfg: Config, s: State, aid: nat)
    requires Inv(cfg, s) && aid in s.procs
    ensures Inv(cfg, StepClaim(s, aid))
  {
    var point := s.procs[aid].point;
    if point.Claiming? {
      TableMoves(cfg, s, DoClaim(point.rid, point.now, {ActionConfirmation}));
      hide Inv;
      var (t, won) := Claim(s.table, point.rid, point.now, {ActionConfirmation});
      if won.None? {
        FinishKeeps(cfg, s, aid, t, s.trace);
      } else {
        ClaimWonKeeps(cfg, s, aid, t, point.intent, point.rid, point.now);
      }
    }
  }

  lemma ClaimantReady(cfg: Config, s: State, u: State, aid: nat, i: Intent, rid: nat, now: int)
    requires aid in s.procs && PointOk(cfg, s.table, s.trace, aid, s.procs[aid].exec, Claiming(rid, now, i))
    requires s.procs[aid].point == Claiming(rid, now, i) && aid in s.used && Advances(s, u)
    requires ClaimWon(aid, rid) in u.trace && aid in u.procs && u.procs[aid] == s.procs[aid].(point := Calling(i, Some(rid)))
    ensures ProcOk(cfg, u, aid)
  {
    hide SimulationPassed, GatesAllowed, ResumeAllowed, Permitted, Concerns;
    PointKept(cfg, s, u, aid, s.procs[aid].exec, s.procs[aid].point);
  }

  lemma ClaimWonKeeps(cfg: Config, s: State, aid: nat, t: Table, i: Intent, rid: nat, now: int)
    requires Inv(cfg, s) && aid in s.procs && s.procs[aid].point == Claiming(rid, now, i)
    requires TableEvolves(s.table, t) && Linked(t)
    requires rid in s.table && s.table[rid].consumedAt.None? && t[rid].consumedAt.Some?
    ensures Inv(cfg, Goto(Emit(s.(table := t), ClaimWon(aid, rid)), aid, Calling(i, Some(rid))))
  {
    hide SimulationPassed, GatesAllowed, ResumeAllowed, Permitted, Concerns, PointOk, Evolves, LinkOk;
    ProcAt(cfg, s, aid);
    var e := ClaimWon(aid, rid);
    var u := Goto(Emit(s.(table := t), e), aid, Calling(i, Some(rid)));
    assert e in u.trace by { assert u.trace[|s.trace|] == e; }
    ClaimantReady(cfg, s, u, aid, i, rid, now);
    hide ProcOk;
    ProcsKept(cfg, s, u, aid);
    QueueStill(cfg, s, u);
    ClaimTrace(cfg, s, u, e);
  }

  lemma ClaimTrace(cfg: Config, s: State, u: State, e: Event)
    requires TraceOk(cfg, s) && Advances(s, u) && e.ClaimWon? && u.trace == s.trace + [e]
    requires forall a :: Spent(s, a) ==> Spent(u, a)
    requires e.rid in s.table && s.table[e.rid].consumedAt.None? && u.table[e.rid].consumedAt.Some?
    ensures TraceOk(cfg, u)
  {
    assert forall k :: 0 <= k < |s.trace| ==> u.trace[k] == s.trace[k];
    forall k | 0 <= k < |u.trace| && u.trace[k].BackendCalled? ensures CallOk(cfg, u, k) {
      MediatedKept(cfg, s, u, k);
    }
    forall k | 0 <= k < |u.trace| && u.trace[k].ClaimWon?
      ensures ClaimOk(u, u.trace[k]) && (k < |s.trace| ==> u.trace[k].rid != e.rid)
    {
      if k < |s.trace| {
        assert ClaimOk(s, s.trace[k]);
      }
    }
  }

  lemma StepKeeps(cfg: Config, s: State, l: Label)
    requires Inv(cfg, s)
    ensures Inv(cfg, Step(cfg, s, l))
  {
    hide Inv;
    match l
    case Submit(aid, exec, intent) => SpawnKeeps(cfg, s, aid, exec, Submitted(intent));
    case Resume(aid, exec, rid, reply, now) => SpawnKeeps(cfg, s, aid, exec, Resuming(rid, reply, now));
    case Dispatch(k) => DispatchKeeps(cfg, s, k);
    case Restart(exec) => RestartKeeps(cfg, s, exec);
    case Other(op) =>
      if Legal(s.table, op) {
        OtherKeeps(cfg, s, op);
      }
    case _ =>
      if l.aid in s.procs {
        ProcKeeps(cfg, s, l);
      }
  }

  lemma ProcKeeps(cfg: Config, s: State, l: Label)
    requires Inv(cfg, s) && !l.Dispatch? && !l.Restart? && !l.Other? && l.aid in s.procs
    ensures Inv(cfg, StepProc(cfg, s, l))
  {
    hide Inv;
    match l
    case Check(aid) => CheckKeeps(cfg, s, aid);
    case Simulate(aid, sim) => SimulateKeeps(cfg, s, aid, sim);
    case Gate(aid, gates) => GateKeeps(cfg, s, aid, gates);
    case Permit(aid, permission) => PermitKeeps(cfg, s, aid, permission);
    case CreateRecord(aid, newId, prompt, reason, now, ttl) => CreateKeeps(cfg, s, aid, newId, prompt, reason, now, ttl);
    case Enqueue(aid) => EnqueueKeeps(cfg, s, aid);
    case Call(aid, success) => CallKeeps(cfg, s, aid, success);
    case Remember(aid, saved) => RememberKeeps(cfg, s, aid, saved);
    case ExpireFirst(aid) => ExpireFirstKeeps(cfg, s, aid);
    case Answer(aid) => AnswerKeeps(cfg, s, aid);
    case Reread(aid) => RereadKeeps(cfg, s, aid);
    case Decide(aid, precheck, gates) => DecideKeeps(cfg, s, aid, precheck, gates);
    case TakeClaim(aid) => ClaimKeeps(cfg, s, aid);
    case Crash(aid) => CrashKeeps(cfg, s, aid);
    case _ =>
  }

  lemma {:induction false} RunKeeps(cfg: Config, s: State, labels: seq<Label>)
    requires Inv(cfg, s)
    ensures Inv(cfg, Run(cfg, s, labels))
    decreases |labels|
  {
    if labels != [] {
      StepKeeps(cfg, s, labels[0]);
      RunKeeps(cfg, Step(cfg, s, labels[0]), labels[1..]);
    }
  }

  // ---- Main results ----

  /** Complete mediation: in every run of any interleaving, each backend call has behind it either a submission
      that every gate allowed, that simulation passed and that was permitted (and queued, where there is a motor
      queue), or a resumption that was allowed, permitted twice and won the claim; and what a resumption carries
      out is what its confirmation describes. */
  lemma CompleteMediation(cfg: Config, labels: seq<Label>, k: nat)
    requires k < |Run(cfg, INIT, labels).trace| && Run(cfg, INIT, labels).trace[k].BackendCalled?
    ensures var s := Run(cfg, INIT, labels);
            var e := s.trace[k];
            Mediated(cfg, s.trace[..k], e) && (e.cid.Some? ==> Concerns(cfg, s.table, e.cid.value, e.intent))
  {
    RunKeeps(cfg, INIT, labels);
    hide Run, Mediated, Concerns;
    assert CallOk(cfg, Run(cfg, INIT, labels), k);
  }

  ghost predicate CallsFor(trace: seq<Event>, k: nat, rid: nat) {
    k < |trace| && trace[k].BackendCalled? && trace[k].cid == Some(rid)
  }

  /** The backend was entered by the process that won the claim, and the claim is on record. */
  ghost predicate ByTheClaimant(s: State, k: nat, rid: nat)
    requires CallsFor(s.trace, k, rid)
  {
    ClaimWon(s.trace[k].aid, rid) in s.trace[..k] && rid in s.table && s.table[rid].consumedAt.Some?
  }

  lemma CallHasClaim(cfg: Config, s: State, rid: nat, k: nat) returns (c: nat)
    requires Inv(cfg, s) && CallsFor(s.trace, k, rid)
    ensures c < k && s.trace[c] == ClaimWon(s.trace[k].aid, rid) && ByTheClaimant(s, k, rid)
  {
    assert CallOk(cfg, s, k);
    c :| 0 <= c < k && s.trace[..k][c] == ClaimWon(s.trace[k].aid, rid);
    assert ClaimOk(s, s.trace[c]);
  }

  lemma TraceDistinct(cfg: Config, s: State, c: nat, d: nat)
    requires Inv(cfg, s) && c < |s.trace| && d < |s.trace|
    ensures s.trace[c].ClaimWon? && s.trace[d].ClaimWon? && s.trace[c].rid == s.trace[d].rid ==> c == d
    ensures s.trace[c].BackendCalled? && s.trace[d].BackendCalled? && s.trace[c].aid == s.trace[d].aid ==> c == d
  {
    hide CallOk, ClaimOk, ProcsOk, QueueOk, Linked;
  }

  lemma OnceInState(cfg: Config, s: State, rid: nat, k: nat, l: nat)
    requires Inv(cfg, s) && CallsFor(s.trace, k, rid) && CallsFor(s.trace, l, rid)
    ensures k == l && ByTheClaimant(s, k, rid)
  {
    var c := CallHasClaim(cfg, s, rid, k);
    var d := CallHasClaim(cfg, s, rid, l);
    hide Inv, ByTheClaimant;
    TraceDistinct(cfg, s, c, d);
    TraceDistinct(cfg, s, k, l);
  }

  /** At most once: the backend is entered on behalf of a confirmation at most once, by the one process whose
      claim set `consumed_at`. */
  lemma AtMostOncePerConfirmation(cfg: Config, labels: seq<Label>, rid: nat, k: nat, l: nat)
    requires CallsFor(Run(cfg, INIT, labels).trace, k, rid) && CallsFor(Run(cfg, INIT, labels).trace, l, rid)
    ensures k == l && ByTheClaimant(Run(cfg, INIT, labels), k, rid)
  {
    RunKeeps(cfg, INIT, labels);
    hide Run;
    OnceInState(cfg, Run(cfg, INIT, labels), rid, k, l);
  }

  /** No action id, submitted, resumed or dispatched from a queue, enters the backend twice. */
  lemma AtMostOncePerAction(cfg: Config, labels: seq<Label>, k: nat, l: nat)
    requires var trace := Run(cfg, INIT, labels).trace;
             && k < |trace| && trace[k].BackendCalled? && l < |trace| && trace[l].BackendCalled?
             && trace[k].aid == trace[l].aid
    ensures k == l
  {
    RunKeeps(cfg, INIT, labels);
    hide Run, Inv;
    TraceDistinct(cfg, Run(cfg, INIT, labels), k, l);
  }
}
