/** SafeActionExecutor, the confirmation store and the motor queue as one machine: any number of
    executors, each with any number of submissions, resumptions and dispatches in progress, moving
    one atomic section at a time in any order. */
module ActionProtocol {
  import opened Actions
  import opened Confirmations
  import opened IntentSnapshot

  datatype Permission = Granted | Refused | AskAdmin

  datatype Asked = ConfirmAction | ExecuteAction

  /** The outcome of the simulation precheck; a missing hook or a hook that raises is `NoSimulation`. */
  datatype Simulation = NoSimulation | SimPasses(traceId: string) | SimAsks(traceId: string) | SimBlocks(traceId: string)

  /** Where a submission, a resumption or a dispatched command stands. */
  datatype Point =
    | Submitted(intent: Intent)
    | Simulating(intent: Intent)
    | Gating(intent: Intent, asks: bool)
    | Permitting(intent: Intent)
    | Asking(intent: Intent)
    | Creating(intent: Intent)
    | Enqueuing(intent: Intent)
    | Calling(intent: Intent, cid: Option<nat>)
    | Called(intent: Intent, success: bool)
    | Resuming(rid: nat, reply: Reply, now: int)
    | Replying(rid: nat, reply: Reply, now: int)
    | Rereading(rid: nat, now: int)
    | Holding(rid: nat, now: int, copy: Confirmation)
    | Deciding(rid: nat, now: int, intent: Intent)
    | Confirming(rid: nat, now: int, intent: Intent)
    | Executing(rid: nat, now: int, intent: Intent)
    | Claiming(rid: nat, now: int, intent: Intent)

  datatype Proc = Proc(exec: nat, point: Point)

  /** A queued motor command, with the executor that owns the queue. */
  datatype Ticket = Ticket(exec: nat, aid: nat, intent: Intent)

  datatype Event =
    | SimulationSaid(aid: nat, intent: Intent, sim: Simulation)
    | GatesSaid(aid: nat, intent: Intent, gates: seq<Decision>)
    | ResumeDecided(aid: nat, intent: Intent, precheck: Option<Decision>, gates: seq<Decision>)
    | PermissionSaid(aid: nat, intent: Intent, asked: Asked, permission: Permission)
    | Queued(exec: nat, aid: nat, intent: Intent)
    | ClaimWon(aid: nat, rid: nat)
    | BackendCalled(exec: nat, aid: nat, intent: Intent, cid: Option<nat>, success: bool)

  datatype Config = Config(motor: nat -> bool, policy: Policy, maxLoaded: nat)

  datatype State = State(
    table: Table,
    memory: map<nat, set<string>>,
    persisted: seq<string>,
    queue: seq<Ticket>,
    procs: map<nat, Proc>,
    used: set<nat>,
    trace: seq<Event>)

  const INIT := State(map[], map[], [], [], map[], {}, [])

  datatype Label =
    | Submit(aid: nat, exec: nat, intent: Intent)
    | Resume(aid: nat, exec: nat, rid: nat, reply: Reply, now: int)
    | Check(aid: nat)
    | Simulate(aid: nat, sim: Simulation)
    | Gate(aid: nat, gates: seq<Decision>)
    | Permit(aid: nat, permission: Permission)
    | CreateRecord(aid: nat, newId: nat, prompt: string, reason: string, now: int, ttl: nat)
    | Enqueue(aid: nat)
    | Dispatch(position: nat)
    | Call(aid: nat, success: bool)
    | Remember(aid: nat, saved: bool)
    | ExpireFirst(aid: nat)
    | Answer(aid: nat)
    | Reread(aid: nat)
    | Decide(aid: nat, precheck: Option<Decision>, gates: seq<Decision>)
    | TakeClaim(aid: nat)
    | Crash(aid: nat)
    | Restart(exec: nat)
    | Other(op: Op)

  // ---- Steps ----

  function MemoryOf(s: State, exec: nat): set<string> {
    if exec in s.memory then s.memory[exec] else {}
  }

  /** _idempotency_already_executed */
  predicate Replayed(s: State, exec: nat, key: Option<string>) {
    Keyed(key) && key.value in MemoryOf(s, exec)
  }

  function Goto(s: State, aid: nat, point: Point): State
    requires aid in s.procs
  {
    s.(procs := s.procs[aid := s.procs[aid].(point := point)])
  }

  function Finish(s: State, aid: nat): State {
    s.(procs := s.procs - {aid})
  }

  function Emit(s: State, e: Event): State {
    s.(trace := s.trace + [e])
  }

  function Spawn(s: State, aid: nat, exec: nat, point: Point): State {
    if aid in s.used then s
    else s.(used := s.used + {aid}, procs := s.procs[aid := Proc(exec, point)])
  }

  /** The replay check: first thing in submit, and after the confirmation was read in resume. */
  function StepCheck(cfg: Config, s: State, aid: nat): State
    requires aid in s.procs
  {
    var exec := s.procs[aid].exec;
    match s.procs[aid].point
    case Submitted(intent) =>
      if Replayed(s, exec, intent.idempotencyKey) then Finish(s, aid) else Goto(s, aid, Simulating(intent))
    case Holding(rid, now, c) =>
      if c.status != ConfirmedOnce || c.consumedAt.Some? then Finish(s, aid)
      else (
        match Rebuild(cfg.policy, c.snapshot)
        case None => Finish(s, aid)
        case Some(intent) =>
          if Replayed(s, exec, intent.idempotencyKey) then Finish(s, aid)
          else Goto(s, aid, Deciding(rid, now, intent)))
    case _ => s
  }

  function Traced(intent: Intent, sim: Simulation): Intent {
    if sim.NoSimulation? then intent else intent.(simulationTraceId := Some(sim.traceId))
  }

  function StepSimulate(s: State, aid: nat, sim: Simulation): State
    requires aid in s.procs
  {
    match s.procs[aid].point
    case Simulating(intent) =>
      var traced := Traced(intent, sim);
      var s1 := Emit(s, SimulationSaid(aid, traced, sim));
      if sim.SimBlocks? then Finish(s1, aid) else Goto(s1, aid, Gating(traced, sim.SimAsks?))
    case _ => s
  }

  function StepGate(s: State, aid: nat, gates: seq<Decision>): State
    requires aid in s.procs
  {
    match s.procs[aid].point
    case Gating(intent, asks) =>
      var s1 := Emit(s, GatesSaid(aid, intent, gates));
      (match Composite(gates).verdict
       case Allow => Goto(s1, aid, if asks then Asking(intent) else Permitting(intent))
       case AskConfirmation => Goto(s1, aid, Asking(intent))
       case _ => Finish(s1, aid))
    case _ => s
  }

  function AfterPermission(s: State, aid: nat, intent: Intent, asked: Asked, permission: Permission, next: Point): State
    requires aid in s.procs
  {
    var s1 := Emit(s, PermissionSaid(aid, intent, asked, permission));
    if permission != Granted then Finish(s1, aid) else Goto(s1, aid, next)
  }

  function StepPermit(cfg: Config, s: State, aid: nat, permission: Permission): State
    requires aid in s.procs
  {
    match s.procs[aid].point
    case Permitting(intent) =>
      AfterPermission(s, aid, intent, ExecuteAction, permission,
                      if cfg.motor(s.procs[aid].exec) then Enqueuing(intent) else Calling(intent, None))
    case Asking(intent) =>
      AfterPermission(s, aid, intent, ConfirmAction, permission, Creating(intent))
    case Confirming(rid, now, intent) =>
      AfterPermission(s, aid, intent, ConfirmAction, permission, Executing(rid, now, intent))
    case Executing(rid, now, intent) =>
      AfterPermission(s, aid, intent, ExecuteAction, permission, Claiming(rid, now, intent))
    case _ => s
  }

  /** The record a submission leaves to be confirmed, as every reader will see it. */
  function RecordFor(p: Policy, intent: Intent, newId: nat, prompt: string, reason: string, now: int, ttl: nat): Confirmation {
    Confirmation(newId, ActionConfirmation, Pending, prompt, reason, Reloaded(p, Stored(p, intent)),
                 now, now + ttl, None, NO_RETRY, None)
  }

  function StepCreate(cfg: Config, s: State, aid: nat, newId: nat, prompt: string, reason: string, now: int, ttl: nat): State
    requires aid in s.procs
  {
    match s.procs[aid].point
    case Creating(intent) =>
      if newId in s.table then s
      else Finish(s.(table := Create(s.table, RecordFor(cfg.policy, intent, newId, prompt, reason, now, ttl))), aid)
    case _ => s
  }

  function StepEnqueue(s: State, aid: nat): State
    requires aid in s.procs
  {
    match s.procs[aid].point
    case Enqueuing(intent) =>
      var exec := s.procs[aid].exec;
      Finish(Emit(s, Queued(exec, aid, intent)), aid).(queue := s.queue + [Ticket(exec, aid, intent)])
    case _ => s
  }

  /** The motor processor takes a command; a tick is some number of these. */
  function StepDispatch(s: State, k: nat): State {
    if k >= |s.queue| then s
    else
      var t := s.queue[k];
      s.(queue := s.queue[..k] + s.queue[k + 1..],
         procs := s.procs[t.aid := Proc(t.exec, Calling(t.intent, None))])
  }

  /** _execute_allowed: `success` is a result of status executed or dry_run. */
  function StepCall(s: State, aid: nat, success: bool): State
    requires aid in s.procs
  {
    match s.procs[aid].point
    case Calling(intent, cid) =>
      Goto(Emit(s, BackendCalled(s.procs[aid].exec, aid, intent, cid, success)), aid, Called(intent, success))
    case _ => s
  }

  /** _remember_successful_idempotency; `saved` is false when the key file cannot be written. */
  function StepRemember(s: State, aid: nat, saved: bool): State
    requires aid in s.procs
  {
    match s.procs[aid].point
    case Called(intent, success) =>
      var exec := s.procs[aid].exec;
      if success && Keyed(intent.idempotencyKey) && !Replayed(s, exec, intent.idempotencyKey)
      then
        var key := intent.idempotencyKey.value;
        Finish(s, aid).(memory := s.memory[exec := MemoryOf(s, exec) + {key}],
                        persisted := if saved then s.persisted + [key] else s.persisted)
      else Finish(s, aid)
    case _ => s
  }

  function StepExpireFirst(s: State, aid: nat): State
    requires aid in s.procs
  {
    match s.procs[aid].point
    case Resuming(rid, reply, now) =>
      var (t, found) := ExpireIfNeeded(s.table, rid, now);
      var s1 := s.(table := t);
      (match found
       case None => Finish(s1, aid)
       case Some(c) =>
         if c.status == Expired || c.kind != ActionConfirmation || c.consumedAt.Some? then Finish(s1, aid)
         else if c.status == Pending then Goto(s1, aid, Replying(rid, reply, now))
         else Goto(s1, aid, Holding(rid, now, c)))
    case _ => s
  }

  function StepAnswer(s: State, aid: nat): State
    requires aid in s.procs
  {
    match s.procs[aid].point
    case Replying(rid, reply, now) =>
      var (t, r) := Resolve(s.table, rid, now, reply, None);
      var s1 := s.(table := t);
      if r == ResolvedConfirmed then Goto(s1, aid, Rereading(rid, now)) else Finish(s1, aid)
    case _ => s
  }

  function StepReread(s: State, aid: nat): State
    requires aid in s.procs
  {
    match s.procs[aid].point
    case Rereading(rid, now) =>
      if rid in s.table then Goto(s, aid, Holding(rid, now, s.table[rid])) else Finish(s, aid)
    case _ => s
  }

  /** The decision on resume: the precheck's own if it gives one, else the composite gate's. */
  function ResumeVerdict(precheck: Option<Decision>, gates: seq<Decision>): Verdict {
    if precheck.Some? then precheck.value.verdict else Composite(gates).verdict
  }

  function StepDecide(s: State, aid: nat, precheck: Option<Decision>, gates: seq<Decision>): State
    requires aid in s.procs
  {
    match s.procs[aid].point
    case Deciding(rid, now, intent) =>
      var s1 := Emit(s, ResumeDecided(aid, intent, precheck, gates));
      if ResumeVerdict(precheck, gates) == Allow then Goto(s1, aid, Confirming(rid, now, intent)) else Finish(s1, aid)
    case _ => s
  }

  function StepClaim(s: State, aid: nat): State
    requires aid in s.procs
  {
    match s.procs[aid].point
    case Claiming(rid, now, intent) =>
      var (t, won) := Claim(s.table, rid, now, {ActionConfirmation});
      var s1 := s.(table := t);
      if won.None? then Finish(s1, aid)
      else Goto(Emit(s1, ClaimWon(aid, rid)), aid, Calling(intent, Some(rid)))
    case _ => s
  }

  /** lines[-n:], where n = 0 keeps every line */
  function LastLines(lines: seq<string>, n: nat): seq<string> {
    if n == 0 || |lines| <= n then lines else lines[|lines| - n..]
  }

  /** SuccessfulActionKeyStore.load */
  function LoadedKeys(lines: seq<string>, n: nat): set<string> {
    set i | 0 <= i < |LastLines(lines, n)| && LastLines(lines, n)[i] != "" :: LastLines(lines, n)[i]
  }

  /** The line is among the last `n`; with `n` zero, or no more lines than that, among all. */
  ghost predicate AmongLast(lines: seq<string>, n: nat, line: string) {
    exists i :: 0 <= i < |lines| && (n == 0 || |lines| - n <= i) && lines[i] == line
  }

  lemma LastLinesAre(lines: seq<string>, n: nat, line: string)
    ensures line in LastLines(lines, n) <==> AmongLast(lines, n, line)
  {
    var last := LastLines(lines, n);
    var skipped := |lines| - |last|;
    assert last == lines[skipped..];
    if line in last {
      var i :| 0 <= i < |last| && last[i] == line;
      assert lines[skipped + i] == line;
    }
    if AmongLast(lines, n, line) {
      var i :| 0 <= i < |lines| && (n == 0 || |lines| - n <= i) && lines[i] == line;
      assert last[i - skipped] == line;
    }
  }

  /** The keys loaded are the non-empty lines among the last `n`. */
  lemma LoadedAre(lines: seq<string>, n: nat)
    ensures forall k :: k in LoadedKeys(lines, n) <==> k != "" && AmongLast(lines, n, k)
  {
    hide LastLines, AmongLast;
    forall k ensures k in LoadedKeys(lines, n) <==> k != "" && k in LastLines(lines, n) && AmongLast(lines, n, k) {
      LastLinesAre(lines, n, k);
    }
    forall k | k != "" && AmongLast(lines, n, k) ensures k in LastLines(lines, n) {
      LastLinesAre(lines, n, k);
    }
  }

  function StepRestart(cfg: Config, s: State, exec: nat): State {
    s.(memory := s.memory[exec := LoadedKeys(s.persisted, cfg.maxLoaded)],
       queue := Keep(s.queue, exec),
       procs := map a | a in s.procs && s.procs[a].exec != exec :: s.procs[a])
  }

  /** The tickets of the other executors. */
  function Keep(q: seq<Ticket>, exec: nat): (r: seq<Ticket>)
    ensures forall t :: t in r <==> t in q && t.exec != exec
  {
    if q == [] then [] else (if q[0].exec == exec then [] else [q[0]]) + Keep(q[1..], exec)
  }

  function Step(cfg: Config, s: State, l: Label): State {
    match l
    case Submit(aid, exec, intent) => Spawn(s, aid, exec, Submitted(intent))
    case Resume(aid, exec, rid, reply, now) => Spawn(s, aid, exec, Resuming(rid, reply, now))
    case Dispatch(k) => StepDispatch(s, k)
    case Restart(exec) => StepRestart(cfg, s, exec)
    case Other(op) => if Legal(s.table, op) then s.(table := Apply(s.table, op)) else s
    case _ => if l.aid !in s.procs then s else StepProc(cfg, s, l)
  }

  function StepProc(cfg: Config, s: State, l: Label): State
    requires !l.Dispatch? && !l.Restart? && !l.Other? && l.aid in s.procs
  {
    match l
    case Check(aid) => StepCheck(cfg, s, aid)
    case Simulate(aid, sim) => StepSimulate(s, aid, sim)
    case Gate(aid, gates) => StepGate(s, aid, gates)
    case Permit(aid, permission) => StepPermit(cfg, s, aid, permission)
    case CreateRecord(aid, newId, prompt, reason, now, ttl) => StepCreate(cfg, s, aid, newId, prompt, reason, now, ttl)
    case Enqueue(aid) => StepEnqueue(s, aid)
    case Call(aid, success) => StepCall(s, aid, success)
    case Remember(aid, saved) => StepRemember(s, aid, saved)
    case ExpireFirst(aid) => StepExpireFirst(s, aid)
    case Answer(aid) => StepAnswer(s, aid)
    case Reread(aid) => StepReread(s, aid)
    case Decide(aid, precheck, gates) => StepDecide(s, aid, precheck, gates)
    case TakeClaim(aid) => StepClaim(s, aid)
    case Crash(aid) => Finish(s, aid)
    case _ => s
  }

  function Run(cfg: Config, s: State, labels: seq<Label>): State
    decreases |labels|
  {
    if labels == [] then s else Run(cfg, Step(cfg, s, labels[0]), labels[1..])
  }

  lemma {:induction false} RunAppend(cfg: Config, s: State, a: seq<Label>, b: seq<Label>)
    ensures Run(cfg, s, a + b) == Run(cfg, Run(cfg, s, a), b)
    decreases |a|
  {
    if a == [] {
      assert a + b == b;
    } else {
      assert (a + b)[1..] == a[1..] + b;
      RunAppend(cfg, Step(cfg, s, a[0]), a[1..], b);
    }
  }
}
