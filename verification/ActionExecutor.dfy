/** SafeActionExecutor as the source has it: one call at a time on the fields it keeps, the confirmation store, the key
    file and the motor queue.  Every call is shown to be a run of the machine of ActionProtocol, so whatever holds of
    all runs of that machine holds of it. */
module ActionExecutor {
  import opened Actions
  import opened Confirmations
  import opened ConfirmationStore
  import opened IntentSnapshot
  import opened ActionProtocol

  /** The status of an ActionExecutionResult.  `Ran` stands for executed and dry_run, `Broke` for failed after the
      backend was entered. */
  datatype Outcome =
    | AlreadyExecuted | DeniedOutcome | QueuedOutcome | Ran | Broke | PendingConfirmation | StillRequired
    | AskAdminOutcome | FailedOutcome

  /** idempotency_keys.jsonl, a key per line */
  class KeyFile {
    var lines: seq<string>
  }

  class MotorList {
    var tickets: seq<Ticket>
  }

  /** What creating a confirmation takes from outside: the new id, the texts, the time and the time to live. */
  datatype NewRecord = NewRecord(id: nat, prompt: string, reason: string, now: int, ttl: nat)

  /** How the backend call ends, and whether the key file can be written. */
  datatype Effect = Effect(success: bool, saved: bool)

  // ---- What a submission answers, in the order of the source's checks ----

  /** The outcome of a permission that was not granted. */
  predicate NotGranted(outcome: Outcome, permission: Permission) {
    (permission == AskAdmin && outcome == AskAdminOutcome) || (permission == Refused && outcome == DeniedOutcome)
  }

  /** From the gates on; `first` is the first gate that does not allow. */
  ghost predicate GatesEnd(outcome: Outcome, asks: bool, gates: seq<Decision>, permission: Permission, queues: bool, success: bool) {
    var first := FirstRefusal(gates, 0);
    if first < |gates| && gates[first].verdict.Deny? then outcome == DeniedOutcome
    else if first < |gates| && !gates[first].verdict.AskConfirmation? then outcome == FailedOutcome
    else if permission != Granted then NotGranted(outcome, permission)
    else if first < |gates| || asks then outcome == PendingConfirmation
    else if queues then outcome == QueuedOutcome
    else if success then outcome == Ran
    else outcome == Broke
  }

  ghost predicate SubmitEnds(
    outcome: Outcome, replayed: bool, sim: Simulation, gates: seq<Decision>, permission: Permission, queues: bool, success: bool)
  {
    if replayed then outcome == AlreadyExecuted
    else if sim.SimBlocks? then outcome == DeniedOutcome
    else GatesEnd(outcome, sim.SimAsks?, gates, permission, queues, success)
  }

  /** The intent with the trace of its simulation, if there was one. */
  function Sent(intent: Intent, sim: Simulation): Intent {
    if sim.NoSimulation? then intent else intent.(simulationTraceId := Some(sim.traceId))
  }

  /** What a call can change. */
  datatype Fields = Fields(tickets: seq<Ticket>, table: Table, keys: set<string>, lines: seq<string>)

  /** A pending record that asks for this intent. */
  ghost predicate AsksFor(policy: Policy, c: Confirmation, intent: Intent, r: NewRecord) {
    && c.id == r.id && c.kind == ActionConfirmation && c.status == Pending && c.consumedAt.None?
    && c.prompt == r.prompt && c.decisionReason == r.reason && c.createdAt == r.now && c.expiresAt == r.now + r.ttl
    && c.ownerId.None? && c.retry.retriedFrom.None? && c.retry.root.None? && c.retry.count == 0
    && c.snapshot == Reloaded(policy, Stored(policy, intent))
  }

  /** Exactly a queued outcome leaves one ticket more, exactly a pending one a pending record more, and only a success a
      key. */
  ghost predicate Leaves(
    cfg: Config, before: Fields, after: Fields, outcome: Outcome, exec: nat, aid: nat, intent: Intent, r: NewRecord, effect: Effect)
  {
    && after.tickets == (if outcome == QueuedOutcome then before.tickets + [Ticket(exec, aid, intent)] else before.tickets)
    && (if outcome == PendingConfirmation
        then r.id in after.table && after.table == before.table[r.id := after.table[r.id]]
             && AsksFor(cfg.policy, after.table[r.id], intent, r)
        else after.table == before.table)
    && KeyKept(before, after, outcome == Ran, intent.idempotencyKey, effect)
  }

  /** The key is remembered if there is one and the call succeeded, and saved if it is new and the file can be written. */
  ghost predicate KeyKept(before: Fields, after: Fields, success: bool, key: Option<string>, effect: Effect) {
    if success && key.Some? && key.value != "" then
      && after.keys == before.keys + {key.value}
      && after.lines == if key.value !in before.keys && effect.saved then before.lines + [key.value] else before.lines
    else after.keys == before.keys && after.lines == before.lines
  }

  // ---- What a resumption answers ----

  predicate GrantsEnd(outcome: Outcome, confirm: Permission, execute: Permission, success: bool) {
    if confirm != Granted then NotGranted(outcome, confirm)
    else if execute != Granted then NotGranted(outcome, execute)
    else if success then outcome == Ran
    else outcome == Broke
  }

  ghost predicate VerdictEnds(
    outcome: Outcome, precheck: Option<Decision>, gates: seq<Decision>, confirm: Permission, execute: Permission, success: bool)
  {
    var first := FirstRefusal(gates, 0);
    if (if precheck.Some? then precheck.value.verdict.AskConfirmation? else first < |gates| && gates[first].verdict.AskConfirmation?)
    then outcome == StillRequired
    else if (if precheck.Some? then precheck.value.verdict.Deny? else first < |gates| && gates[first].verdict.Deny?)
    then outcome == DeniedOutcome
    else if (if precheck.Some? then !precheck.value.verdict.Allow? else first < |gates|) then outcome == FailedOutcome
    else GrantsEnd(outcome, confirm, execute, success)
  }

  /** From a record that was read as confirmed. */
  ghost predicate IntentEnds(
    cfg: Config, outcome: Outcome, c: Confirmation, keys: set<string>, precheck: Option<Decision>, gates: seq<Decision>,
    confirm: Permission, execute: Permission, success: bool)
  {
    match Rebuild(cfg.policy, c.snapshot)
    case None => outcome == FailedOutcome
    case Some(i) =>
      if i.idempotencyKey.Some? && i.idempotencyKey.value != "" && i.idempotencyKey.value in keys then outcome == AlreadyExecuted
      else VerdictEnds(outcome, precheck, gates, confirm, execute, success)
  }

  /** From a record that was read as in time, for an action, and not consumed. */
  ghost predicate FoundEnds(
    cfg: Config, outcome: Outcome, c: Confirmation, reply: Reply, keys: set<string>, precheck: Option<Decision>,
    gates: seq<Decision>, confirm: Permission, execute: Permission, success: bool)
  {
    if c.status == Pending && reply.Unclear? then outcome == PendingConfirmation
    else if c.status == Pending && !reply.Confirms? then outcome == DeniedOutcome
    else if c.status != Pending && c.status != ConfirmedOnce then outcome == DeniedOutcome
    else IntentEnds(cfg, outcome, c, keys, precheck, gates, confirm, execute, success)
  }

  ghost predicate ResumeEnds(
    cfg: Config, outcome: Outcome, t: Table, rid: nat, reply: Reply, now: int, keys: set<string>, precheck: Option<Decision>,
    gates: seq<Decision>, confirm: Permission, execute: Permission, success: bool)
  {
    if rid !in t || t[rid].expiresAt <= now || t[rid].status == Expired || t[rid].kind != ActionConfirmation then
      outcome == DeniedOutcome
    else if t[rid].consumedAt.Some? then outcome == AlreadyExecuted
    else FoundEnds(cfg, outcome, t[rid], reply, keys, precheck, gates, confirm, execute, success)
  }

  /** Only a success leaves a key, that of the intent the record describes; the queue stays. */
  ghost predicate KeepsKeys(cfg: Config, before: Fields, after: Fields, outcome: Outcome, rid: nat, effect: Effect) {
    && after.tickets == before.tickets
    && if outcome == Ran then
         && rid in before.table && Rebuild(cfg.policy, before.table[rid].snapshot).Some?
         && KeyKept(before, after, true, Rebuild(cfg.policy, before.table[rid].snapshot).value.idempotencyKey, effect)
       else after.keys == before.keys && after.lines == before.lines
  }

  /** The record in the table, in time, for an action and not consumed. */
  predicate Standing(t: Table, rid: nat, c: Confirmation, now: int) {
    rid in t && t[rid] == c && now < c.expiresAt && c.kind == ActionConfirmation && c.consumedAt.None?
  }

  predicate Claims(t: Table, rid: nat, now: int) {
    rid in t && t[rid].status == ConfirmedOnce && Standing(t, rid, t[rid], now)
  }

  /** The record is consumed exactly when the backend was entered, and nothing else changes. */
  predicate Consumes(t: Table, u: Table, rid: nat, now: int, outcome: Outcome) {
    if outcome == Ran || outcome == Broke then rid in t && u == t[rid := t[rid].(consumedAt := Some(now))] else u == t
  }

  /** What a resumption makes of the record: expired after its time, answered as the reply says while it was pending, and
      consumed exactly when the backend was entered.  Other records, and the queue, stay. */
  ghost predicate Resolves(t: Table, u: Table, rid: nat, reply: Reply, now: int, outcome: Outcome) {
    if rid !in t then u == t
    else
      && rid in u && u == t[rid := u[rid]] && u[rid] == t[rid].(status := u[rid].status, consumedAt := u[rid].consumedAt)
      && u[rid].consumedAt == (if outcome == Ran || outcome == Broke then Some(now) else t[rid].consumedAt)
      && (t[rid].expiresAt <= now ==> u[rid].status == Expired)
      && (now < t[rid].expiresAt && t[rid].status == Pending && t[rid].kind == ActionConfirmation && t[rid].consumedAt.None? ==>
            && (reply.Confirms? <==> u[rid].status == ConfirmedOnce) && (reply.Rejects? <==> u[rid].status == Rejected)
            && (reply.Persists? <==> u[rid].status == ConfirmedPersistent) && (reply.Unclear? <==> u[rid].status == Pending))
      && (now < t[rid].expiresAt && t[rid].status != Pending ==> u[rid].status == t[rid].status)
  }

  /** A resumption that holds this record, if it stands. */
  ghost predicate HeldAnswers(
    cfg: Config, outcome: Outcome, before: Fields, after: Fields, rid: nat, c: Confirmation, now: int,
    precheck: Option<Decision>, gates: seq<Decision>, confirm: Permission, execute: Permission, effect: Effect)
  {
    Standing(before.table, rid, c, now) ==>
      && (if c.status != ConfirmedOnce then outcome == DeniedOutcome
          else IntentEnds(cfg, outcome, c, before.keys, precheck, gates, confirm, execute, effect.success))
      && Consumes(before.table, after.table, rid, now, outcome)
      && KeepsKeys(cfg, before, after, outcome, rid, effect)
  }

  /** A resumption that found this record, if it stands. */
  ghost predicate FoundAnswers(
    cfg: Config, outcome: Outcome, before: Fields, after: Fields, rid: nat, c: Confirmation, reply: Reply, now: int,
    precheck: Option<Decision>, gates: seq<Decision>, confirm: Permission, execute: Permission, effect: Effect)
  {
    Standing(before.table, rid, c, now) ==>
      && FoundEnds(cfg, outcome, c, reply, before.keys, precheck, gates, confirm, execute, effect.success)
      && Resolves(before.table, after.table, rid, reply, now, outcome)
      && KeepsKeys(cfg, before, after, outcome, rid, effect)
  }

  /** All that a resumption answers and leaves. */
  ghost predicate ResumeAnswers(
    cfg: Config, outcome: Outcome, before: Fields, after: Fields, rid: nat, reply: Reply, now: int,
    precheck: Option<Decision>, gates: seq<Decision>, confirm: Permission, execute: Permission, effect: Effect)
  {
    && ResumeEnds(cfg, outcome, before.table, rid, reply, now, before.keys, precheck, gates, confirm, execute, effect.success)
    && Resolves(before.table, after.table, rid, reply, now, outcome)
    && KeepsKeys(cfg, before, after, outcome, rid, effect)
  }

  class SafeActionExecutor {
    const cfg: Config
    const exec: nat
    const store: PendingConfirmationStore
    const keyFile: KeyFile
    const motor: MotorList
    var records: seq<(nat, Outcome)>
    var successfulKeys: set<string>
    ghost var machine: State

    /** A new executor loads the saved keys; to the machine it is a restart. */
    constructor (c: Config, e: nat, st: PendingConfirmationStore, kf: KeyFile, m: MotorList, ghost before: State)
      requires st.Agrees() && st.file.Valid() && before.table == st.file.Table()
      requires before.persisted == kf.lines && Keep(before.queue, e) == m.tickets
      ensures Valid() && cfg == c && exec == e && store == st && keyFile == kf && motor == m
      ensures machine == Step(c, before, Restart(e)) && records == []
      ensures forall k :: k in successfulKeys <==>
                k != "" && AmongLast(kf.lines, c.maxLoaded, k)
    {
      cfg, exec, store, keyFile, motor := c, e, st, kf, m;
      records := [];
      machine := Step(c, before, Restart(e));
      successfulKeys := {};
      new;
      var lines := LastLines(kf.lines, c.maxLoaded);
      for i := 0 to |lines|
        invariant successfulKeys == set k | 0 <= k < i && lines[k] != "" :: lines[k]
        invariant cfg == c && exec == e && store == st && keyFile == kf && motor == m && records == []
        invariant machine == Step(c, before, Restart(e))
      {
        if lines[i] != "" {
          successfulKeys := successfulKeys + {lines[i]};
        }
      }
      LoadedAre(kf.lines, c.maxLoaded);
      hide AmongLast;
    }

    /** The fields are those of the machine's state. */
    ghost predicate Valid()
      reads this, store, store.file, keyFile, motor
    {
      && store.Agrees() && store.file.Valid() && machine.table == store.file.Table()
      && MemoryOf(machine, exec) == successfulKeys
      && machine.persisted == keyFile.lines && machine.queue == motor.tickets
    }

    ghost function Now(): Fields
      reads this, store, store.file, keyFile, motor
      requires Valid()
    {
      Fields(motor.tickets, store.file.Table(), successfulKeys, keyFile.lines)
    }

    /** The machine has this call at this point. */
    ghost predicate At(aid: nat, point: Point)
      reads this
    {
      aid in machine.procs && machine.procs[aid] == Proc(exec, point)
    }

    /** _execute_allowed and _remember_successful_idempotency */
    method ExecuteAllowed(aid: nat, intent: Intent, cid: Option<nat>, effect: Effect) returns (outcome: Outcome)
      requires Valid() && At(aid, Calling(intent, cid))
      modifies this`successfulKeys, this`machine, keyFile
      ensures Valid() && machine == Run(cfg, old(machine), CallLabels(aid, effect))
      ensures machine.procs == old(machine.procs) - {aid} && outcome == if effect.success then Ran else Broke
      ensures machine.trace == old(machine.trace) + [BackendCalled(exec, aid, intent, cid, effect.success)]
      ensures KeyKept(old(Now()), Now(), effect.success, intent.idempotencyKey, effect)
    {
      hide Run, Step;
      Executes(cfg, machine, aid, exec, intent, cid, effect);
      machine := Run(cfg, machine, CallLabels(aid, effect));
      outcome := if effect.success then Ran else Broke;
      if outcome == Ran && Keyed(intent.idempotencyKey) && intent.idempotencyKey.value !in successfulKeys {
        successfulKeys := successfulKeys + {intent.idempotencyKey.value};
        if effect.saved {
          keyFile.lines := keyFile.lines + [intent.idempotencyKey.value];
        }
      }
    }

    /** The part of submit for a decision of allow: permission, then the queue or the backend. */
    method SubmitAllowed(aid: nat, intent: Intent, permission: Permission, record: NewRecord, effect: Effect)
      returns (outcome: Outcome)
      requires Valid() && At(aid, Permitting(intent))
      modifies this`successfulKeys, this`machine, keyFile, motor
      ensures Valid() && machine == Run(cfg, old(machine), PermitLabels(aid, permission, record, effect))
      ensures machine.procs == old(machine.procs) - {aid} && Entered(old(machine), machine, outcome)
      ensures permission != Granted ==> NotGranted(outcome, permission)
      ensures permission == Granted ==>
                outcome == if cfg.motor(exec) then QueuedOutcome else if effect.success then Ran else Broke
      ensures Leaves(cfg, old(Now()), Now(), outcome, exec, aid, intent, record, effect)
    {
      hide Run, Step, CallsIn, CallLabels, TableOf, Unique, Records, Dicts, Sorted, Leaves, KeyKept;
      ghost var start, before := machine, Now();
      PermitsExecution(cfg, machine, aid, exec, intent, permission, record, effect);
      CallsNone(machine.trace, PermissionSaid(aid, intent, ExecuteAction, permission));
      machine := AfterPermission(machine, aid, intent, ExecuteAction, permission,
                                 if cfg.motor(exec) then Enqueuing(intent) else Calling(intent, None));
      if permission != Granted {
        outcome := if permission == AskAdmin then AskAdminOutcome else DeniedOutcome;
        NothingLeaves(cfg, before, outcome, exec, aid, intent, record, effect);
      } else if cfg.motor(exec) {
        motor.tickets := motor.tickets + [Ticket(exec, aid, intent)];
        CallsMore(start.trace, machine.trace, Queued(exec, aid, intent));
        machine := Finish(machine, aid).(trace := machine.trace + [Queued(exec, aid, intent)],
                                         queue := machine.queue + [Ticket(exec, aid, intent)]);
        outcome := QueuedOutcome;
        QueueLeaves(cfg, before, exec, aid, intent, record, effect);
      } else {
        CallsMore(start.trace, machine.trace, BackendCalled(exec, aid, intent, None, effect.success));
        outcome := ExecuteAllowed(aid, intent, None, effect);
        CallLeaves(cfg, before, Now(), exec, aid, intent, record, effect);
      }
    }

    /** The part of submit for a decision to ask: permission, then a confirmation on record. */
    method AskConfirmation(aid: nat, intent: Intent, permission: Permission, record: NewRecord, ghost effect: Effect)
      returns (outcome: Outcome)
      requires Valid() && At(aid, Asking(intent)) && record.id !in store.file.Table()
      modifies this`machine, store, store.file
      ensures Valid() && machine == Run(cfg, old(machine), PermitLabels(aid, permission, record, effect))
      ensures machine.procs == old(machine.procs) - {aid} && Entered(old(machine), machine, outcome)
      ensures if permission != Granted then NotGranted(outcome, permission) else outcome == PendingConfirmation
      ensures Leaves(cfg, old(Now()), Now(), outcome, exec, aid, intent, record, effect)
    {
      hide Run, Step, CallsIn, RecordFor, TableOf, Unique, Records, Dicts, Sorted, Leaves;
      ghost var before := Now();
      PermitsAsking(cfg, machine, aid, exec, intent, permission, record, effect);
      CallsNone(machine.trace, PermissionSaid(aid, intent, ConfirmAction, permission));
      machine := AfterPermission(machine, aid, intent, ConfirmAction, permission, Creating(intent));
      if permission != Granted {
        outcome := if permission == AskAdmin then AskAdminOutcome else DeniedOutcome;
        NothingLeaves(cfg, before, outcome, exec, aid, intent, record, effect);
        return;
      }
      var c := RecordFor(cfg.policy, intent, record.id, record.prompt, record.reason, record.now, record.ttl);
      RecordId(cfg, intent, record);
      store.Upsert(c);
      machine := Finish(machine.(table := machine.table[record.id := c]), aid);
      AskLeaves(cfg, before, exec, aid, intent, record, effect);
      outcome := PendingConfirmation;
    }

    /** The part of submit from the composite gate on. */
    method SubmitSimulated(aid: nat, intent: Intent, asks: bool, gates: seq<Decision>, permission: Permission,
                           record: NewRecord, effect: Effect)
      returns (outcome: Outcome)
      requires Valid() && At(aid, Gating(intent, asks)) && record.id !in store.file.Table()
      modifies this`successfulKeys, this`machine, store, store.file, keyFile, motor
      ensures Valid() && machine == Run(cfg, old(machine), GateLabels(aid, gates, permission, record, effect))
      ensures machine.procs == old(machine.procs) - {aid} && Entered(old(machine), machine, outcome)
      ensures GatesEnd(outcome, asks, gates, permission, cfg.motor(exec), effect.success)
      ensures Leaves(cfg, old(Now()), Now(), outcome, exec, aid, intent, record, effect)
    {
      hide Run, Step, CallsIn, Composite, PermitLabels, TableOf, Unique, Records, Dicts, Sorted, Leaves, FirstRefusal;
      ghost var start, before := machine, Now();
      CompositeIsFirst(gates);
      var decision := EvaluateComposite(gates);
      Gates(cfg, machine, aid, exec, intent, asks, gates);
      CallsNone(machine.trace, GatesSaid(aid, intent, gates));
      RunAppend(cfg, machine, [Gate(aid, gates)], PermitLabels(aid, permission, record, effect));
      machine := Run(cfg, machine, [Gate(aid, gates)]);
      ghost var mid := machine;
      if decision.verdict.Allow? && !asks {
        outcome := SubmitAllowed(aid, intent, permission, record, effect);
      } else if decision.verdict.Allow? || decision.verdict.AskConfirmation? {
        outcome := AskConfirmation(aid, intent, permission, record, effect);
      } else {
        NothingLeft(cfg, machine, aid, PermitLabels(aid, permission, record, effect));
        outcome := if decision.verdict.Deny? then DeniedOutcome else FailedOutcome;
        NothingLeaves(cfg, before, outcome, exec, aid, intent, record, effect);
        return;
      }
      EnteredAfter(start, mid, machine, outcome);
    }

    /** The part of submit from the simulation on. */
    method SubmitChecked(aid: nat, intent: Intent, sim: Simulation, gates: seq<Decision>, permission: Permission,
                         record: NewRecord, effect: Effect)
      returns (outcome: Outcome)
      requires Valid() && At(aid, Simulating(intent)) && record.id !in store.file.Table()
      modifies this`successfulKeys, this`machine, store, store.file, keyFile, motor
      ensures Valid() && machine == Run(cfg, old(machine), SimulateLabels(aid, sim, gates, permission, record, effect))
      ensures machine.procs == old(machine.procs) - {aid} && Entered(old(machine), machine, outcome)
      ensures SubmitEnds(outcome, false, sim, gates, permission, cfg.motor(exec), effect.success)
      ensures Leaves(cfg, old(Now()), Now(), outcome, exec, aid, Sent(intent, sim), record, effect)
    {
      hide Run, Step, CallsIn, GateLabels, TableOf, Unique, Records, Dicts, Sorted, Leaves, GatesEnd;
      ghost var start, before := machine, Now();
      var traced := Traced(intent, sim);
      Simulates(cfg, machine, aid, exec, intent, sim);
      CallsNone(machine.trace, SimulationSaid(aid, traced, sim));
      RunAppend(cfg, machine, [Simulate(aid, sim)], GateLabels(aid, gates, permission, record, effect));
      machine := Run(cfg, machine, [Simulate(aid, sim)]);
      if sim.SimBlocks? {
        NothingLeft(cfg, machine, aid, GateLabels(aid, gates, permission, record, effect));
        NothingLeaves(cfg, before, DeniedOutcome, exec, aid, Sent(intent, sim), record, effect);
        return DeniedOutcome;
      }
      ghost var mid := machine;
      outcome := SubmitSimulated(aid, traced, sim.SimAsks?, gates, permission, record, effect);
      EnteredAfter(start, mid, machine, outcome);
    }

    /** submit: to the machine it is the run of one submission with these answers from outside, whatever else there is. */
    method Submit(aid: nat, intent: Intent, sim: Simulation, gates: seq<Decision>, permission: Permission,
                  record: NewRecord, effect: Effect)
      returns (outcome: Outcome)
      requires Valid() && aid !in machine.used && aid !in machine.procs && record.id !in store.file.Table()
      modifies this, store, store.file, keyFile, motor
      ensures Valid() && machine == Run(cfg, old(machine), SubmitLabels(aid, exec, intent, sim, gates, permission, record, effect))
      ensures machine.procs == old(machine.procs) && Entered(old(machine), machine, outcome)
      ensures records == old(records) + [(aid, outcome)]
      ensures var key := intent.idempotencyKey;
              SubmitEnds(outcome, key.Some? && key.value != "" && key.value in old(successfulKeys), sim, gates, permission,
                         cfg.motor(exec), effect.success)
      ensures Leaves(cfg, old(Now()), Now(), outcome, exec, aid, Sent(intent, sim), record, effect)
    {
      hide Run, Step, CallsIn, GateLabels, TableOf, Unique, Records, Dicts, Sorted, Leaves, GatesEnd;
      ghost var before := Now();
      ghost var start, rest := machine, SimulateLabels(aid, sim, gates, permission, record, effect);
      Begins(cfg, machine, aid, exec, intent);
      CallsNone(machine.trace, ClaimWon(aid, 0));
      RunAppend(cfg, machine, [Label.Submit(aid, exec, intent), Check(aid)], rest);
      machine := Run(cfg, machine, [Label.Submit(aid, exec, intent), Check(aid)]);
      if Keyed(intent.idempotencyKey) && intent.idempotencyKey.value in successfulKeys {
        NothingLeft(cfg, machine, aid, rest);
        outcome := AlreadyExecuted;
        NothingLeaves(cfg, before, outcome, exec, aid, Sent(intent, sim), record, effect);
      } else {
        ghost var mid := machine;
        outcome := SubmitChecked(aid, intent, sim, gates, permission, record, effect);
        EnteredAfter(start, mid, machine, outcome);
      }
      records := records + [(aid, outcome)];
    }

    /** What a motor tick does with one of the commands it took: dispatch it, and remember its key only if it succeeded. */
    method DispatchCommand(k: nat, effect: Effect) returns (outcome: Outcome)
      requires Valid() && k < |motor.tickets| && motor.tickets[k].exec == exec && motor.tickets[k].aid !in machine.procs
      modifies this`successfulKeys, this`machine, keyFile, motor
      ensures Valid() && machine == Run(cfg, old(machine), [Dispatch(k)] + CallLabels(old(motor.tickets[k].aid), effect))
      ensures machine.procs == old(machine.procs) && outcome == if effect.success then Ran else Broke
      ensures motor.tickets == old(motor.tickets[..k] + motor.tickets[k + 1..])
      ensures machine.trace
           == old(machine.trace) + [BackendCalled(exec, old(motor.tickets[k].aid), old(motor.tickets[k].intent), None, effect.success)]
      ensures KeyKept(old(Now()), Now(), effect.success, old(motor.tickets[k].intent.idempotencyKey), effect)
    {
      hide Run, Step, KeyKept, CallLabels, TableOf, Unique, Records, Dicts, Sorted;
      var t := motor.tickets[k];
      motor.tickets := motor.tickets[..k] + motor.tickets[k + 1..];
      Dispatches(cfg, machine, k);
      RunAppend(cfg, machine, [Dispatch(k)], CallLabels(t.aid, effect));
      ghost var procs := machine.procs;
      machine := Run(cfg, machine, [Dispatch(k)]);
      ghost var mid := Now();
      outcome := ExecuteAllowed(t.aid, t.intent, None, effect);
      KeyThrough(old(Now()), mid, Now(), effect.success, t.intent.idempotencyKey, effect);
      assert procs[t.aid := Proc(exec, Calling(t.intent, None))] - {t.aid} == procs;
    }

    /** The linearization point of a resumption, and the backend behind it. */
    method ClaimAndExecute(aid: nat, rid: nat, now: int, intent: Intent, effect: Effect) returns (outcome: Outcome)
      requires Valid() && At(aid, Claiming(rid, now, intent))
      modifies this`successfulKeys, this`machine, store, store.file, keyFile
      ensures Valid() && machine == Run(cfg, old(machine), ClaimLabels(aid, effect))
      ensures machine.procs == old(machine.procs) - {aid} && EnteredFor(old(machine), machine, rid, outcome)
      ensures var t := old(store.file.Table());
              if Claims(t, rid, now)
              then outcome == if effect.success then Ran else Broke else outcome == AlreadyExecuted
      ensures Claims(old(store.file.Table()), rid, now) ==>
                Consumes(old(store.file.Table()), store.file.Table(), rid, now, outcome)
      ensures KeyKept(old(Now()), Now(), outcome == Ran, intent.idempotencyKey, effect)
    {
      hide Run, Step, CallsIn, Claim, Claims, Consumes, KeyKept, CallLabels, TableOf, Unique, Records, Dicts, Sorted;
      ghost var start, before := machine, Now();
      TakesClaim(cfg, machine, aid, exec, rid, now, intent);
      ClaimTaken(store.file.Table(), rid, now);
      CallsNone(machine.trace, ClaimWon(aid, rid));
      RunAppend(cfg, machine, [TakeClaim(aid)], CallLabels(aid, effect));
      var claimed := store.ClaimConsumption(rid, now, {ActionConfirmation});
      machine := Run(cfg, machine, [TakeClaim(aid)]);
      if claimed.None? {
        NothingLeft(cfg, machine, aid, CallLabels(aid, effect));
        NoKey(before, Now(), intent.idempotencyKey, effect);
        return AlreadyExecuted;
      }
      CallsMore(start.trace, machine.trace, BackendCalled(exec, aid, intent, Some(rid), effect.success));
      ghost var mid := Now();
      outcome := ExecuteAllowed(aid, intent, Some(rid), effect);
      KeyThrough(before, mid, Now(), effect.success, intent.idempotencyKey, effect);
    }

    /** Both permissions, then the claim. */
    method ResumeAllowed(aid: nat, rid: nat, now: int, intent: Intent, confirm: Permission, execute: Permission, effect: Effect)
      returns (outcome: Outcome)
      requires Valid() && At(aid, Confirming(rid, now, intent))
      modifies this`successfulKeys, this`machine, store, store.file, keyFile
      ensures Valid() && machine == Run(cfg, old(machine), GrantLabels(aid, confirm, execute, effect))
      ensures machine.procs == old(machine.procs) - {aid} && EnteredFor(old(machine), machine, rid, outcome)
      ensures Claims(old(store.file.Table()), rid, now) ==>
                && GrantsEnd(outcome, confirm, execute, effect.success)
                && Consumes(old(store.file.Table()), store.file.Table(), rid, now, outcome)
      ensures KeyKept(old(Now()), Now(), outcome == Ran, intent.idempotencyKey, effect)
    {
      hide Run, Step, CallsIn, ClaimLabels, TableOf, Unique, Records, Dicts, Sorted;
      ghost var start := machine;
      PermitsConfirming(cfg, machine, aid, exec, rid, now, intent, confirm, execute, effect);
      CallsNone(machine.trace, PermissionSaid(aid, intent, ConfirmAction, confirm));
      machine := AfterPermission(machine, aid, intent, ConfirmAction, confirm, Executing(rid, now, intent));
      if confirm != Granted {
        return if confirm == AskAdmin then AskAdminOutcome else DeniedOutcome;
      }
      CallsMore(start.trace, machine.trace, PermissionSaid(aid, intent, ExecuteAction, execute));
      machine := AfterPermission(machine, aid, intent, ExecuteAction, execute, Claiming(rid, now, intent));
      if execute != Granted {
        return if execute == AskAdmin then AskAdminOutcome else DeniedOutcome;
      }
      ghost var mid := machine;
      outcome := ClaimAndExecute(aid, rid, now, intent, effect);
      EnteredAfter(start, mid, machine, outcome);
    }

    /** From the rebuilt intent to the decision. */
    method ResumeRebuilt(aid: nat, rid: nat, now: int, intent: Intent, precheck: Option<Decision>, gates: seq<Decision>,
                         confirm: Permission, execute: Permission, effect: Effect)
      returns (outcome: Outcome)
      requires Valid() && At(aid, Deciding(rid, now, intent))
      modifies this`successfulKeys, this`machine, store, store.file, keyFile
      ensures Valid() && machine == Run(cfg, old(machine), DecideLabels(aid, precheck, gates, confirm, execute, effect))
      ensures machine.procs == old(machine.procs) - {aid} && EnteredFor(old(machine), machine, rid, outcome)
      ensures Claims(old(store.file.Table()), rid, now) ==>
                && VerdictEnds(outcome, precheck, gates, confirm, execute, effect.success)
                && Consumes(old(store.file.Table()), store.file.Table(), rid, now, outcome)
      ensures KeyKept(old(Now()), Now(), outcome == Ran, intent.idempotencyKey, effect)
    {
      hide Run, Step, CallsIn, Composite, GrantLabels, TableOf, Unique, Records, Dicts, Sorted;
      hide VerdictEnds, GrantsEnd, Consumes, KeyKept, Entered, EnteredFor;
      ghost var start, before, t := machine, Now(), store.file.Table();
      var gate := EvaluateComposite(gates);
      var verdict := if precheck.Some? then precheck.value.verdict else gate.verdict;
      Decides(cfg, machine, aid, exec, rid, now, intent, precheck, gates);
      CallsNone(machine.trace, ResumeDecided(aid, intent, precheck, gates));
      RunAppend(cfg, machine, [Decide(aid, precheck, gates)], GrantLabels(aid, confirm, execute, effect));
      machine := Run(cfg, machine, [Decide(aid, precheck, gates)]);
      if !verdict.Allow? {
        NothingLeft(cfg, machine, aid, GrantLabels(aid, confirm, execute, effect));
        outcome := if verdict.AskConfirmation? then StillRequired else if verdict.Deny? then DeniedOutcome else FailedOutcome;
        VerdictRefuses(precheck, gates, confirm, execute, effect.success);
        NothingKept(before, intent.idempotencyKey, t, rid, now, outcome, effect);
        NotEnteredBut(start, machine, rid, outcome, ResumeDecided(aid, intent, precheck, gates));
        return;
      }
      ghost var mid := machine;
      outcome := ResumeAllowed(aid, rid, now, intent, confirm, execute, effect);
      if GrantsEnd(outcome, confirm, execute, effect.success) {
        VerdictAllows(outcome, precheck, gates, confirm, execute, effect.success);
      }
      EnteredLater(start, mid, machine, rid, outcome, ResumeDecided(aid, intent, precheck, gates));
    }

    /** From the record as it was read to the rebuilt intent. */
    method ResumeHeld(aid: nat, rid: nat, now: int, c: Confirmation, precheck: Option<Decision>, gates: seq<Decision>,
                      confirm: Permission, execute: Permission, effect: Effect)
      returns (outcome: Outcome)
      requires Valid() && At(aid, Holding(rid, now, c))
      modifies this`successfulKeys, this`machine, store, store.file, keyFile
      ensures Valid() && machine == Run(cfg, old(machine), HeldLabels(aid, precheck, gates, confirm, execute, effect))
      ensures machine.procs == old(machine.procs) - {aid} && EnteredFor(old(machine), machine, rid, outcome)
      ensures HeldAnswers(cfg, outcome, old(Now()), Now(), rid, c, now, precheck, gates, confirm, execute, effect)
    {
      hide Run, Step, EnteredFor, Entered, Rebuild, DecideLabels, TableOf, Unique, Records, Dicts, Sorted;
      hide HeldRefusal, HeldAnswers, Claims, VerdictEnds, Consumes, KeyKept;
      ghost var before := Now();
      ghost var start, rest := machine, DecideLabels(aid, precheck, gates, confirm, execute, effect);
      HeldSteps(c, Rebuild(cfg.policy, c.snapshot), successfulKeys);
      Holds(cfg, machine, aid, exec, rid, now, c);
      RunAppend(cfg, machine, [Check(aid)], rest);
      machine := Run(cfg, machine, [Check(aid)]);
      var rebuilt := Rebuild(cfg.policy, c.snapshot);
      var refusal := HeldRefusal(c, rebuilt, successfulKeys);
      if refusal.Some? {
        NothingLeft(cfg, machine, aid, DecideLabels(aid, precheck, gates, confirm, execute, effect));
        NotEntered(start, machine, rid, refusal.value);
        HeldRefuses(cfg, before, rid, c, now, precheck, gates, confirm, execute, effect);
        return refusal.value;
      }
      ghost var mid := machine;
      outcome := ResumeRebuilt(aid, rid, now, rebuilt.value, precheck, gates, confirm, execute, effect);
      EnteredSame(start, mid, machine, rid, outcome);
      HeldGoesOn(cfg, outcome, before, Now(), rid, c, now, precheck, gates, confirm, execute, effect);
    }

    /** The reply to a pending confirmation, and the record read again if it confirms. */
    method TakeReply(aid: nat, rid: nat, reply: Reply, now: int) returns (decision: Resolution, confirmation: Option<Confirmation>)
      requires Valid() && At(aid, Replying(rid, reply, now))
      modifies this`machine, store, store.file
      ensures Valid() && machine == Run(cfg, old(machine), [Answer(aid), Reread(aid)]) && machine.trace == old(machine.trace)
      ensures (store.file.Table(), decision) == Resolve(old(store.file.Table()), rid, now, reply, None)
      ensures confirmation == if decision == ResolvedConfirmed && rid in store.file.Table() then Some(store.file.Table()[rid]) else None
      ensures machine.procs == if confirmation.Some? then old(machine.procs)[aid := Proc(exec, Holding(rid, now, confirmation.value))]
                               else old(machine.procs) - {aid}
    {
      hide Run, Step, Resolve, TableOf, Unique, Records, Dicts, Sorted;
      Answers(cfg, machine, aid, exec, rid, reply, now);
      decision := store.ResolveUserReply(rid, now, reply, None);
      confirmation := None;
      if decision == ResolvedConfirmed {
        confirmation := store.Get(rid);
      }
      machine := Run(cfg, machine, [Answer(aid), Reread(aid)]);
    }

    /** A pending confirmation: the reply decides, and the record is read again. */
    method ResumePending(aid: nat, rid: nat, reply: Reply, now: int, ghost c: Confirmation, precheck: Option<Decision>,
                         gates: seq<Decision>, confirm: Permission, execute: Permission, effect: Effect)
      returns (outcome: Outcome)
      requires Valid() && At(aid, Replying(rid, reply, now))
      modifies this`successfulKeys, this`machine, store, store.file, keyFile
      ensures Valid() && machine == Run(cfg, old(machine), ReplyLabels(aid, precheck, gates, confirm, execute, effect))
      ensures machine.procs == old(machine.procs) - {aid} && EnteredFor(old(machine), machine, rid, outcome)
      ensures c.status == Pending ==>
                FoundAnswers(cfg, outcome, old(Now()), Now(), rid, c, reply, now, precheck, gates, confirm, execute, effect)
    {
      hide Run, Step, Resolve, HeldLabels, ReplyLabels, About, TableOf, Unique, Records, Dicts, Sorted;
      hide FoundAnswers, HeldAnswers, Entered, EnteredFor;
      ghost var start, before := machine, Now();
      RepliesFirst(cfg, machine, aid, precheck, gates, confirm, execute, effect);
      var decision, confirmation := TakeReply(aid, rid, reply, now);
      ghost var mid, between := machine, Now();
      if confirmation.None? {
        NothingLeft(cfg, machine, aid, HeldLabels(aid, precheck, gates, confirm, execute, effect));
        outcome := if decision == ResolvedConfirmed then FailedOutcome
                   else if decision == ResolvedUnclear then PendingConfirmation else DeniedOutcome;
        NotEntered(start, machine, rid, outcome);
        if c.status == Pending {
          RefusedAnswers(cfg, outcome, before, between, rid, c, reply, now, precheck, gates, confirm, execute, effect);
        }
      } else {
        outcome := ResumeHeld(aid, rid, now, confirmation.value, precheck, gates, confirm, execute, effect);
        EnteredSame(start, mid, machine, rid, outcome);
        if c.status == Pending {
          ConfirmedAnswers(cfg, outcome, before, between, Now(), rid, c, reply, now, precheck, gates, confirm, execute, effect);
        }
      }
    }

    /** A confirmation that may still be carried out, pending or answered already. */
    method ResumeFound(aid: nat, rid: nat, reply: Reply, now: int, c: Confirmation, precheck: Option<Decision>,
                       gates: seq<Decision>, confirm: Permission, execute: Permission, effect: Effect)
      returns (outcome: Outcome)
      requires Valid() && At(aid, if c.status == Pending then Replying(rid, reply, now) else Holding(rid, now, c))
      modifies this`successfulKeys, this`machine, store, store.file, keyFile
      ensures Valid() && machine == Run(cfg, old(machine), ReplyLabels(aid, precheck, gates, confirm, execute, effect))
      ensures machine.procs == old(machine.procs) - {aid} && EnteredFor(old(machine), machine, rid, outcome)
      ensures FoundAnswers(cfg, outcome, old(Now()), Now(), rid, c, reply, now, precheck, gates, confirm, execute, effect)
    {
      hide Run, Step, CallsIn, HeldLabels, TableOf, Unique, Records, Dicts, Sorted;
      hide FoundAnswers, HeldAnswers, Entered, EnteredFor;
      if c.status == Pending {
        outcome := ResumePending(aid, rid, reply, now, c, precheck, gates, confirm, execute, effect);
      } else {
        AnswersNothing(cfg, machine, aid, exec, rid, now, c, HeldLabels(aid, precheck, gates, confirm, execute, effect));
        ghost var before := Now();
        outcome := ResumeHeld(aid, rid, now, c, precheck, gates, confirm, execute, effect);
        HeldIsFound(cfg, outcome, before, Now(), rid, c, reply, now, precheck, gates, confirm, execute, effect);
      }
    }

    /** resume_confirmed: to the machine it is the run of one resumption with these answers from outside. */
    method ResumeConfirmed(aid: nat, rid: nat, reply: Reply, now: int, precheck: Option<Decision>, gates: seq<Decision>,
                           confirm: Permission, execute: Permission, effect: Effect)
      returns (outcome: Outcome)
      requires Valid() && aid !in machine.used && aid !in machine.procs
      modifies this, store, store.file, keyFile
      ensures Valid()
      ensures machine == Run(cfg, old(machine), ResumeLabels(aid, exec, rid, reply, now, precheck, gates, confirm, execute, effect))
      ensures machine.procs == old(machine.procs) && EnteredFor(old(machine), machine, rid, outcome)
      ensures ResumeAnswers(cfg, outcome, old(Now()), Now(), rid, reply, now, precheck, gates, confirm, execute, effect)
      ensures records == old(records) + [(aid, outcome)]
    {
      outcome := ResumeUnrecorded(aid, rid, reply, now, precheck, gates, confirm, execute, effect);
      records := records + [(aid, outcome)];
    }

    /** The first, locked look at the confirmation. */
    method LookUp(aid: nat, rid: nat, reply: Reply, now: int) returns (found: Option<Confirmation>)
      requires Valid() && aid !in machine.used && aid !in machine.procs
      modifies this`machine, store, store.file
      ensures Valid() && machine == Run(cfg, old(machine), [Label.Resume(aid, exec, rid, reply, now), ExpireFirst(aid)])
      ensures machine.trace == old(machine.trace) && successfulKeys == old(successfulKeys)
      ensures (store.file.Table(), found) == ExpireIfNeeded(old(store.file.Table()), rid, now)
      ensures Now() == old(Now()).(table := Now().table)
      ensures machine.procs == if LookUpRefusal(found).Some? then old(machine.procs)
                               else old(machine.procs)[aid := Proc(exec, if found.value.status == Pending then Replying(rid, reply, now)
                                                                         else Holding(rid, now, found.value))]
    {
      hide Run, Step, ExpireIfNeeded, TableOf, Unique, Records, Dicts, Sorted;
      ResumeBegins(cfg, machine, aid, exec, rid, reply, now);
      found := store.ExpireConfirmationIfNeeded(rid, now);
      machine := Run(cfg, machine, [Label.Resume(aid, exec, rid, reply, now), ExpireFirst(aid)]);
    }

    method ResumeUnrecorded(aid: nat, rid: nat, reply: Reply, now: int, precheck: Option<Decision>, gates: seq<Decision>,
                            confirm: Permission, execute: Permission, effect: Effect)
      returns (outcome: Outcome)
      requires Valid() && aid !in machine.used && aid !in machine.procs
      modifies this`successfulKeys, this`machine, store, store.file, keyFile
      ensures Valid()
      ensures machine == Run(cfg, old(machine), ResumeLabels(aid, exec, rid, reply, now, precheck, gates, confirm, execute, effect))
      ensures machine.procs == old(machine.procs) && EnteredFor(old(machine), machine, rid, outcome)
      ensures ResumeAnswers(cfg, outcome, old(Now()), Now(), rid, reply, now, precheck, gates, confirm, execute, effect)
    {
      hide Run, Step, EnteredFor, Entered, HeldLabels, ReplyLabels, TableOf, Unique, Records, Dicts, Sorted;
      hide ExpireIfNeeded, LookUpRefusal, ResumeAnswers, FoundAnswers, Standing;
      ghost var before := Now();
      FirstLook(cfg, before, rid, reply, now, precheck, gates, confirm, execute, effect);
      ghost var start := machine;
      ghost var rest := ReplyLabels(aid, precheck, gates, confirm, execute, effect);
      RunAppend(cfg, machine, [Label.Resume(aid, exec, rid, reply, now), ExpireFirst(aid)], rest);
      var found := LookUp(aid, rid, reply, now);
      var refusal := LookUpRefusal(found);
      if refusal.Some? {
        NothingLeft(cfg, machine, aid, rest);
        NotEntered(start, machine, rid, refusal.value);
        return refusal.value;
      }
      ghost var mid := machine;
      outcome := ResumeFound(aid, rid, reply, now, found.value, precheck, gates, confirm, execute, effect);
      EnteredSame(start, mid, machine, rid, outcome);
      FoundIsResumed(cfg, outcome, before, Now(), rid, reply, now, precheck, gates, confirm, execute, effect);
    }
  }

  /** The refusals of resume_confirmed right after the first look; None when it goes on. */
  function LookUpRefusal(found: Option<Confirmation>): (r: Option<Outcome>)
    ensures r != Some(Ran) && r != Some(Broke)
  {
    if found.None? then Some(DeniedOutcome)
    else if found.value.status == Expired || found.value.kind != ActionConfirmation then Some(DeniedOutcome)
    else if found.value.consumedAt.Some? then Some(AlreadyExecuted)
    else None
  }

  lemma HeldSteps(c: Confirmation, rebuilt: Option<Intent>, keys: set<string>)
    ensures HeldRefusal(c, rebuilt, keys).None? <==>
            c.status == ConfirmedOnce && c.consumedAt.None? && rebuilt.Some?
            && !(Keyed(rebuilt.value.idempotencyKey) && rebuilt.value.idempotencyKey.value in keys)
  {
  }

  /** The refusals between the confirmed record and the decision. */
  function HeldRefusal(c: Confirmation, rebuilt: Option<Intent>, keys: set<string>): (r: Option<Outcome>)
    ensures r != Some(Ran) && r != Some(Broke)
  {
    if c.status != ConfirmedOnce then Some(DeniedOutcome)
    else if c.consumedAt.Some? then Some(AlreadyExecuted)
    else if rebuilt.None? then Some(FailedOutcome)
    else if Keyed(rebuilt.value.idempotencyKey) && rebuilt.value.idempotencyKey.value in keys then Some(AlreadyExecuted)
    else None
  }

  // ---- The labels of one call ----
  // A label whose point is not reached leaves the machine as it is, so one list serves every way a call may end.

  /** Labels that move this process and nothing else. */
  ghost predicate About(labels: seq<Label>, aid: nat) {
    forall i :: 0 <= i < |labels| ==> MovesOnly(labels[i], aid)
  }

  predicate MovesOnly(l: Label, aid: nat) {
    !l.Submit? && !l.Resume? && !l.Dispatch? && !l.Restart? && !l.Other? && l.aid == aid
  }

  function CallLabels(aid: nat, effect: Effect): (labels: seq<Label>)
    ensures About(labels, aid)
  {
    [Call(aid, effect.success), Remember(aid, effect.saved)]
  }

  function PermitLabels(aid: nat, permission: Permission, r: NewRecord, effect: Effect): (labels: seq<Label>)
    ensures About(labels, aid)
  {
    [Permit(aid, permission), CreateRecord(aid, r.id, r.prompt, r.reason, r.now, r.ttl), Enqueue(aid)] + CallLabels(aid, effect)
  }

  function GateLabels(aid: nat, gates: seq<Decision>, permission: Permission, r: NewRecord, effect: Effect): (labels: seq<Label>)
    ensures About(labels, aid)
  {
    [Gate(aid, gates)] + PermitLabels(aid, permission, r, effect)
  }

  function SimulateLabels(aid: nat, sim: Simulation, gates: seq<Decision>, permission: Permission, r: NewRecord,
                          effect: Effect): (labels: seq<Label>)
    ensures About(labels, aid)
  {
    [Simulate(aid, sim)] + GateLabels(aid, gates, permission, r, effect)
  }

  function SubmitLabels(aid: nat, exec: nat, intent: Intent, sim: Simulation, gates: seq<Decision>, permission: Permission,
                        r: NewRecord, effect: Effect): seq<Label> {
    [Label.Submit(aid, exec, intent), Check(aid)] + SimulateLabels(aid, sim, gates, permission, r, effect)
  }

  function ClaimLabels(aid: nat, effect: Effect): (labels: seq<Label>)
    ensures About(labels, aid)
  {
    [TakeClaim(aid)] + CallLabels(aid, effect)
  }

  function GrantLabels(aid: nat, confirm: Permission, execute: Permission, effect: Effect): (labels: seq<Label>)
    ensures About(labels, aid)
  {
    [Permit(aid, confirm), Permit(aid, execute)] + ClaimLabels(aid, effect)
  }

  function DecideLabels(aid: nat, precheck: Option<Decision>, gates: seq<Decision>, confirm: Permission, execute: Permission,
                        effect: Effect): (labels: seq<Label>)
    ensures About(labels, aid)
  {
    [Decide(aid, precheck, gates)] + GrantLabels(aid, confirm, execute, effect)
  }

  function HeldLabels(aid: nat, precheck: Option<Decision>, gates: seq<Decision>, confirm: Permission, execute: Permission,
                      effect: Effect): (labels: seq<Label>)
    ensures About(labels, aid)
  {
    [Check(aid)] + DecideLabels(aid, precheck, gates, confirm, execute, effect)
  }

  function ReplyLabels(aid: nat, precheck: Option<Decision>, gates: seq<Decision>, confirm: Permission, execute: Permission,
                       effect: Effect): (labels: seq<Label>)
    ensures About(labels, aid)
  {
    [Answer(aid), Reread(aid)] + HeldLabels(aid, precheck, gates, confirm, execute, effect)
  }

  lemma RepliesFirst(cfg: Config, s: State, aid: nat, precheck: Option<Decision>, gates: seq<Decision>, confirm: Permission,
                     execute: Permission, effect: Effect)
    ensures Run(cfg, s, ReplyLabels(aid, precheck, gates, confirm, execute, effect))
         == Run(cfg, Run(cfg, s, [Answer(aid), Reread(aid)]), HeldLabels(aid, precheck, gates, confirm, execute, effect))
  {
    RunAppend(cfg, s, [Answer(aid), Reread(aid)], HeldLabels(aid, precheck, gates, confirm, execute, effect));
  }

  function ResumeLabels(aid: nat, exec: nat, rid: nat, reply: Reply, now: int, precheck: Option<Decision>, gates: seq<Decision>,
                        confirm: Permission, execute: Permission, effect: Effect): seq<Label> {
    [Label.Resume(aid, exec, rid, reply, now), ExpireFirst(aid)]
    + ReplyLabels(aid, precheck, gates, confirm, execute, effect)
  }

  /** A process that has ended does nothing more. */
  lemma {:induction false} NothingLeft(cfg: Config, s: State, aid: nat, labels: seq<Label>)
    requires aid !in s.procs && About(labels, aid)
    ensures Run(cfg, s, labels) == s
    decreases |labels|
  {
    if labels != [] {
      assert MovesOnly(labels[0], aid) && Step(cfg, s, labels[0]) == s;
      var rest := labels[1..];
      forall i | 0 <= i < |rest| ensures MovesOnly(rest[i], aid) {
        assert rest[i] == labels[i + 1];
      }
      NothingLeft(cfg, s, aid, rest);
    }
  }

  // ---- Outcomes ----

  /** The last thing on record is a backend call for this confirmation. */
  ghost predicate CalledLast(trace: seq<Event>, rid: nat) {
    trace != [] && trace[|trace| - 1].BackendCalled? && trace[|trace| - 1].cid == Some(rid)
  }

  /** The backend was entered exactly once if the outcome says so, and otherwise not at all. */
  ghost predicate Entered(before: State, after: State, outcome: Outcome) {
    && before.trace <= after.trace
    && CallsIn(after.trace, |before.trace|) == if outcome == Ran || outcome == Broke then 1 else 0
  }

  /** The same, and then on behalf of this confirmation. */
  ghost predicate EnteredFor(before: State, after: State, rid: nat, outcome: Outcome) {
    Entered(before, after, outcome) && (outcome == Ran || outcome == Broke ==> CalledLast(after.trace, rid))
  }

  lemma NotEntered(start: State, end: State, rid: nat, outcome: Outcome)
    requires end.trace == start.trace && outcome != Ran && outcome != Broke
    ensures EnteredFor(start, end, rid, outcome)
  {
  }

  lemma EnteredSame(start: State, mid: State, end: State, rid: nat, outcome: Outcome)
    requires mid.trace == start.trace && EnteredFor(mid, end, rid, outcome)
    ensures EnteredFor(start, end, rid, outcome)
  {
  }

  lemma NotEnteredBut(start: State, end: State, rid: nat, outcome: Outcome, e: Event)
    requires end.trace == start.trace + [e] && !e.BackendCalled? && outcome != Ran && outcome != Broke
    ensures EnteredFor(start, end, rid, outcome)
  {
    CallsNone(start.trace, e);
  }

  lemma EnteredLater(start: State, mid: State, end: State, rid: nat, outcome: Outcome, e: Event)
    requires mid.trace == start.trace + [e] && !e.BackendCalled? && EnteredFor(mid, end, rid, outcome)
    ensures EnteredFor(start, end, rid, outcome)
  {
    CallsNone(start.trace, e);
    EnteredAfter(start, mid, end, outcome);
  }

  lemma EnteredAfter(start: State, mid: State, end: State, outcome: Outcome)
    requires start.trace <= mid.trace && CallsIn(mid.trace, |start.trace|) == 0 && Entered(mid, end, outcome)
    ensures Entered(start, end, outcome)
  {
    CallsAdd(end.trace, |start.trace|, |mid.trace|);
    assert end.trace[..|mid.trace|] == mid.trace;
  }

  lemma {:induction false} CallsAdd(trace: seq<Event>, n: nat, m: nat)
    requires n <= m <= |trace|
    ensures CallsIn(trace, n) == CallsIn(trace[..m], n) + CallsIn(trace, m)
    decreases |trace|
  {
    if m == |trace| {
      assert trace[..m] == trace;
    } else {
      CallsAdd(trace[..|trace| - 1], n, m);
      assert trace[..|trace| - 1][..m] == trace[..m];
    }
  }

  // ---- Single steps of the machine ----

  /** How many backend calls a trace has from position `n` on. */
  ghost function CallsIn(trace: seq<Event>, n: nat): nat
    requires n <= |trace|
    decreases |trace|
  {
    if n == |trace| then 0
    else CallsIn(trace[..|trace| - 1], n) + if trace[|trace| - 1].BackendCalled? then 1 else 0
  }

  lemma CallsMore(past: seq<Event>, trace: seq<Event>, e: Event)
    requires past <= trace
    ensures CallsIn(trace + [e], |past|) == CallsIn(trace, |past|) + if e.BackendCalled? then 1 else 0
  {
    assert (trace + [e])[..|trace|] == trace;
  }

  lemma CallsNone(trace: seq<Event>, e: Event)
    requires !e.BackendCalled?
    ensures CallsIn(trace, |trace|) == 0 && CallsIn(trace + [e], |trace|) == 0
  {
    CallsMore(trace, trace, e);
  }

  lemma Executes(cfg: Config, s: State, aid: nat, exec: nat, i: Intent, cid: Option<nat>, effect: Effect)
    requires aid in s.procs && s.procs[aid] == Proc(exec, Calling(i, cid))
    ensures var unheard := effect.success && Keyed(i.idempotencyKey) && !Replayed(s, exec, i.idempotencyKey);
            Run(cfg, s, CallLabels(aid, effect))
            == s.(procs := s.procs - {aid}, trace := s.trace + [BackendCalled(exec, aid, i, cid, effect.success)],
                  memory := if unheard then s.memory[exec := MemoryOf(s, exec) + {i.idempotencyKey.value}] else s.memory,
                  persisted := if unheard && effect.saved then s.persisted + [i.idempotencyKey.value] else s.persisted)
  {
    RunTwo(cfg, s, Call(aid, effect.success), Remember(aid, effect.saved));
    var s1 := StepCall(s, aid, effect.success);
    assert s1.procs[aid] == Proc(exec, Called(i, effect.success));
    assert s1.procs - {aid} == s.procs - {aid};
  }

  /** Permission to execute, then the queue or the backend. */
  lemma PermitsExecution(cfg: Config, s: State, aid: nat, exec: nat, i: Intent, permission: Permission, r: NewRecord, effect: Effect)
    requires aid in s.procs && s.procs[aid] == Proc(exec, Permitting(i))
    ensures var s1 := AfterPermission(s, aid, i, ExecuteAction, permission, if cfg.motor(exec) then Enqueuing(i) else Calling(i, None));
            Run(cfg, s, PermitLabels(aid, permission, r, effect))
            == if permission != Granted then s1
               else if cfg.motor(exec)
               then Finish(s1, aid).(trace := s1.trace + [Queued(exec, aid, i)], queue := s1.queue + [Ticket(exec, aid, i)])
               else Run(cfg, s1, CallLabels(aid, effect))
  {
    hide RecordFor, CallLabels, Run;
    var create := CreateRecord(aid, r.id, r.prompt, r.reason, r.now, r.ttl);
    RunAppend(cfg, s, [Permit(aid, permission), create, Enqueue(aid)], CallLabels(aid, effect));
    RunThree(cfg, s, Permit(aid, permission), create, Enqueue(aid));
    var s1 := Step(cfg, s, Permit(aid, permission));
    assert s1 == StepPermit(cfg, s, aid, permission);
    if permission != Granted || cfg.motor(exec) {
      NothingLeft(cfg, Step(cfg, Step(cfg, s1, create), Enqueue(aid)), aid, CallLabels(aid, effect));
    }
  }

  /** Permission to ask, then the record. */
  lemma PermitsAsking(cfg: Config, s: State, aid: nat, exec: nat, i: Intent, permission: Permission, r: NewRecord, effect: Effect)
    requires aid in s.procs && s.procs[aid] == Proc(exec, Asking(i)) && r.id !in s.table
    ensures var s1 := AfterPermission(s, aid, i, ConfirmAction, permission, Creating(i));
            var c := RecordFor(cfg.policy, i, r.id, r.prompt, r.reason, r.now, r.ttl);
            Run(cfg, s, PermitLabels(aid, permission, r, effect))
            == if permission != Granted then s1 else Finish(s1.(table := s1.table[r.id := c]), aid)
  {
    hide RecordFor, CallLabels, Run;
    RecordId(cfg, i, r);
    var create := CreateRecord(aid, r.id, r.prompt, r.reason, r.now, r.ttl);
    RunAppend(cfg, s, [Permit(aid, permission), create, Enqueue(aid)], CallLabels(aid, effect));
    RunThree(cfg, s, Permit(aid, permission), create, Enqueue(aid));
    var s1 := Step(cfg, s, Permit(aid, permission));
    assert s1 == StepPermit(cfg, s, aid, permission);
    NothingLeft(cfg, Step(cfg, Step(cfg, s1, create), Enqueue(aid)), aid, CallLabels(aid, effect));
  }

  lemma RecordId(cfg: Config, i: Intent, r: NewRecord)
    ensures RecordFor(cfg.policy, i, r.id, r.prompt, r.reason, r.now, r.ttl).id == r.id
  {
  }

  lemma AskLeaves(cfg: Config, before: Fields, exec: nat, aid: nat, i: Intent, r: NewRecord, effect: Effect)
    ensures var c := RecordFor(cfg.policy, i, r.id, r.prompt, r.reason, r.now, r.ttl);
            Leaves(cfg, before, before.(table := before.table[r.id := c]), PendingConfirmation, exec, aid, i, r, effect)
  {
    hide Reloaded, Stored;
  }

  lemma NothingLeaves(cfg: Config, before: Fields, outcome: Outcome, exec: nat, aid: nat, i: Intent, r: NewRecord, effect: Effect)
    requires outcome != QueuedOutcome && outcome != PendingConfirmation && outcome != Ran
    ensures Leaves(cfg, before, before, outcome, exec, aid, i, r, effect)
  {
  }

  lemma QueueLeaves(cfg: Config, before: Fields, exec: nat, aid: nat, i: Intent, r: NewRecord, effect: Effect)
    ensures Leaves(cfg, before, before.(tickets := before.tickets + [Ticket(exec, aid, i)]), QueuedOutcome, exec, aid, i, r, effect)
  {
  }

  lemma CallLeaves(cfg: Config, before: Fields, after: Fields, exec: nat, aid: nat, i: Intent, r: NewRecord, effect: Effect)
    requires after.tickets == before.tickets && after.table == before.table
    requires KeyKept(before, after, effect.success, i.idempotencyKey, effect)
    ensures Leaves(cfg, before, after, if effect.success then Ran else Broke, exec, aid, i, r, effect)
  {
  }

  lemma KeyThrough(before: Fields, mid: Fields, after: Fields, success: bool, key: Option<string>, effect: Effect)
    requires mid.keys == before.keys && mid.lines == before.lines && KeyKept(mid, after, success, key, effect)
    ensures KeyKept(before, after, success, key, effect)
  {
  }

  lemma NoKey(before: Fields, after: Fields, key: Option<string>, effect: Effect)
    requires after.keys == before.keys && after.lines == before.lines
    ensures KeyKept(before, after, false, key, effect)
  {
  }

  lemma NothingKept(before: Fields, key: Option<string>, t: Table, rid: nat, now: int, outcome: Outcome, effect: Effect)
    requires outcome != Ran && outcome != Broke
    ensures KeyKept(before, before, outcome == Ran, key, effect) && Consumes(t, t, rid, now, outcome)
  {
  }

  lemma NoneKept(cfg: Config, before: Fields, after: Fields, outcome: Outcome, rid: nat, effect: Effect)
    requires outcome != Ran && after == before.(table := after.table)
    ensures KeepsKeys(cfg, before, after, outcome, rid, effect)
  {
  }

  lemma NoKeyKept(cfg: Config, before: Fields, outcome: Outcome, rid: nat, effect: Effect)
    requires outcome != Ran
    ensures KeepsKeys(cfg, before, before, outcome, rid, effect)
  {
  }

  lemma VerdictRefuses(precheck: Option<Decision>, gates: seq<Decision>, confirm: Permission, execute: Permission, success: bool)
    ensures var verdict := if precheck.Some? then precheck.value.verdict else Composite(gates).verdict;
            !verdict.Allow? ==>
              VerdictEnds(if verdict.AskConfirmation? then StillRequired else if verdict.Deny? then DeniedOutcome else FailedOutcome,
                          precheck, gates, confirm, execute, success)
  {
    CompositeIsFirst(gates);
    hide Composite;
  }

  lemma VerdictAllows(outcome: Outcome, precheck: Option<Decision>, gates: seq<Decision>, confirm: Permission, execute: Permission,
                      success: bool)
    requires (if precheck.Some? then precheck.value.verdict else Composite(gates).verdict).Allow?
    requires GrantsEnd(outcome, confirm, execute, success)
    ensures VerdictEnds(outcome, precheck, gates, confirm, execute, success)
  {
    CompositeIsFirst(gates);
    hide Composite, GrantsEnd;
  }

  lemma HeldRefuses(cfg: Config, before: Fields, rid: nat, c: Confirmation, now: int, precheck: Option<Decision>,
                    gates: seq<Decision>, confirm: Permission, execute: Permission, effect: Effect)
    requires HeldRefusal(c, Rebuild(cfg.policy, c.snapshot), before.keys).Some?
    ensures HeldAnswers(cfg, HeldRefusal(c, Rebuild(cfg.policy, c.snapshot), before.keys).value, before, before, rid, c, now,
                        precheck, gates, confirm, execute, effect)
  {
    hide Rebuild, VerdictEnds;
  }

  lemma HeldGoesOn(cfg: Config, outcome: Outcome, before: Fields, after: Fields, rid: nat, c: Confirmation, now: int,
                   precheck: Option<Decision>, gates: seq<Decision>, confirm: Permission, execute: Permission, effect: Effect)
    requires HeldRefusal(c, Rebuild(cfg.policy, c.snapshot), before.keys).None? && after.tickets == before.tickets
    requires Claims(before.table, rid, now) ==>
               && VerdictEnds(outcome, precheck, gates, confirm, execute, effect.success)
               && Consumes(before.table, after.table, rid, now, outcome)
    requires Rebuild(cfg.policy, c.snapshot).Some?
             && KeyKept(before, after, outcome == Ran, Rebuild(cfg.policy, c.snapshot).value.idempotencyKey, effect)
    ensures HeldAnswers(cfg, outcome, before, after, rid, c, now, precheck, gates, confirm, execute, effect)
  {
    hide Rebuild, VerdictEnds, Consumes;
  }

  /** A pending record whose reply does not confirm it. */
  lemma RefusedAnswers(cfg: Config, outcome: Outcome, before: Fields, after: Fields, rid: nat, c: Confirmation, reply: Reply,
                       now: int, precheck: Option<Decision>, gates: seq<Decision>, confirm: Permission, execute: Permission,
                       effect: Effect)
    requires c.status == Pending && after == before.(table := after.table)
    requires var (u, r) := Resolve(before.table, rid, now, reply, None);
             && after.table == u && (r != ResolvedConfirmed || rid !in u)
             && outcome == if r == ResolvedConfirmed then FailedOutcome
                           else if r == ResolvedUnclear then PendingConfirmation else DeniedOutcome
    ensures FoundAnswers(cfg, outcome, before, after, rid, c, reply, now, precheck, gates, confirm, execute, effect)
  {
    if Standing(before.table, rid, c, now) {
      ReplyChanges(before.table, rid, now, reply, None);
      hide Resolve, IntentEnds;
    }
  }

  lemma HeldIsFound(cfg: Config, outcome: Outcome, before: Fields, after: Fields, rid: nat, c: Confirmation, reply: Reply,
                    now: int, precheck: Option<Decision>, gates: seq<Decision>, confirm: Permission, execute: Permission,
                    effect: Effect)
    requires c.status != Pending
    requires HeldAnswers(cfg, outcome, before, after, rid, c, now, precheck, gates, confirm, execute, effect)
    ensures FoundAnswers(cfg, outcome, before, after, rid, c, reply, now, precheck, gates, confirm, execute, effect)
  {
    hide IntentEnds, KeepsKeys;
  }

  /** A pending record whose reply confirms it. */
  lemma ConfirmedAnswers(cfg: Config, outcome: Outcome, before: Fields, mid: Fields, after: Fields, rid: nat, c: Confirmation,
                         reply: Reply, now: int, precheck: Option<Decision>, gates: seq<Decision>, confirm: Permission,
                         execute: Permission, effect: Effect)
    requires c.status == Pending && mid == before.(table := mid.table)
    requires Resolve(before.table, rid, now, reply, None) == (mid.table, ResolvedConfirmed) && rid in mid.table
    requires HeldAnswers(cfg, outcome, mid, after, rid, mid.table[rid], now, precheck, gates, confirm, execute, effect)
    ensures FoundAnswers(cfg, outcome, before, after, rid, c, reply, now, precheck, gates, confirm, execute, effect)
  {
    if Standing(before.table, rid, c, now) {
      var d := mid.table[rid];
      ConfirmedStands(before.table, mid.table, rid, c, reply, now);
      hide Resolve, KeepsKeys, IntentEnds, Consumes, Standing, Resolves;
      SameIntent(cfg, outcome, d, c, before.keys, precheck, gates, confirm, execute, effect.success);
      ConfirmedResolves(before.table, mid.table, after.table, rid, reply, now, outcome);
      KeepsThrough(cfg, before, mid, after, outcome, rid, effect);
    }
  }

  lemma ConfirmedStands(t: Table, mid: Table, rid: nat, c: Confirmation, reply: Reply, now: int)
    requires Standing(t, rid, c, now) && c.status == Pending
    requires Resolve(t, rid, now, reply, None) == (mid, ResolvedConfirmed)
    ensures reply.Confirms? && mid == t[rid := c.(status := ConfirmedOnce)] && Standing(mid, rid, mid[rid], now)
  {
    ReplyChanges(t, rid, now, reply, None);
    hide Resolve;
  }

  lemma ConfirmedResolves(t: Table, mid: Table, u: Table, rid: nat, reply: Reply, now: int, outcome: Outcome)
    requires rid in t && t[rid].status == Pending && Standing(t, rid, t[rid], now)
    requires reply.Confirms? && mid == t[rid := t[rid].(status := ConfirmedOnce)] && Consumes(mid, u, rid, now, outcome)
    ensures Resolves(t, u, rid, reply, now, outcome)
  {
  }

  lemma SameIntent(cfg: Config, outcome: Outcome, c: Confirmation, d: Confirmation, keys: set<string>, precheck: Option<Decision>,
                   gates: seq<Decision>, confirm: Permission, execute: Permission, success: bool)
    requires c.snapshot == d.snapshot && IntentEnds(cfg, outcome, c, keys, precheck, gates, confirm, execute, success)
    ensures IntentEnds(cfg, outcome, d, keys, precheck, gates, confirm, execute, success)
  {
    hide Rebuild, VerdictEnds;
  }

  lemma KeepsThrough(cfg: Config, before: Fields, mid: Fields, after: Fields, outcome: Outcome, rid: nat, effect: Effect)
    requires rid in before.table && rid in mid.table && mid.table[rid].snapshot == before.table[rid].snapshot
    requires before == mid.(table := before.table) && KeepsKeys(cfg, mid, after, outcome, rid, effect)
    ensures KeepsKeys(cfg, before, after, outcome, rid, effect)
  {
    hide Rebuild;
  }

  lemma ClaimTaken(t: Table, rid: nat, now: int)
    ensures var (u, won) := Claim(t, rid, now, {ActionConfirmation});
            && (won.Some? <==> Claims(t, rid, now))
            && (won.Some? ==> Consumes(t, u, rid, now, Ran) && Consumes(t, u, rid, now, Broke))
  {
    ClaimMeans(t, rid, now, {ActionConfirmation});
  }

  /** The first look at the record: what it refuses, and what stands otherwise. */
  lemma LookRefuses(t: Table, rid: nat, now: int)
    ensures var (u, found) := ExpireIfNeeded(t, rid, now);
            var refusal := LookUpRefusal(found);
            if refusal.Some? then
              && (refusal.value == DeniedOutcome || refusal.value == AlreadyExecuted)
              && (refusal.value == DeniedOutcome <==>
                    rid !in t || t[rid].expiresAt <= now || t[rid].status == Expired || t[rid].kind != ActionConfirmation)
              && (refusal.value == AlreadyExecuted ==> t[rid].consumedAt.Some?)
              && u == if rid in t && t[rid].expiresAt <= now then t[rid := t[rid].(status := Expired)] else t
            else u == t && Looked(t, rid, found, now)
  {
  }

  lemma RefusedResolves(t: Table, rid: nat, reply: Reply, now: int, outcome: Outcome)
    requires outcome == DeniedOutcome || outcome == AlreadyExecuted
    requires rid in t && now < t[rid].expiresAt && t[rid].status == Pending ==> t[rid].kind != ActionConfirmation || t[rid].consumedAt.Some?
    ensures Resolves(t, if rid in t && t[rid].expiresAt <= now then t[rid := t[rid].(status := Expired)] else t, rid, reply, now, outcome)
  {
  }

  lemma RefusedEnds(cfg: Config, outcome: Outcome, t: Table, rid: nat, reply: Reply, now: int, keys: set<string>,
                    precheck: Option<Decision>, gates: seq<Decision>, confirm: Permission, execute: Permission, success: bool)
    requires if rid !in t || t[rid].expiresAt <= now || t[rid].status == Expired || t[rid].kind != ActionConfirmation
             then outcome == DeniedOutcome else outcome == AlreadyExecuted && t[rid].consumedAt.Some?
    ensures ResumeEnds(cfg, outcome, t, rid, reply, now, keys, precheck, gates, confirm, execute, success)
  {
    hide FoundEnds;
  }

  lemma FirstLook(cfg: Config, before: Fields, rid: nat, reply: Reply, now: int, precheck: Option<Decision>, gates: seq<Decision>,
                  confirm: Permission, execute: Permission, effect: Effect)
    ensures var (u, found) := ExpireIfNeeded(before.table, rid, now);
            var refusal := LookUpRefusal(found);
            if refusal.Some? then
              ResumeAnswers(cfg, refusal.value, before, before.(table := u), rid, reply, now, precheck, gates, confirm, execute, effect)
            else u == before.table && Looked(u, rid, found, now)
  {
    LookRefuses(before.table, rid, now);
    hide KeepsKeys, Resolves, ResumeEnds, ExpireIfNeeded, LookUpRefusal, Looked;
    var (u, found) := ExpireIfNeeded(before.table, rid, now);
    var refusal := LookUpRefusal(found);
    if refusal.Some? {
      NoneKept(cfg, before, before.(table := u), refusal.value, rid, effect);
      RefusedResolves(before.table, rid, reply, now, refusal.value);
      RefusedEnds(cfg, refusal.value, before.table, rid, reply, now, before.keys, precheck, gates, confirm, execute, effect.success);
    }
  }

  predicate Looked(t: Table, rid: nat, found: Option<Confirmation>, now: int) {
    rid in t && found == Some(t[rid]) && Standing(t, rid, t[rid], now) && t[rid].status != Expired
  }

  lemma FoundIsResumed(cfg: Config, outcome: Outcome, before: Fields, after: Fields, rid: nat, reply: Reply, now: int,
                       precheck: Option<Decision>, gates: seq<Decision>, confirm: Permission, execute: Permission, effect: Effect)
    requires rid in before.table && Looked(before.table, rid, Some(before.table[rid]), now)
    requires FoundAnswers(cfg, outcome, before, after, rid, before.table[rid], reply, now, precheck, gates, confirm, execute, effect)
    ensures ResumeAnswers(cfg, outcome, before, after, rid, reply, now, precheck, gates, confirm, execute, effect)
  {
    hide FoundEnds, Resolves, KeepsKeys;
  }

  /** The composite decision is the first refusal. */
  lemma CompositeIsFirst(gates: seq<Decision>)
    ensures var first := FirstRefusal(gates, 0);
            if first < |gates| then Composite(gates) == gates[first] else Composite(gates).verdict.Allow?
  {
  }

  lemma Begins(cfg: Config, s: State, aid: nat, exec: nat, i: Intent)
    requires aid !in s.used && aid !in s.procs
    ensures Run(cfg, s, [Label.Submit(aid, exec, i), Check(aid)])
         == s.(used := s.used + {aid},
               procs := if Replayed(s, exec, i.idempotencyKey) then s.procs else s.procs[aid := Proc(exec, Simulating(i))])
  {
    RunTwo(cfg, s, Label.Submit(aid, exec, i), Check(aid));
    var s1 := Spawn(s, aid, exec, Submitted(i));
    assert s1.procs - {aid} == s.procs;
    assert Step(cfg, s, Label.Submit(aid, exec, i)) == s1;
    assert Step(cfg, s1, Check(aid)) == StepCheck(cfg, s1, aid);
  }

  lemma Simulates(cfg: Config, s: State, aid: nat, exec: nat, i: Intent, sim: Simulation)
    requires aid in s.procs && s.procs[aid] == Proc(exec, Simulating(i))
    ensures var s1 := Emit(s, SimulationSaid(aid, Traced(i, sim), sim));
            Run(cfg, s, [Simulate(aid, sim)])
            == if sim.SimBlocks? then Finish(s1, aid) else Goto(s1, aid, Gating(Traced(i, sim), sim.SimAsks?))
  {
    RunOne(cfg, s, Simulate(aid, sim));
  }

  lemma Gates(cfg: Config, s: State, aid: nat, exec: nat, i: Intent, asks: bool, gates: seq<Decision>)
    requires aid in s.procs && s.procs[aid] == Proc(exec, Gating(i, asks))
    ensures var s1 := Emit(s, GatesSaid(aid, i, gates));
            var verdict := Composite(gates).verdict;
            Run(cfg, s, [Gate(aid, gates)])
            == if verdict.Allow? && !asks then Goto(s1, aid, Permitting(i))
               else if verdict.Allow? || verdict.AskConfirmation? then Goto(s1, aid, Asking(i))
               else Finish(s1, aid)
  {
    hide Composite;
    RunOne(cfg, s, Gate(aid, gates));
  }

  lemma Dispatches(cfg: Config, s: State, k: nat)
    requires k < |s.queue|
    ensures Run(cfg, s, [Dispatch(k)])
         == s.(queue := s.queue[..k] + s.queue[k + 1..],
               procs := s.procs[s.queue[k].aid := Proc(s.queue[k].exec, Calling(s.queue[k].intent, None))])
  {
    RunOne(cfg, s, Dispatch(k));
  }

  lemma ResumeBegins(cfg: Config, s: State, aid: nat, exec: nat, rid: nat, reply: Reply, now: int)
    requires aid !in s.used && aid !in s.procs
    ensures var (t, found) := ExpireIfNeeded(s.table, rid, now);
            Run(cfg, s, [Label.Resume(aid, exec, rid, reply, now), ExpireFirst(aid)])
            == s.(used := s.used + {aid}, table := t,
                  procs := if found.None? || found.value.status == Expired || found.value.kind != ActionConfirmation
                              || found.value.consumedAt.Some? then s.procs
                           else s.procs[aid := Proc(exec, if found.value.status == Pending then Replying(rid, reply, now)
                                                          else Holding(rid, now, found.value))])
  {
    hide ExpireIfNeeded, Run;
    RunTwo(cfg, s, Label.Resume(aid, exec, rid, reply, now), ExpireFirst(aid));
    var s1 := Spawn(s, aid, exec, Resuming(rid, reply, now));
    assert s1.procs - {aid} == s.procs;
    assert Step(cfg, s, Label.Resume(aid, exec, rid, reply, now)) == s1;
    assert Step(cfg, s1, ExpireFirst(aid)) == StepExpireFirst(s1, aid);
  }

  /** A confirmation that is no longer pending is not answered or read again. */
  lemma AnswersNothing(cfg: Config, s: State, aid: nat, exec: nat, rid: nat, now: int, c: Confirmation, rest: seq<Label>)
    requires aid in s.procs && s.procs[aid] == Proc(exec, Holding(rid, now, c))
    ensures Run(cfg, s, [Answer(aid), Reread(aid)] + rest) == Run(cfg, s, rest)
  {
    hide Run;
    RunAppend(cfg, s, [Answer(aid), Reread(aid)], rest);
    RunTwo(cfg, s, Answer(aid), Reread(aid));
  }

  lemma Answers(cfg: Config, s: State, aid: nat, exec: nat, rid: nat, reply: Reply, now: int)
    requires aid in s.procs && s.procs[aid] == Proc(exec, Replying(rid, reply, now))
    ensures var (t, r) := Resolve(s.table, rid, now, reply, None);
            Run(cfg, s, [Answer(aid), Reread(aid)])
            == if r == ResolvedConfirmed && rid in t then Goto(s.(table := t), aid, Holding(rid, now, t[rid]))
               else Finish(s.(table := t), aid)
  {
    hide Resolve, Run;
    RunTwo(cfg, s, Answer(aid), Reread(aid));
    var s1 := Step(cfg, s, Answer(aid));
    assert s1 == StepAnswer(s, aid);
    var (t, r) := Resolve(s.table, rid, now, reply, None);
    if r == ResolvedConfirmed {
      assert s1.procs[aid] == Proc(exec, Rereading(rid, now));
      assert Step(cfg, s1, Reread(aid)) == StepReread(s1, aid);
      assert s1.procs - {aid} == s.procs - {aid};
    }
  }

  lemma Holds(cfg: Config, s: State, aid: nat, exec: nat, rid: nat, now: int, c: Confirmation)
    requires aid in s.procs && s.procs[aid] == Proc(exec, Holding(rid, now, c))
    ensures var rebuilt := Rebuild(cfg.policy, c.snapshot);
            Run(cfg, s, [Check(aid)])
            == if c.status == ConfirmedOnce && c.consumedAt.None? && rebuilt.Some?
                  && !Replayed(s, exec, rebuilt.value.idempotencyKey)
               then Goto(s, aid, Deciding(rid, now, rebuilt.value)) else Finish(s, aid)
  {
    hide Rebuild;
    RunOne(cfg, s, Check(aid));
  }

  lemma Decides(cfg: Config, s: State, aid: nat, exec: nat, rid: nat, now: int, i: Intent, precheck: Option<Decision>,
                gates: seq<Decision>)
    requires aid in s.procs && s.procs[aid] == Proc(exec, Deciding(rid, now, i))
    ensures var s1 := Emit(s, ResumeDecided(aid, i, precheck, gates));
            var verdict := if precheck.Some? then precheck.value.verdict else Composite(gates).verdict;
            Run(cfg, s, [Decide(aid, precheck, gates)])
            == if verdict.Allow? then Goto(s1, aid, Confirming(rid, now, i)) else Finish(s1, aid)
  {
    hide Composite;
    RunOne(cfg, s, Decide(aid, precheck, gates));
  }

  /** Both permissions, and the claim only after both. */
  lemma PermitsConfirming(cfg: Config, s: State, aid: nat, exec: nat, rid: nat, now: int, i: Intent, confirm: Permission,
                          execute: Permission, effect: Effect)
    requires aid in s.procs && s.procs[aid] == Proc(exec, Confirming(rid, now, i))
    ensures var s1 := AfterPermission(s, aid, i, ConfirmAction, confirm, Executing(rid, now, i));
            Run(cfg, s, GrantLabels(aid, confirm, execute, effect))
            == if confirm != Granted then s1
               else
                 var s2 := AfterPermission(s1, aid, i, ExecuteAction, execute, Claiming(rid, now, i));
                 if execute != Granted then s2 else Run(cfg, s2, ClaimLabels(aid, effect))
  {
    hide Run;
    RunAppend(cfg, s, [Permit(aid, confirm), Permit(aid, execute)], ClaimLabels(aid, effect));
    RunTwo(cfg, s, Permit(aid, confirm), Permit(aid, execute));
    var s1 := Step(cfg, s, Permit(aid, confirm));
    assert s1 == StepPermit(cfg, s, aid, confirm);
    var s2 := Step(cfg, s1, Permit(aid, execute));
    if confirm != Granted || execute != Granted {
      NothingLeft(cfg, s2, aid, ClaimLabels(aid, effect));
    }
  }

  lemma TakesClaim(cfg: Config, s: State, aid: nat, exec: nat, rid: nat, now: int, i: Intent)
    requires aid in s.procs && s.procs[aid] == Proc(exec, Claiming(rid, now, i))
    ensures var (t, won) := Claim(s.table, rid, now, {ActionConfirmation});
            Run(cfg, s, [TakeClaim(aid)])
            == if won.None? then Finish(s.(table := t), aid)
               else Goto(Emit(s.(table := t), ClaimWon(aid, rid)), aid, Calling(i, Some(rid)))
  {
    hide Claim;
    RunOne(cfg, s, TakeClaim(aid));
  }

  lemma RunTwo(cfg: Config, s: State, a: Label, b: Label)
    ensures Run(cfg, s, [a, b]) == Step(cfg, Step(cfg, s, a), b)
  {
    hide Step;
    assert [a, b][1..] == [b] && [b][1..] == [];
    assert Run(cfg, Step(cfg, s, a), [b]) == Run(cfg, Step(cfg, Step(cfg, s, a), b), []);
  }

  lemma RunThree(cfg: Config, s: State, a: Label, b: Label, c: Label)
    ensures Run(cfg, s, [a, b, c]) == Step(cfg, Step(cfg, Step(cfg, s, a), b), c)
  {
    hide Step;
    assert [a, b, c][1..] == [b, c];
    RunTwo(cfg, Step(cfg, s, a), b, c);
  }

  lemma RunOne(cfg: Config, s: State, a: Label)
    ensures Run(cfg, s, [a]) == Step(cfg, s, a)
  {
    hide Step;
    assert [a][1..] == [];
  }
}
