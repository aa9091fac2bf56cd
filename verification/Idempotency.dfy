/** Replay protection: what the remembered keys guarantee, with and without a motor queue. */
module Idempotency {
  import opened Actions
  import opened Confirmations
  import opened IntentSnapshot
  import opened ActionProtocol

  /** The claim of a resumption that goes by the time `now` may yet be won. */
  predicate Winnable(t: Table, rid: nat, now: int) {
    rid in t ==>
      && !Lapsed(t[rid], now) && t[rid].kind == ActionConfirmation && t[rid].consumedAt.None?
      && (t[rid].status == Pending || t[rid].status == ConfirmedOnce)
  }

  /** The intent of a process that is past its replay check and may yet call the backend. */
  function PastCheck(t: Table, point: Point): Option<Intent> {
    match point
    case Simulating(i) => Some(i)
    case Gating(i, asks) => if asks then None else Some(i)
    case Permitting(i) => Some(i)
    case Enqueuing(i) => Some(i)
    case Calling(i, _) => Some(i)
    case Deciding(rid, now, i) => if Winnable(t, rid, now) then Some(i) else None
    case Confirming(rid, now, i) => if Winnable(t, rid, now) then Some(i) else None
    case Executing(rid, now, i) => if Winnable(t, rid, now) then Some(i) else None
    case Claiming(rid, now, i) => if Winnable(t, rid, now) then Some(i) else None
    case _ => None
  }

  /** The process may go on to carry out something under this key. */
  predicate Carries(t: Table, point: Point, key: string) {
    PastCheck(t, point).Some? && PastCheck(t, point).value.idempotencyKey == Some(key)
  }

  /** What cannot be claimed any more stays so. */
  ghost predicate NothingReopened(t: Table, u: Table) {
    forall rid, now :: Winnable(u, rid, now) ==> Winnable(t, rid, now)
  }

  lemma OpReopensNothing(t: Table, op: Op)
    requires Legal(t, op)
    ensures NothingReopened(t, Apply(t, op))
  {
    StepEvolves(t, op);
    hide Apply;
    forall rid, now | Winnable(Apply(t, op), rid, now) ensures Winnable(t, rid, now) {
      if rid in t { assert Evolves(t[rid], Apply(t, op)[rid]); }
    }
  }

  predicate Success(e: Event, key: string) {
    e.BackendCalled? && e.success && e.intent.idempotencyKey == Some(key)
  }

  /** A successful call under this key is not remembered yet. */
  predicate Unremembered(point: Point, key: string) {
    point.Called? && point.success && point.intent.idempotencyKey == Some(key)
  }

  // ---- The steps that neither call, queue nor remember ----

  predicate Silent(e: Event) {
    !e.BackendCalled? && !e.Queued?
  }

  /** `u` is `s` with other confirmations and a longer trace in which nothing was called or queued. */
  ghost predicate Aside(s: State, u: State) {
    && u == s.(table := u.table, trace := u.trace) && NothingReopened(s.table, u.table)
    && s.trace <= u.trace && forall k :: |s.trace| <= k < |u.trace| ==> Silent(u.trace[k])
  }

  /** The keys that a point carries were carried before, or just passed the replay check. */
  ghost predicate KeysFrom(s: State, aid: nat, point: Point)
    requires aid in s.procs
  {
    forall key :: key != "" && Carries(s.table, point, key) ==>
      Carries(s.table, s.procs[aid].point, key) || key !in MemoryOf(s, s.procs[aid].exec)
  }

  /** The process ends, moves on or stays. */
  ghost predicate Plain(cfg: Config, s: State, u: State, aid: nat)
    requires aid in s.procs
  {
    && !s.procs[aid].point.Called?
    && Aside(s.(procs := u.procs), u)
    && (u.procs == s.procs - {aid} || u.procs == s.procs
        || (&& aid in u.procs && u.procs == s.procs[aid := Proc(s.procs[aid].exec, u.procs[aid].point)]
            && !u.procs[aid].point.Called? && KeysFrom(s, aid, u.procs[aid].point)
            && (u.procs[aid].point.Enqueuing? ==> cfg.motor(s.procs[aid].exec))))
  }

  lemma PlainFinish(cfg: Config, s: State, s1: State, aid: nat)
    requires aid in s.procs && !s.procs[aid].point.Called? && Aside(s, s1)
    ensures Plain(cfg, s, Finish(s1, aid), aid)
  {
  }

  lemma PlainGoto(cfg: Config, s: State, s1: State, aid: nat, point: Point)
    requires aid in s.procs && !s.procs[aid].point.Called? && Aside(s, s1)
    requires !point.Called? && KeysFrom(s, aid, point) && (point.Enqueuing? ==> cfg.motor(s.procs[aid].exec))
    ensures Plain(cfg, s, Goto(s1, aid, point), aid)
  {
  }

  lemma PlainStay(cfg: Config, s: State, aid: nat)
    requires aid in s.procs && !s.procs[aid].point.Called?
    ensures Plain(cfg, s, s, aid)
  {
  }

  lemma CheckPlain(cfg: Config, s: State, aid: nat)
    requires aid in s.procs && !s.procs[aid].point.Called?
    ensures Plain(cfg, s, StepCheck(cfg, s, aid), aid)
  {
    if s.procs[aid].point.Submitted? {
      CheckSubmitted(cfg, s, aid);
    } else if s.procs[aid].point.Holding? {
      CheckHolding(cfg, s, aid);
    } else {
      hide Rebuild;
      PlainStay(cfg, s, aid);
    }
  }

  lemma CheckSubmitted(cfg: Config, s: State, aid: nat)
    requires aid in s.procs && s.procs[aid].point.Submitted?
    ensures Plain(cfg, s, StepCheck(cfg, s, aid), aid)
  {
    hide Plain, Rebuild, Winnable;
    var i := s.procs[aid].point.intent;
    PlainFinish(cfg, s, s, aid);
    if !Replayed(s, s.procs[aid].exec, i.idempotencyKey) {
      PlainGoto(cfg, s, s, aid, Simulating(i));
    }
  }

  lemma CheckHolding(cfg: Config, s: State, aid: nat)
    requires aid in s.procs && s.procs[aid].point.Holding?
    ensures Plain(cfg, s, StepCheck(cfg, s, aid), aid)
  {
    hide Plain, Rebuild, Winnable;
    var point := s.procs[aid].point;
    var r := Rebuild(cfg.policy, point.copy.snapshot);
    PlainFinish(cfg, s, s, aid);
    if r.Some? && !Replayed(s, s.procs[aid].exec, r.value.idempotencyKey) {
      PlainGoto(cfg, s, s, aid, Deciding(point.rid, point.now, r.value));
    }
  }

  lemma SimulatePlain(cfg: Config, s: State, aid: nat, sim: Simulation)
    requires aid in s.procs && !s.procs[aid].point.Called?
    ensures Plain(cfg, s, StepSimulate(s, aid, sim), aid)
  {
    PlainStay(cfg, s, aid);
    hide Plain;
    if s.procs[aid].point.Simulating? {
      var i := Traced(s.procs[aid].point.intent, sim);
      var s1 := Emit(s, SimulationSaid(aid, i, sim));
      PlainFinish(cfg, s, s1, aid);
      PlainGoto(cfg, s, s1, aid, Gating(i, sim.SimAsks?));
    }
  }

  lemma GatePlain(cfg: Config, s: State, aid: nat, gates: seq<Decision>)
    requires aid in s.procs && !s.procs[aid].point.Called?
    ensures Plain(cfg, s, StepGate(s, aid, gates), aid)
  {
    PlainStay(cfg, s, aid);
    hide Plain, Composite;
    var point := s.procs[aid].point;
    if point.Gating? {
      var s1 := Emit(s, GatesSaid(aid, point.intent, gates));
      PlainFinish(cfg, s, s1, aid);
      PlainGoto(cfg, s, s1, aid, Asking(point.intent));
      if !point.asks {
        PlainGoto(cfg, s, s1, aid, Permitting(point.intent));
      }
    }
  }

  lemma PermissionPlain(cfg: Config, s: State, aid: nat, i: Intent, asked: Asked, permission: Permission, next: Point)
    requires aid in s.procs && !s.procs[aid].point.Called?
    requires !next.Called? && KeysFrom(s, aid, next) && (next.Enqueuing? ==> cfg.motor(s.procs[aid].exec))
    ensures Plain(cfg, s, AfterPermission(s, aid, i, asked, permission, next), aid)
  {
    hide Plain, KeysFrom;
    var s1 := Emit(s, PermissionSaid(aid, i, asked, permission));
    PlainFinish(cfg, s, s1, aid);
    PlainGoto(cfg, s, s1, aid, next);
  }

  lemma PermitPlain(cfg: Config, s: State, aid: nat, permission: Permission)
    requires aid in s.procs && !s.procs[aid].point.Called?
    ensures Plain(cfg, s, StepPermit(cfg, s, aid, permission), aid)
  {
    PlainStay(cfg, s, aid);
    hide Plain, AfterPermission;
    match s.procs[aid].point
    case Permitting(i) =>
      PermissionPlain(cfg, s, aid, i, ExecuteAction, permission,
                      if cfg.motor(s.procs[aid].exec) then Enqueuing(i) else Calling(i, None));
    case Asking(i) => PermissionPlain(cfg, s, aid, i, ConfirmAction, permission, Creating(i));
    case Confirming(rid, now, i) => PermissionPlain(cfg, s, aid, i, ConfirmAction, permission, Executing(rid, now, i));
    case Executing(rid, now, i) => PermissionPlain(cfg, s, aid, i, ExecuteAction, permission, Claiming(rid, now, i));
    case _ =>
  }

  lemma CreatePlain(cfg: Config, s: State, aid: nat, newId: nat, prompt: string, reason: string, now: int, ttl: nat)
    requires aid in s.procs && !s.procs[aid].point.Called?
    ensures Plain(cfg, s, StepCreate(cfg, s, aid, newId, prompt, reason, now, ttl), aid)
  {
    PlainStay(cfg, s, aid);
    hide Plain, RecordFor;
    if s.procs[aid].point.Creating? {
      var record := RecordFor(cfg.policy, s.procs[aid].point.intent, newId, prompt, reason, now, ttl);
      if newId !in s.table {
        OpReopensNothing(s.table, DoCreate(record));
        PlainFinish(cfg, s, s.(table := Create(s.table, record)), aid);
      }
    }
  }

  lemma ExpireFirstPlain(cfg: Config, s: State, aid: nat)
    requires aid in s.procs && !s.procs[aid].point.Called?
    ensures Plain(cfg, s, StepExpireFirst(s, aid), aid)
  {
    PlainStay(cfg, s, aid);
    hide Plain, ExpireIfNeeded;
    var point := s.procs[aid].point;
    if point.Resuming? {
      var (t, found) := ExpireIfNeeded(s.table, point.rid, point.now);
      OpReopensNothing(s.table, DoExpire(point.rid, point.now));
      PlainFinish(cfg, s, s.(table := t), aid);
      PlainGoto(cfg, s, s.(table := t), aid, Replying(point.rid, point.reply, point.now));
      if found.Some? {
        PlainGoto(cfg, s, s.(table := t), aid, Holding(point.rid, point.now, found.value));
      }
    }
  }

  lemma AnswerPlain(cfg: Config, s: State, aid: nat)
    requires aid in s.procs && !s.procs[aid].point.Called?
    ensures Plain(cfg, s, StepAnswer(s, aid), aid)
  {
    PlainStay(cfg, s, aid);
    hide Plain, Resolve;
    var point := s.procs[aid].point;
    if point.Replying? {
      var (t, r) := Resolve(s.table, point.rid, point.now, point.reply, None);
      OpReopensNothing(s.table, DoResolve(point.rid, point.now, point.reply, None));
      PlainFinish(cfg, s, s.(table := t), aid);
      PlainGoto(cfg, s, s.(table := t), aid, Rereading(point.rid, point.now));
    }
  }

  lemma RereadPlain(cfg: Config, s: State, aid: nat)
    requires aid in s.procs && !s.procs[aid].point.Called?
    ensures Plain(cfg, s, StepReread(s, aid), aid)
  {
    PlainStay(cfg, s, aid);
    hide Plain;
    var point := s.procs[aid].point;
    if point.Rereading? {
      PlainFinish(cfg, s, s, aid);
      if point.rid in s.table {
        PlainGoto(cfg, s, s, aid, Holding(point.rid, point.now, s.table[point.rid]));
      }
    }
  }

  lemma DecidePlain(cfg: Config, s: State, aid: nat, precheck: Option<Decision>, gates: seq<Decision>)
    requires aid in s.procs && !s.procs[aid].point.Called?
    ensures Plain(cfg, s, StepDecide(s, aid, precheck, gates), aid)
  {
    PlainStay(cfg, s, aid);
    hide Plain, ResumeVerdict;
    var point := s.procs[aid].point;
    if point.Deciding? {
      var s1 := Emit(s, ResumeDecided(aid, point.intent, precheck, gates));
      PlainFinish(cfg, s, s1, aid);
      PlainGoto(cfg, s, s1, aid, Confirming(point.rid, point.now, point.intent));
    }
  }

  lemma WonWasWinnable(t: Table, rid: nat, now: int)
    requires Claim(t, rid, now, {ActionConfirmation}).1.Some?
    ensures Winnable(t, rid, now)
  {
  }

  lemma ClaimPlain(cfg: Config, s: State, aid: nat)
    requires aid in s.procs && !s.procs[aid].point.Called?
    ensures Plain(cfg, s, StepClaim(s, aid), aid)
  {
    PlainStay(cfg, s, aid);
    hide Plain, Claim;
    var point := s.procs[aid].point;
    if point.Claiming? {
      var (t, won) := Claim(s.table, point.rid, point.now, {ActionConfirmation});
      var s1 := s.(table := t);
      OpReopensNothing(s.table, DoClaim(point.rid, point.now, {ActionConfirmation}));
      PlainFinish(cfg, s, s1, aid);
      if won.Some? {
        WonWasWinnable(s.table, point.rid, point.now);
        PlainGoto(cfg, s, Emit(s1, ClaimWon(aid, point.rid)), aid, Calling(point.intent, Some(point.rid)));
      }
    }
  }

  predicate Working(l: Label) {
    l.Check? || l.Simulate? || l.Gate? || l.Permit? || l.CreateRecord? || l.ExpireFirst? || l.Answer? || l.Reread?
    || l.Decide? || l.TakeClaim?
  }

  /** Only calling, queueing, remembering and crashing are not plain. */
  lemma StepPlain(cfg: Config, s: State, l: Label)
    requires Working(l) && l.aid in s.procs && !s.procs[l.aid].point.Called?
    ensures Plain(cfg, s, StepProc(cfg, s, l), l.aid)
  {
    hide Plain, StepCheck, StepSimulate, StepGate, StepPermit, StepCreate, StepExpireFirst, StepAnswer, StepReread;
    hide StepDecide, StepClaim;
    match l
    case Check(aid) => CheckPlain(cfg, s, aid);
    case Simulate(aid, sim) => SimulatePlain(cfg, s, aid, sim);
    case Gate(aid, gates) => GatePlain(cfg, s, aid, gates);
    case Permit(aid, permission) => PermitPlain(cfg, s, aid, permission);
    case CreateRecord(aid, newId, prompt, reason, now, ttl) => CreatePlain(cfg, s, aid, newId, prompt, reason, now, ttl);
    case ExpireFirst(aid) => ExpireFirstPlain(cfg, s, aid);
    case Answer(aid) => AnswerPlain(cfg, s, aid);
    case Reread(aid) => RereadPlain(cfg, s, aid);
    case Decide(aid, precheck, gates) => DecidePlain(cfg, s, aid, precheck, gates);
    case TakeClaim(aid) => ClaimPlain(cfg, s, aid);
  }

  /** A process that has called the backend waits for nothing but its result to be remembered. */
  lemma CalledWaits(cfg: Config, s: State, l: Label)
    requires Working(l) && l.aid in s.procs && s.procs[l.aid].point.Called?
    ensures StepProc(cfg, s, l) == s
  {
    hide Rebuild, Composite, RecordFor, ExpireIfNeeded, Resolve, Claim, AfterPermission;
  }

  // ---- One call at a time, no motor queue ----

  /** Labels of runs in which calls to the executor do not overlap, every success is remembered and saved before
      the process can die, and a restart loads all the saved keys. */
  predicate Alone(cfg: Config, s: State, l: Label) {
    match l
    case Submit(_, exec, _) => exec == 0 && s.procs == map[]
    case Resume(_, exec, _, _, _) => exec == 0 && s.procs == map[]
    case Remember(_, saved) => saved
    case Crash(aid) => aid in s.procs ==> !s.procs[aid].point.Called?
    case Restart(exec) =>
      && exec == 0 && (cfg.maxLoaded == 0 || |s.persisted| <= cfg.maxLoaded)
      && forall a :: a in s.procs ==> !s.procs[a].point.Called?
    case _ => true
  }

  predicate Sequential(cfg: Config, s: State, labels: seq<Label>)
    decreases |labels|
  {
    labels == [] || (Alone(cfg, s, labels[0]) && Sequential(cfg, Step(cfg, s, labels[0]), labels[1..]))
  }

  /** A key that succeeded is remembered, or about to be. */
  ghost predicate Held(s: State, key: string) {
    key in MemoryOf(s, 0) || exists a :: a in s.procs && Unremembered(s.procs[a].point, key)
  }

  ghost predicate SuccessesHeld(s: State) {
    forall k, key :: 0 <= k < |s.trace| && key != "" && Success(s.trace[k], key) ==> Held(s, key)
  }

  predicate Twice(e: Event, f: Event) {
    e.BackendCalled? && f.BackendCalled? && Keyed(e.intent.idempotencyKey)
    && e.intent.idempotencyKey == f.intent.idempotencyKey && e.success && f.success
  }

  ghost predicate NeverTwice(trace: seq<Event>) {
    forall k, l :: 0 <= k < l < |trace| ==> !Twice(trace[k], trace[l])
  }

  ghost predicate Single(s: State) {
    && (forall a, b :: a in s.procs && b in s.procs ==> a == b)
    && (forall a :: a in s.procs ==> s.procs[a].exec == 0 && !s.procs[a].point.Enqueuing?)
    && s.queue == []
  }

  ghost predicate NoneRemembered(s: State) {
    forall a, key :: a in s.procs && key != "" && Carries(s.table, s.procs[a].point, key) ==> key !in MemoryOf(s, 0)
  }

  ghost predicate AllSaved(s: State) {
    forall key :: key in MemoryOf(s, 0) && key != "" ==> key in s.persisted
  }

  ghost predicate SeqInv(s: State) {
    Single(s) && SuccessesHeld(s) && NoneRemembered(s) && AllSaved(s) && NeverTwice(s.trace)
  }

  lemma SilentTrace(s: State, u: State)
    requires SuccessesHeld(s) && NeverTwice(s.trace)
    requires s.trace <= u.trace && forall k :: |s.trace| <= k < |u.trace| ==> Silent(u.trace[k])
    requires forall key :: key != "" && Held(s, key) ==> Held(u, key)
    ensures SuccessesHeld(u) && NeverTwice(u.trace)
  {
    assert forall k :: 0 <= k < |s.trace| ==> u.trace[k] == s.trace[k];
  }

  lemma PlainKeepsSeq(cfg: Config, s: State, u: State, aid: nat)
    requires SeqInv(s) && !cfg.motor(0) && aid in s.procs && Plain(cfg, s, u, aid)
    ensures SeqInv(u)
  {
    assert MemoryOf(u, 0) == MemoryOf(s, 0);
    forall key | key != "" && Held(s, key) ensures Held(u, key) {
    }
    SilentTrace(s, u);
  }

  lemma SpawnKeepsSeq(s: State, aid: nat, point: Point)
    requires SeqInv(s) && s.procs == map[] && (point.Submitted? || point.Resuming?)
    ensures SeqInv(Spawn(s, aid, 0, point))
  {
    SilentTrace(s, Spawn(s, aid, 0, point));
  }

  lemma CallKeepsSeq(s: State, aid: nat, success: bool)
    requires SeqInv(s) && aid in s.procs
    ensures SeqInv(StepCall(s, aid, success))
  {
    var point := s.procs[aid].point;
    if point.Calling? {
      var u := StepCall(s, aid, success);
      var key := point.intent.idempotencyKey;
      forall k | 0 <= k < |s.trace| ensures !Twice(s.trace[k], u.trace[|s.trace|]) {
        if Keyed(key) && Success(s.trace[k], key.value) {
          assert Held(s, key.value);
          assert Carries(s.table, point, key.value);
        }
      }
      forall k, q | 0 <= k < |u.trace| && q != "" && Success(u.trace[k], q) ensures Held(u, q) {
        if k < |s.trace| {
          assert Held(s, q);
        } else {
          assert Unremembered(u.procs[aid].point, q);
        }
      }
    }
  }

  lemma RememberKeepsSeq(s: State, aid: nat)
    requires SeqInv(s) && aid in s.procs
    ensures SeqInv(StepRemember(s, aid, true))
  {
    var u := StepRemember(s, aid, true);
    if s.procs[aid].point.Called? {
      forall key | key != "" && Held(s, key) ensures Held(u, key) {
      }
      SilentTrace(s, u);
    }
  }

  lemma DropKeepsSeq(s: State, u: State)
    requires SeqInv(s) && u == s.(procs := u.procs) && u.procs.Keys <= s.procs.Keys
    requires forall a :: a in u.procs ==> u.procs[a] == s.procs[a]
    requires forall a :: a in s.procs && a !in u.procs ==> !s.procs[a].point.Called?
    ensures SeqInv(u)
  {
    assert MemoryOf(u, 0) == MemoryOf(s, 0);
    forall key | key != "" && Held(s, key) ensures Held(u, key) {
    }
    SilentTrace(s, u);
  }

  lemma RestartKeepsSeq(cfg: Config, s: State)
    requires SeqInv(s) && Alone(cfg, s, Restart(0))
    ensures SeqInv(StepRestart(cfg, s, 0))
  {
    var u := StepRestart(cfg, s, 0);
    assert LastLines(s.persisted, cfg.maxLoaded) == s.persisted;
    forall key | key != "" && Held(s, key) ensures Held(u, key) {
      assert key in s.persisted;
      var i :| 0 <= i < |s.persisted| && s.persisted[i] == key;
      assert key in LoadedKeys(s.persisted, cfg.maxLoaded);
    }
    SilentTrace(s, u);
  }

  lemma TableFree(s: State, t: Table)
    requires SeqInv(s) && NothingReopened(s.table, t)
    ensures SeqInv(s.(table := t))
  {
    assert MemoryOf(s.(table := t), 0) == MemoryOf(s, 0);
    forall key | key != "" && Held(s, key) ensures Held(s.(table := t), key) {
    }
    SilentTrace(s, s.(table := t));
  }

  lemma StepKeepsSeq(cfg: Config, s: State, l: Label)
    requires SeqInv(s) && !cfg.motor(0) && Alone(cfg, s, l)
    ensures SeqInv(Step(cfg, s, l))
  {
    hide SuccessesHeld, NoneRemembered, AllSaved, NeverTwice, StepRestart, StepCall, StepRemember, Spawn, Apply, Plain;
    if Working(l) {
      if l.aid in s.procs {
        WorkKeepsSeq(cfg, s, l);
      }
    } else {
      hide StepCheck, StepSimulate, StepGate, StepPermit, StepCreate, StepExpireFirst, StepAnswer, StepReread;
      hide StepDecide, StepClaim;
      match l {
        case Submit(aid, _, intent) => SpawnKeepsSeq(s, aid, Submitted(intent));
        case Resume(aid, _, rid, reply, now) => SpawnKeepsSeq(s, aid, Resuming(rid, reply, now));
        case Call(aid, success) => if aid in s.procs { CallKeepsSeq(s, aid, success); }
        case Remember(aid, _) => if aid in s.procs { RememberKeepsSeq(s, aid); }
        case Crash(aid) => DropKeepsSeq(s, Finish(s, aid));
        case Restart(_) => RestartKeepsSeq(cfg, s);
        case Other(op) => if Legal(s.table, op) { OpReopensNothing(s.table, op); TableFree(s, Apply(s.table, op)); }
        case _ =>
      }
    }
  }

  lemma WorkKeepsSeq(cfg: Config, s: State, l: Label)
    requires SeqInv(s) && !cfg.motor(0) && Working(l) && l.aid in s.procs
    ensures SeqInv(StepProc(cfg, s, l))
  {
    hide SeqInv, StepProc, Plain;
    if s.procs[l.aid].point.Called? {
      CalledWaits(cfg, s, l);
    } else {
      StepPlain(cfg, s, l);
      PlainKeepsSeq(cfg, s, StepProc(cfg, s, l), l.aid);
    }
  }

  lemma {:induction false} RunKeepsSeq(cfg: Config, s: State, labels: seq<Label>)
    requires SeqInv(s) && !cfg.motor(0) && Sequential(cfg, s, labels)
    ensures SeqInv(Run(cfg, s, labels))
    decreases |labels|
  {
    hide SeqInv, Step, Alone;
    if labels != [] {
      StepKeepsSeq(cfg, s, labels[0]);
      RunKeepsSeq(cfg, Step(cfg, s, labels[0]), labels[1..]);
    }
  }

  /** Exactly-once per key: without a motor queue, over any succession of submissions, resumptions, other work on the
      confirmations, crashes and restarts, a non-empty key has at most one successful backend call. */
  lemma AtMostOneSuccessPerKey(cfg: Config, labels: seq<Label>, key: string, k: nat, l: nat)
    requires !cfg.motor(0) && Sequential(cfg, INIT, labels) && key != ""
    requires var trace := Run(cfg, INIT, labels).trace;
             k < |trace| && l < |trace| && Success(trace[k], key) && Success(trace[l], key)
    ensures k == l
  {
    RunKeepsSeq(cfg, INIT, labels);
    hide Run;
    var trace := Run(cfg, INIT, labels).trace;
    assert !Twice(trace[k], trace[l]) || k >= l;
    assert !Twice(trace[l], trace[k]) || l >= k;
  }

  // ---- Any interleaving, with or without a motor queue ----

  /** The executor forgets the key only by restarting when it is no longer among the keys it loads. */
  predicate Remembering(cfg: Config, s: State, l: Label, exec: nat, key: string) {
    l == Restart(exec) ==> key in LoadedKeys(s.persisted, cfg.maxLoaded)
  }

  predicate RemembersAll(cfg: Config, s: State, labels: seq<Label>, exec: nat, key: string)
    decreases |labels|
  {
    labels == []
    || (Remembering(cfg, s, labels[0], exec, key) && RemembersAll(cfg, Step(cfg, s, labels[0]), labels[1..], exec, key))
  }

  /** This executor works on the key. */
  predicate Works(e: Event, exec: nat, key: string) {
    && (e.BackendCalled? || e.Queued?)
    && e.exec == exec && e.intent.idempotencyKey == Some(key)
  }

  /** Whoever works on the key since `start` is one of `early`. */
  ghost predicate OnlyEarly(s: State, exec: nat, key: string, early: set<nat>, start: nat) {
    && (forall a :: a in s.procs && s.procs[a].exec == exec && Carries(s.table, s.procs[a].point, key) ==> a in early)
    && (forall i :: 0 <= i < |s.queue| && s.queue[i].exec == exec && s.queue[i].intent.idempotencyKey == Some(key) ==>
          s.queue[i].aid in early)
    && (forall k :: start <= k < |s.trace| && Works(s.trace[k], exec, key) ==> s.trace[k].aid in early)
  }

  ghost predicate Blocked(s: State, exec: nat, key: string, early: set<nat>, start: nat) {
    key != "" && key in MemoryOf(s, exec) && OnlyEarly(s, exec, key, early, start) && start <= |s.trace|
  }

  lemma PlainKeepsBlocked(cfg: Config, s: State, u: State, aid: nat, exec: nat, key: string, early: set<nat>, start: nat)
    requires Blocked(s, exec, key, early, start) && aid in s.procs && Plain(cfg, s, u, aid)
    ensures Blocked(u, exec, key, early, start)
  {
    assert forall k :: 0 <= k < |s.trace| ==> u.trace[k] == s.trace[k];
  }

  lemma RestartKeepsBlocked(cfg: Config, s: State, e: nat, exec: nat, key: string, early: set<nat>, start: nat)
    requires Blocked(s, exec, key, early, start) && Remembering(cfg, s, Restart(e), exec, key)
    ensures Blocked(StepRestart(cfg, s, e), exec, key, early, start)
  {
    var u := StepRestart(cfg, s, e);
    forall i | 0 <= i < |u.queue| && u.queue[i].exec == exec && u.queue[i].intent.idempotencyKey == Some(key)
      ensures u.queue[i].aid in early
    {
      assert u.queue[i] in u.queue;
      var j :| 0 <= j < |s.queue| && s.queue[j] == u.queue[i];
    }
  }

  lemma DispatchKeepsBlocked(s: State, p: nat, exec: nat, key: string, early: set<nat>, start: nat)
    requires Blocked(s, exec, key, early, start)
    ensures Blocked(StepDispatch(s, p), exec, key, early, start)
  {
    if p < |s.queue| {
      var u := StepDispatch(s, p);
      assert forall i :: 0 <= i < |u.queue| ==> u.queue[i] == s.queue[if i < p then i else i + 1];
    }
  }

  lemma OthersKeepBlocked(s: State, aid: nat, saved: bool, point: Point, e: nat, exec: nat, key: string,
                          early: set<nat>, start: nat)
    requires Blocked(s, exec, key, early, start)
    ensures point.Submitted? || point.Resuming? ==> Blocked(Spawn(s, aid, e, point), exec, key, early, start)
    ensures Blocked(Finish(s, aid), exec, key, early, start)
    ensures aid in s.procs ==> Blocked(StepRemember(s, aid, saved), exec, key, early, start)
  {
  }

  lemma TableKeepsBlocked(s: State, t: Table, exec: nat, key: string, early: set<nat>, start: nat)
    requires Blocked(s, exec, key, early, start) && NothingReopened(s.table, t)
    ensures Blocked(s.(table := t), exec, key, early, start)
  {
    assert OnlyEarly(s.(table := t), exec, key, early, start);
  }

  lemma CallKeepsBlocked(s: State, aid: nat, success: bool, exec: nat, key: string, early: set<nat>, start: nat)
    requires Blocked(s, exec, key, early, start) && aid in s.procs
    ensures Blocked(StepCall(s, aid, success), exec, key, early, start)
    ensures Blocked(StepEnqueue(s, aid), exec, key, early, start)
  {
    var point := s.procs[aid].point;
    if point.Calling? || point.Enqueuing? {
      var i := point.intent;
      assert s.procs[aid].exec == exec && i.idempotencyKey == Some(key) ==> Carries(s.table, point, key);
    }
  }

  lemma StepKeepsBlocked(cfg: Config, s: State, l: Label, exec: nat, key: string, early: set<nat>, start: nat)
    requires Blocked(s, exec, key, early, start) && Remembering(cfg, s, l, exec, key)
    ensures Blocked(Step(cfg, s, l), exec, key, early, start)
  {
    hide OnlyEarly, StepRestart, StepCall, StepRemember, StepDispatch, StepEnqueue, Spawn, Apply, Plain, LoadedKeys;
    if Working(l) {
      if l.aid in s.procs {
        WorkKeepsBlocked(cfg, s, l, exec, key, early, start);
      }
    } else {
      hide StepCheck, StepSimulate, StepGate, StepPermit, StepCreate, StepExpireFirst, StepAnswer, StepReread;
      hide StepDecide, StepClaim;
      match l {
        case Submit(aid, e, i) => OthersKeepBlocked(s, aid, false, Submitted(i), e, exec, key, early, start);
        case Resume(aid, e, rid, reply, now) =>
          OthersKeepBlocked(s, aid, false, Resuming(rid, reply, now), e, exec, key, early, start);
        case Call(aid, success) => if aid in s.procs { CallKeepsBlocked(s, aid, success, exec, key, early, start); }
        case Enqueue(aid) => if aid in s.procs { CallKeepsBlocked(s, aid, false, exec, key, early, start); }
        case Remember(aid, saved) => OthersKeepBlocked(s, aid, saved, Resuming(0, Unclear, 0), 0, exec, key, early, start);
        case Crash(aid) => OthersKeepBlocked(s, aid, false, Resuming(0, Unclear, 0), 0, exec, key, early, start);
        case Dispatch(p) => DispatchKeepsBlocked(s, p, exec, key, early, start);
        case Restart(e) => RestartKeepsBlocked(cfg, s, e, exec, key, early, start);
        case Other(op) =>
          if Legal(s.table, op) {
            OpReopensNothing(s.table, op);
            TableKeepsBlocked(s, Apply(s.table, op), exec, key, early, start);
          }
        case _ =>
      }
    }
  }

  lemma WorkKeepsBlocked(cfg: Config, s: State, l: Label, exec: nat, key: string, early: set<nat>, start: nat)
    requires Blocked(s, exec, key, early, start) && Working(l) && l.aid in s.procs
    ensures Blocked(StepProc(cfg, s, l), exec, key, early, start)
  {
    hide Blocked, StepProc, Plain;
    if s.procs[l.aid].point.Called? {
      CalledWaits(cfg, s, l);
    } else {
      StepPlain(cfg, s, l);
      PlainKeepsBlocked(cfg, s, StepProc(cfg, s, l), l.aid, exec, key, early, start);
    }
  }

  lemma {:induction false} RunKeepsBlocked(cfg: Config, s: State, labels: seq<Label>, exec: nat, key: string, early: set<nat>, start: nat)
    requires Blocked(s, exec, key, early, start) && RemembersAll(cfg, s, labels, exec, key)
    ensures Blocked(Run(cfg, s, labels), exec, key, early, start)
    decreases |labels|
  {
    hide Blocked, Step, Remembering;
    if labels != [] {
      StepKeepsBlocked(cfg, s, labels[0], exec, key, early, start);
      RunKeepsBlocked(cfg, Step(cfg, s, labels[0]), labels[1..], exec, key, early, start);
    }
  }

  /** The actions of the executor that are past their replay check with the key and may yet call the backend, and those
      that are queued with it. */
  function Bearers(s: State, exec: nat, key: string): set<nat> {
    (set a | a in s.procs && s.procs[a].exec == exec && Carries(s.table, s.procs[a].point, key))
    + (set i | 0 <= i < |s.queue| && s.queue[i].exec == exec && s.queue[i].intent.idempotencyKey == Some(key) ::
         s.queue[i].aid)
  }

  /** Once the key is remembered, whatever the interleaving that follows, with a motor queue or without, only its bearers
      of that moment can still queue it or carry it out. */
  lemma OnlyBearersGoOn(cfg: Config, s: State, exec: nat, key: string, later: seq<Label>, k: nat)
    requires key != "" && key in MemoryOf(s, exec) && RemembersAll(cfg, s, later, exec, key)
    requires |s.trace| <= k < |Run(cfg, s, later).trace| && Works(Run(cfg, s, later).trace[k], exec, key)
    ensures Run(cfg, s, later).trace[k].aid in Bearers(s, exec, key)
  {
    var early := Bearers(s, exec, key);
    assert OnlyEarly(s, exec, key, early, |s.trace|) by {
      hide Carries;
    }
    RunKeepsBlocked(cfg, s, later, exec, key, early, |s.trace|);
  }

  // ---- When a second success can follow ----

  /** The executor succeeds with the key once more. */
  ghost predicate Again(cfg: Config, s: State, later: seq<Label>, exec: nat, key: string) {
    && RemembersAll(cfg, s, later, exec, key)
    && exists k :: |s.trace| <= k < |Run(cfg, s, later).trace|
                   && Success(Run(cfg, s, later).trace[k], key) && Run(cfg, s, later).trace[k].exec == exec
  }

  ghost predicate CanSucceed(cfg: Config, s: State, exec: nat, key: string) {
    exists later :: Again(cfg, s, later, exec, key)
  }

  lemma {:induction false} RunOne(cfg: Config, s: State, l: Label, rest: seq<Label>)
    ensures Run(cfg, s, [l] + rest) == Run(cfg, Step(cfg, s, l), rest)
  {
    assert ([l] + rest)[1..] == rest;
  }

  lemma OneStepOn(cfg: Config, s: State, l: Label, exec: nat, key: string)
    requires CanSucceed(cfg, Step(cfg, s, l), exec, key) && !l.Restart? && |s.trace| <= |Step(cfg, s, l).trace|
    ensures CanSucceed(cfg, s, exec, key)
  {
    hide Step;
    var later :| Again(cfg, Step(cfg, s, l), later, exec, key);
    RunOne(cfg, s, l, later);
    assert ([l] + later)[1..] == later;
    assert RemembersAll(cfg, s, [l] + later, exec, key);
    assert Again(cfg, s, [l] + later, exec, key);
  }

  predicate StandsAt(s: State, a: nat, exec: nat, point: Point) {
    a in s.procs && s.procs[a] == Proc(exec, point)
  }

  lemma CallGoes(cfg: Config, s: State, a: nat, exec: nat, i: Intent, cid: Option<nat>, key: string)
    requires StandsAt(s, a, exec, Calling(i, cid)) && i.idempotencyKey == Some(key)
    ensures CanSucceed(cfg, s, exec, key)
  {
    var u := Step(cfg, s, Call(a, true));
    assert u.trace == s.trace + [BackendCalled(exec, a, i, cid, true)];
    assert [Call(a, true)][1..] == [];
    assert Run(cfg, s, [Call(a, true)]) == Run(cfg, u, []) == u;
    assert Success(u.trace[|s.trace|], key);
    assert RemembersAll(cfg, u, [], exec, key);
    assert Again(cfg, s, [Call(a, true)], exec, key);
  }

  lemma TicketGoes(cfg: Config, s: State, p: nat, key: string)
    requires p < |s.queue| && s.queue[p].intent.idempotencyKey == Some(key)
    ensures CanSucceed(cfg, s, s.queue[p].exec, key)
  {
    var t := s.queue[p];
    hide CanSucceed;
    CallGoes(cfg, Step(cfg, s, Dispatch(p)), t.aid, t.exec, t.intent, None, key);
    OneStepOn(cfg, s, Dispatch(p), t.exec, key);
  }

  lemma EnqueueGoes(cfg: Config, s: State, a: nat, exec: nat, i: Intent, key: string)
    requires StandsAt(s, a, exec, Enqueuing(i)) && i.idempotencyKey == Some(key)
    ensures CanSucceed(cfg, s, exec, key)
  {
    hide CanSucceed;
    var u := Step(cfg, s, Enqueue(a));
    assert u.queue == s.queue + [Ticket(exec, a, i)];
    TicketGoes(cfg, u, |s.queue|, key);
    OneStepOn(cfg, s, Enqueue(a), exec, key);
  }

  lemma PermitGoes(cfg: Config, s: State, a: nat, exec: nat, i: Intent, key: string)
    requires StandsAt(s, a, exec, Permitting(i)) && i.idempotencyKey == Some(key)
    ensures CanSucceed(cfg, s, exec, key)
  {
    hide CanSucceed;
    var u := Step(cfg, s, Permit(a, Granted));
    if cfg.motor(exec) {
      EnqueueGoes(cfg, u, a, exec, i, key);
    } else {
      CallGoes(cfg, u, a, exec, i, None, key);
    }
    OneStepOn(cfg, s, Permit(a, Granted), exec, key);
  }

  lemma GateGoes(cfg: Config, s: State, a: nat, exec: nat, i: Intent, key: string)
    requires StandsAt(s, a, exec, Gating(i, false)) && i.idempotencyKey == Some(key)
    ensures CanSucceed(cfg, s, exec, key)
  {
    hide CanSucceed;
    PermitGoes(cfg, Step(cfg, s, Gate(a, [])), a, exec, i, key);
    OneStepOn(cfg, s, Gate(a, []), exec, key);
  }

  lemma SimulateGoes(cfg: Config, s: State, a: nat, exec: nat, i: Intent, key: string)
    requires StandsAt(s, a, exec, Simulating(i)) && i.idempotencyKey == Some(key)
    ensures CanSucceed(cfg, s, exec, key)
  {
    hide CanSucceed;
    GateGoes(cfg, Step(cfg, s, Simulate(a, NoSimulation)), a, exec, i, key);
    OneStepOn(cfg, s, Simulate(a, NoSimulation), exec, key);
  }

  lemma ClaimGoes(cfg: Config, s: State, a: nat, exec: nat, rid: nat, now: int, i: Intent, key: string)
    requires StandsAt(s, a, exec, Claiming(rid, now, i)) && i.idempotencyKey == Some(key)
    requires rid in s.table && Claimable(s.table[rid], now, {ActionConfirmation})
    ensures CanSucceed(cfg, s, exec, key)
  {
    hide CanSucceed;
    CallGoes(cfg, Step(cfg, s, TakeClaim(a)), a, exec, i, Some(rid), key);
    OneStepOn(cfg, s, TakeClaim(a), exec, key);
  }

  /** A pending record can be confirmed meanwhile. */
  lemma PendingClaimGoes(cfg: Config, s: State, a: nat, exec: nat, rid: nat, now: int, i: Intent, key: string)
    requires StandsAt(s, a, exec, Claiming(rid, now, i)) && i.idempotencyKey == Some(key)
    requires rid in s.table && Winnable(s.table, rid, now)
    ensures CanSucceed(cfg, s, exec, key)
  {
    hide CanSucceed;
    if s.table[rid].status == Pending {
      var op := DoResolve(rid, now, Confirms, None);
      ClaimGoes(cfg, Step(cfg, s, Label.Other(op)), a, exec, rid, now, i, key);
      OneStepOn(cfg, s, Label.Other(op), exec, key);
    } else {
      ClaimGoes(cfg, s, a, exec, rid, now, i, key);
    }
  }

  lemma WinnableClaimGoes(cfg: Config, s: State, a: nat, exec: nat, rid: nat, now: int, i: Intent, key: string)
    requires StandsAt(s, a, exec, Claiming(rid, now, i)) && i.idempotencyKey == Some(key) && Winnable(s.table, rid, now)
    ensures CanSucceed(cfg, s, exec, key)
  {
    hide CanSucceed;
    if rid in s.table {
      PendingClaimGoes(cfg, s, a, exec, rid, now, i, key);
    } else {
      var snapshot := Snapshot(None, None, None, None, None, false, {}, map[], None, NO_CONTINUITY);
      var c := Confirmation(rid, ActionConfirmation, Pending, "", "", snapshot, now, now + 1, None, NO_RETRY, None);
      PendingClaimGoes(cfg, Step(cfg, s, Label.Other(DoCreate(c))), a, exec, rid, now, i, key);
      OneStepOn(cfg, s, Label.Other(DoCreate(c)), exec, key);
    }
  }

  lemma ExecuteGoes(cfg: Config, s: State, a: nat, exec: nat, rid: nat, now: int, i: Intent, key: string)
    requires StandsAt(s, a, exec, Executing(rid, now, i)) && i.idempotencyKey == Some(key) && Winnable(s.table, rid, now)
    ensures CanSucceed(cfg, s, exec, key)
  {
    hide CanSucceed, Winnable;
    WinnableClaimGoes(cfg, Step(cfg, s, Permit(a, Granted)), a, exec, rid, now, i, key);
    OneStepOn(cfg, s, Permit(a, Granted), exec, key);
  }

  lemma ConfirmGoes(cfg: Config, s: State, a: nat, exec: nat, rid: nat, now: int, i: Intent, key: string)
    requires StandsAt(s, a, exec, Confirming(rid, now, i)) && i.idempotencyKey == Some(key) && Winnable(s.table, rid, now)
    ensures CanSucceed(cfg, s, exec, key)
  {
    hide CanSucceed, Winnable;
    ExecuteGoes(cfg, Step(cfg, s, Permit(a, Granted)), a, exec, rid, now, i, key);
    OneStepOn(cfg, s, Permit(a, Granted), exec, key);
  }

  lemma DecideGoes(cfg: Config, s: State, a: nat, exec: nat, rid: nat, now: int, i: Intent, key: string)
    requires StandsAt(s, a, exec, Deciding(rid, now, i)) && i.idempotencyKey == Some(key) && Winnable(s.table, rid, now)
    ensures CanSucceed(cfg, s, exec, key)
  {
    hide CanSucceed, Winnable;
    ConfirmGoes(cfg, Step(cfg, s, Decide(a, None, [])), a, exec, rid, now, i, key);
    OneStepOn(cfg, s, Decide(a, None, []), exec, key);
  }

  lemma BearerGoes(cfg: Config, s: State, a: nat, key: string)
    requires a in s.procs && Carries(s.table, s.procs[a].point, key)
    ensures CanSucceed(cfg, s, s.procs[a].exec, key)
  {
    hide CanSucceed, Winnable;
    var exec := s.procs[a].exec;
    match s.procs[a].point
    case Simulating(i) => SimulateGoes(cfg, s, a, exec, i, key);
    case Gating(i, _) => GateGoes(cfg, s, a, exec, i, key);
    case Permitting(i) => PermitGoes(cfg, s, a, exec, i, key);
    case Enqueuing(i) => EnqueueGoes(cfg, s, a, exec, i, key);
    case Calling(i, cid) => CallGoes(cfg, s, a, exec, i, cid, key);
    case Deciding(rid, now, i) => DecideGoes(cfg, s, a, exec, rid, now, i, key);
    case Confirming(rid, now, i) => ConfirmGoes(cfg, s, a, exec, rid, now, i, key);
    case Executing(rid, now, i) => ExecuteGoes(cfg, s, a, exec, rid, now, i, key);
    case Claiming(rid, now, i) => WinnableClaimGoes(cfg, s, a, exec, rid, now, i, key);
  }

  /** From the moment a key is remembered, some continuation in which it is not forgotten succeeds with it once more if
      and only if the key has a bearer at that moment. */
  lemma SecondSuccess(cfg: Config, s: State, exec: nat, key: string)
    requires key != "" && key in MemoryOf(s, exec)
    ensures CanSucceed(cfg, s, exec, key) <==> Bearers(s, exec, key) != {}
  {
    hide Carries, Run, RemembersAll;
    if CanSucceed(cfg, s, exec, key) {
      var later :| Again(cfg, s, later, exec, key);
      var k: nat :| |s.trace| <= k < |Run(cfg, s, later).trace|
                    && Success(Run(cfg, s, later).trace[k], key) && Run(cfg, s, later).trace[k].exec == exec;
      OnlyBearersGoOn(cfg, s, exec, key, later, k);
    }
    if a :| a in Bearers(s, exec, key) {
      if a in s.procs && s.procs[a].exec == exec && Carries(s.table, s.procs[a].point, key) {
        BearerGoes(cfg, s, a, key);
      } else {
        var p :| 0 <= p < |s.queue| && s.queue[p].exec == exec && s.queue[p].intent.idempotencyKey == Some(key);
        TicketGoes(cfg, s, p, key);
      }
    }
  }

  /** In particular after one dispatched or direct call that succeeded and has just been remembered. */
  lemma SuccessBlocksLaterActions(cfg: Config, s: State, aid: nat, saved: bool)
    requires aid in s.procs && s.procs[aid].point.Called? && s.procs[aid].point.success
    requires Keyed(s.procs[aid].point.intent.idempotencyKey)
    ensures var exec, key := s.procs[aid].exec, s.procs[aid].point.intent.idempotencyKey.value;
            var s1 := Step(cfg, s, Remember(aid, saved));
            && key in MemoryOf(s1, exec)
            && Bearers(s1, exec, key) == Bearers(s, exec, key)
            && (CanSucceed(cfg, s1, exec, key) <==> Bearers(s, exec, key) != {})
  {
    var exec, key := s.procs[aid].exec, s.procs[aid].point.intent.idempotencyKey.value;
    var s1 := Step(cfg, s, Remember(aid, saved));
    assert s1 == StepRemember(s, aid, saved);
    SecondSuccess(cfg, s1, exec, key);
    SameBearers(s, s1, aid, exec, key);
  }

  lemma SameBearers(s: State, u: State, aid: nat, exec: nat, key: string)
    requires aid in s.procs && s.procs[aid].point.Called?
    requires u.table == s.table && u.queue == s.queue && u.procs == s.procs - {aid}
    ensures Bearers(u, exec, key) == Bearers(s, exec, key)
  {
    assert !Carries(s.table, s.procs[aid].point, key);
    hide Carries;
  }

  // ---- What does not hold ----

  /** A submission that passes simulation, gates and permission, up to where it is queued. */
  function Queueing(aid: nat, i: Intent): seq<Label> {
    [Submit(aid, 0, i), Check(aid), Simulate(aid, NoSimulation), Gate(aid, []), Permit(aid, Granted), Enqueue(aid)]
  }

  ghost predicate Idle(s: State) {
    s.procs == map[] && s.memory == map[]
  }

  /** From an executor that has run nothing yet, a submission is queued. */
  lemma GetsQueued(cfg: Config, s: State, aid: nat, i: Intent)
    requires cfg.motor(0) && Idle(s) && aid !in s.used
    ensures var u := Run(cfg, s, Queueing(aid, i));
            Idle(u) && u.queue == s.queue + [Ticket(0, aid, i)] && u.used == s.used + {aid} && s.trace <= u.trace
  {
    hide Run, StepCreate, StepDispatch, StepCall, StepRemember, StepExpireFirst, StepAnswer, StepReread, StepDecide, StepClaim;
    hide StepRestart, Apply;
    var s1 := Step(cfg, s, Submit(aid, 0, i));
    var s2 := Step(cfg, s1, Check(aid));
    var s3 := Step(cfg, s2, Simulate(aid, NoSimulation));
    var s4 := Step(cfg, s3, Gate(aid, []));
    var s5 := Step(cfg, s4, Permit(aid, Granted));
    var s6 := Step(cfg, s5, Enqueue(aid));
    RunSix(cfg, s, Submit(aid, 0, i), Check(aid), Simulate(aid, NoSimulation), Gate(aid, []), Permit(aid, Granted), Enqueue(aid));
    assert s2.procs[aid] == Proc(0, Simulating(i));
    assert s4.procs[aid] == Proc(0, Permitting(i));
    assert s5.procs[aid] == Proc(0, Enqueuing(i));
    assert s6.procs == map[];
  }

  lemma {:induction false} RunSix(cfg: Config, s: State, a: Label, b: Label, c: Label, d: Label, e: Label, f: Label)
    ensures Run(cfg, s, [a, b, c, d, e, f]) ==
            Step(cfg, Step(cfg, Step(cfg, Step(cfg, Step(cfg, Step(cfg, s, a), b), c), d), e), f)
  {
    hide Step;
    RunOne(cfg, s, a, [b, c, d, e, f]);
    RunOne(cfg, Step(cfg, s, a), b, [c, d, e, f]);
    RunOne(cfg, Step(cfg, Step(cfg, s, a), b), c, [d, e, f]);
    RunOne(cfg, Step(cfg, Step(cfg, Step(cfg, s, a), b), c), d, [e, f]);
    RunOne(cfg, Step(cfg, Step(cfg, Step(cfg, Step(cfg, s, a), b), c), d), e, [f]);
    RunOne(cfg, Step(cfg, Step(cfg, Step(cfg, Step(cfg, Step(cfg, s, a), b), c), d), e), f, []);
    assert [a] + [b, c, d, e, f] == [a, b, c, d, e, f];
    assert [b] + [c, d, e, f] == [b, c, d, e, f];
    assert [c] + [d, e, f] == [c, d, e, f];
    assert [d] + [e, f] == [d, e, f];
    assert [e] + [f] == [e, f];
    assert [f] + [] == [f];
  }

  /** With a motor queue the key is remembered only at dispatch: of two submissions of one intent that are both queued
      before the first is dispatched, both are carried out, whatever the intent and its key. */
  lemma QueuedTwiceRunsTwice(cfg: Config, i: Intent)
    requires cfg.motor(0)
    ensures var labels := Queueing(0, i) + (Queueing(1, i) +
                          [Dispatch(0), Call(0, true), Remember(0, true), Dispatch(0), Call(1, true), Remember(1, true)]);
            var trace := Run(cfg, INIT, labels).trace;
            && BackendCalled(0, 0, i, None, true) in trace
            && BackendCalled(0, 1, i, None, true) in trace
  {
    hide Run;
    var last := [Dispatch(0), Call(0, true), Remember(0, true), Dispatch(0), Call(1, true), Remember(1, true)];
    var s1 := Run(cfg, INIT, Queueing(0, i));
    GetsQueued(cfg, INIT, 0, i);
    var s2 := Run(cfg, s1, Queueing(1, i));
    GetsQueued(cfg, s1, 1, i);
    RunAppend(cfg, INIT, Queueing(0, i), Queueing(1, i) + last);
    RunAppend(cfg, s1, Queueing(1, i), last);
    assert s2.queue == [Ticket(0, 0, i), Ticket(0, 1, i)];
    BothDispatched(cfg, s2, i);
  }

  /** The command at the head of the queue is carried out and remembered. */
  lemma HeadDispatched(cfg: Config, s: State, t: Ticket, rest: seq<Ticket>)
    requires s.procs == map[] && s.queue == [t] + rest
    ensures var u := Step(cfg, Step(cfg, Step(cfg, s, Dispatch(0)), Call(t.aid, true)), Remember(t.aid, true));
            u.procs == map[] && u.queue == rest && u.trace == s.trace + [BackendCalled(t.exec, t.aid, t.intent, None, true)]
  {
    var s1 := Step(cfg, s, Dispatch(0));
    assert s1.queue == rest && s1.procs == map[t.aid := Proc(t.exec, Calling(t.intent, None))];
    var s2 := Step(cfg, s1, Call(t.aid, true));
    assert s2.procs == map[t.aid := Proc(t.exec, Called(t.intent, true))];
  }

  lemma BothDispatched(cfg: Config, s: State, i: Intent)
    requires Idle(s) && s.queue == [Ticket(0, 0, i), Ticket(0, 1, i)]
    ensures var last := [Dispatch(0), Call(0, true), Remember(0, true), Dispatch(0), Call(1, true), Remember(1, true)];
            var trace := Run(cfg, s, last).trace;
            BackendCalled(0, 0, i, None, true) in trace && BackendCalled(0, 1, i, None, true) in trace
  {
    hide Run, Step;
    RunSix(cfg, s, Dispatch(0), Call(0, true), Remember(0, true), Dispatch(0), Call(1, true), Remember(1, true));
    HeadDispatched(cfg, s, Ticket(0, 0, i), [Ticket(0, 1, i)]);
    var s3 := Step(cfg, Step(cfg, Step(cfg, s, Dispatch(0)), Call(0, true)), Remember(0, true));
    HeadDispatched(cfg, s3, Ticket(0, 1, i), []);
    var trace := s.trace + [BackendCalled(0, 0, i, None, true)] + [BackendCalled(0, 1, i, None, true)];
    assert trace[|s.trace|] == BackendCalled(0, 0, i, None, true);
    assert trace[|s.trace| + 1] == BackendCalled(0, 1, i, None, true);
  }

  /** A resumption carries the key trimmed while a submission checks it as given: after the confirmed action has
      succeeded, the same intent submitted again is refused exactly when its key has no blanks around it. */
  lemma ResubmittedAfterResume(cfg: Config, s: State, aid: nat, late: nat, exec: nat, i: Intent, n: nat, saved: bool)
    requires IntentSettled(cfg.policy, i) && Describes(i) && Keyed(i.idempotencyKey) && n >= 1
    requires Rebuild(cfg.policy, ReloadedTimes(cfg.policy, Stored(cfg.policy, i), n)).Some?
    requires aid in s.procs && late in s.procs && aid != late && i.idempotencyKey.value !in MemoryOf(s, exec)
    requires s.procs[late] == Proc(exec, Submitted(i))
    requires s.procs[aid] == Proc(exec, Called(Rebuild(cfg.policy, ReloadedTimes(cfg.policy, Stored(cfg.policy, i), n)).value, true))
    ensures var s1 := Step(cfg, s, Remember(aid, saved));
            late !in Step(cfg, s1, Check(late)).procs <==> Bare(i.idempotencyKey.value)
  {
    hide Rebuild, Strip, ReloadedTimes, Stored, IntentSettled;
    RoundTrip(cfg.policy, i, n);
    var j := Rebuild(cfg.policy, ReloadedTimes(cfg.policy, Stored(cfg.policy, i), n)).value;
    assert j.idempotencyKey == Optional(i.idempotencyKey);
    var s1 := Step(cfg, s, Remember(aid, saved));
    assert s1 == StepRemember(s, aid, saved);
    assert late in s1.procs && s1.procs[late] == s.procs[late];
    var key := i.idempotencyKey.value;
    assert Replayed(s1, exec, i.idempotencyKey) <==> Strip(key) == key;
  }
}
