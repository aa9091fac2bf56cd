/** The safety theorems, brought back to the executor as the source has it. */
module ActionGuarantees {
  import opened Actions
  import opened Confirmations
  import opened ActionProtocol
  import opened ActionSafety
  import opened ActionExecutor

  lemma RunningIsUsed(cfg: Config, past: seq<Label>, aid: nat)
    requires aid in Run(cfg, INIT, past).procs
    ensures aid in Run(cfg, INIT, past).used
  {
    RunKeeps(cfg, INIT, past);
    hide Run, PointOk, QueueOk, TraceOk, Linked;
    assert ProcOk(cfg, Run(cfg, INIT, past), aid);
  }

  lemma ConsumedEnds(cfg: Config, outcome: Outcome, before: Fields, after: Fields, rid: nat, reply: Reply, now: int,
                     precheck: Option<Decision>, gates: seq<Decision>, confirm: Permission, execute: Permission, effect: Effect)
    requires rid in before.table && before.table[rid].consumedAt.Some?
    requires ResumeAnswers(cfg, outcome, before, after, rid, reply, now, precheck, gates, confirm, execute, effect)
    ensures outcome == AlreadyExecuted || outcome == DeniedOutcome
  {
    hide FoundEnds, Resolves, KeepsKeys;
  }

  /** Whatever run brought the executor here, with its own calls and those of any number of others: once the backend
      was entered on behalf of a confirmation, resuming that confirmation, with any reply and any answers of the gates,
      the permissions and the backend, does not enter it again. */
  method ResumeAfterExecution(executor: SafeActionExecutor, ghost past: seq<Label>, ghost k: nat, aid: nat, rid: nat, reply: Reply,
                              now: int, precheck: Option<Decision>, gates: seq<Decision>, confirm: Permission,
                              execute: Permission, effect: Effect)
    returns (outcome: Outcome)
    requires executor.Valid() && executor.machine == Run(executor.cfg, INIT, past)
    requires aid !in executor.machine.used && CallsFor(executor.machine.trace, k, rid)
    modifies executor, executor.store, executor.store.file, executor.keyFile
    ensures outcome == AlreadyExecuted || outcome == DeniedOutcome
  {
    hide Run, Inv, CallsIn, ResumeLabels, ResumeAnswers;
    if aid in executor.machine.procs {
      RunningIsUsed(executor.cfg, past, aid);
    }
    AtMostOncePerConfirmation(executor.cfg, past, rid, k, k);
    ghost var before := executor.Now();
    outcome := executor.ResumeConfirmed(aid, rid, reply, now, precheck, gates, confirm, execute, effect);
    ConsumedEnds(executor.cfg, outcome, before, executor.Now(), rid, reply, now, precheck, gates, confirm, execute, effect);
  }
}
