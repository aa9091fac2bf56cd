/** The two brakes of the cognitive runtime, per session: a circuit breaker on failed nudges and a silent period after
    the same nudge was sent over and over. */
module CognitiveRuntime {
  import opened Actions

  const LOOP_REPEAT_THRESHOLD := 3
  const LOOP_SILENT_PERIOD := 3600
  const FAILURE_THRESHOLD := 3
  const COOLDOWN := 1800
  const USER_ACTIVE_WINDOW := 300

  datatype Failures = Failures(count: nat, cooldownUntil: Option<int>)

  datatype Loop = Loop(lastHash: nat, repeats: nat, silentUntil: Option<int>)

  /** What the runtime remembers about one session. */
  datatype Cell = Cell(failures: Option<Failures>, pending: bool, loop: Option<Loop>)

  const FORGOTTEN := Cell(None, false, None)

  /** A nudge that could be sent: its content hash, whether its own cooldown allows it, and when it would go out. */
  datatype Candidate = Candidate(content: nat, allowed: bool, at: int)

  /** What a pass finds: the session's eligibility, the time of the checks, the last update of the session, whether its
      last message shows an error, and the candidates in order. */
  datatype Input = Input(eligible: bool, now: int, updatedAt: Option<int>, lastFailed: bool, candidates: seq<Candidate>)

  datatype Settings = Settings(enabled: bool, messagesEnabled: bool, maxPerPass: int)

  datatype Emission = Emission(content: nat, at: int)

  /** A session's cell after some work, and the nudges sent by it. */
  datatype Outcome = Outcome(cell: Cell, sent: seq<Emission>)

  // ---- One session ----

  function FailureStep(c: Cell, now: int, failed: bool): Cell {
    if !c.pending then c
    else
      var count := if c.failures.Some? then c.failures.value.count else 0;
      var cooldown := if c.failures.Some? then c.failures.value.cooldownUntil else None;
      if !failed then c.(pending := false, failures := Some(Failures(0, None)))
      else
        c.(pending := false,
           failures := Some(Failures(count + 1, if count + 1 >= FAILURE_THRESHOLD then Some(now + COOLDOWN) else cooldown)))
  }

  /** A nudge is judged once, by the next pass: a success clears the count and any cooldown, a failure adds one to the
      count, and from the third in a row on starts a cooldown of 1800 seconds. */
  lemma JudgedOnce(c: Cell, now: int, failed: bool)
    ensures var d := FailureStep(c, now, failed);
            && !d.pending && d.loop == c.loop
            && (!c.pending ==> d.failures == c.failures)
            && (c.pending && !failed ==> d.failures == Some(Failures(0, None)))
            && (c.pending && failed ==>
                  && d.failures.Some?
                  && d.failures.value.count == 1 + (if c.failures.Some? then c.failures.value.count else 0)
                  && (d.failures.value.count >= 3 ==> d.failures.value.cooldownUntil == Some(now + 1800))
                  && (d.failures.value.count < 3 ==>
                        d.failures.value.cooldownUntil == if c.failures.Some? then c.failures.value.cooldownUntil else None))
  {
  }

  predicate CoolingDown(c: Cell, now: int) {
    c.failures.Some? && c.failures.value.cooldownUntil.Some? && now < c.failures.value.cooldownUntil.value
  }

  function CooldownStep(c: Cell, now: int): Cell {
    if c.failures.Some? && c.failures.value.cooldownUntil.Some? && !CoolingDown(c, now) then c.(failures := None) else c
  }

  predicate Silent(c: Cell, now: int) {
    c.loop.Some? && c.loop.value.silentUntil.Some? && now < c.loop.value.silentUntil.value
  }

  function SilentStep(c: Cell, now: int): Cell {
    if c.loop.Some? && c.loop.value.silentUntil.Some? && !Silent(c, now) then c.(loop := None) else c
  }

  function Repeats(c: Cell, content: nat): nat {
    if c.loop.Some? && c.loop.value.lastHash == content then c.loop.value.repeats + 1 else 1
  }

  /** A nudge goes out. */
  function Emit(c: Cell, content: nat, at: int): Cell {
    var kept := if c.loop.Some? && c.loop.value.lastHash == content then c.loop.value.silentUntil else None;
    var repeats := Repeats(c, content);
    c.(pending := true,
       loop := Some(Loop(content, repeats, if repeats >= LOOP_REPEAT_THRESHOLD then Some(at + LOOP_SILENT_PERIOD) else kept)))
  }

  /** A nudge is counted with those of the same content directly before it; from the third on each starts a silent period of
      3600 seconds. */
  lemma RepeatsCounted(c: Cell, content: nat, at: int)
    ensures var d, same := Emit(c, content, at), c.loop.Some? && c.loop.value.lastHash == content;
            && d.pending && d.failures == c.failures && d.loop.Some? && d.loop.value.lastHash == content
            && d.loop.value.repeats == 1 + (if same then c.loop.value.repeats else 0)
            && (d.loop.value.repeats >= 3 ==> d.loop.value.silentUntil == Some(at + 3600))
            && (d.loop.value.repeats < 3 ==> d.loop.value.silentUntil == if same then c.loop.value.silentUntil else None)
  {
  }

  predicate UserActive(i: Input) {
    i.updatedAt.Some? && i.now - i.updatedAt.value < USER_ACTIVE_WINDOW
  }

  /** The cell and the nudges sent after the first `n` candidates. */
  function Sent(s: Settings, c: Cell, candidates: seq<Candidate>, n: nat): (r: Outcome)
    requires n <= |candidates|
    ensures |r.sent| <= n && (s.maxPerPass >= 0 ==> |r.sent| <= s.maxPerPass) && (s.maxPerPass < 0 ==> r.sent == [])
  {
    if n == 0 then Outcome(c, [])
    else
      var Outcome(d, sent) := Sent(s, c, candidates, n - 1);
      var candidate := candidates[n - 1];
      if candidate.allowed && |sent| < s.maxPerPass && s.messagesEnabled
      then Outcome(Emit(d, candidate.content, candidate.at), sent + [Emission(candidate.content, candidate.at)])
      else Outcome(d, sent)
  }

  /** One pass over a session. */
  function Pass(s: Settings, c: Cell, i: Input): Outcome {
    if !s.enabled || !i.eligible || UserActive(i) then Outcome(c, [])
    else
      var c1 := FailureStep(c, i.now, i.lastFailed);
      if CoolingDown(c1, i.now) then Outcome(c1, [])
      else
        var c2 := CooldownStep(c1, i.now);
        if Silent(c2, i.now) then Outcome(c2, []) else Sent(s, SilentStep(c2, i.now), i.candidates, |i.candidates|)
  }

  /** How many of the first `n` candidates their own cooldowns allow. */
  function AllowedTo(candidates: seq<Candidate>, n: nat): nat
    requires n <= |candidates|
  {
    if n == 0 then 0 else AllowedTo(candidates, n - 1) + if candidates[n - 1].allowed then 1 else 0
  }

  /** The candidate loop sends, in order, the first allowed ones up to the limit, and nothing when messages are off. */
  lemma {:induction false} FirstAllowedAreSent(s: Settings, c: Cell, candidates: seq<Candidate>, n: nat)
    requires n <= |candidates|
    ensures var sent := Sent(s, c, candidates, n).sent;
            var limit := if s.messagesEnabled && s.maxPerPass > 0 then s.maxPerPass else 0;
            && |sent| == (if AllowedTo(candidates, n) < limit then AllowedTo(candidates, n) else limit)
            && forall k :: 0 <= k < n && candidates[k].allowed && AllowedTo(candidates, k) < limit ==>
                 AllowedTo(candidates, k) < |sent|
                 && sent[AllowedTo(candidates, k)] == Emission(candidates[k].content, candidates[k].at)
  {
    if n > 0 {
      FirstAllowedAreSent(s, c, candidates, n - 1);
      var limit := if s.messagesEnabled && s.maxPerPass > 0 then s.maxPerPass else 0;
      forall k | 0 <= k < n - 1 && candidates[k].allowed && AllowedTo(candidates, k) < limit
        ensures AllowedTo(candidates, k) < |Sent(s, c, candidates, n - 1).sent|
      {
      }
    }
  }

  /** When a pass sends at all: the runtime and the session are on, the user has not been active for 300 seconds, no
      cooldown runs after the last nudge was judged, and no silent period. */
  lemma WhenAPassSends(s: Settings, c: Cell, i: Input)
    ensures var open := s.enabled && i.eligible
                        && (i.updatedAt.Some? ==> i.now - i.updatedAt.value >= 300)
                        && !CoolingDown(FailureStep(c, i.now, i.lastFailed), i.now) && !Silent(c, i.now);
            var sent := Pass(s, c, i).sent;
            var limit := if open && s.messagesEnabled && s.maxPerPass > 0 then s.maxPerPass else 0;
            var allowed := AllowedTo(i.candidates, |i.candidates|);
            && |sent| == (if allowed < limit then allowed else limit)
            && (forall k :: 0 <= k < |i.candidates| && i.candidates[k].allowed && AllowedTo(i.candidates, k) < limit ==>
                  AllowedTo(i.candidates, k) < |sent|
                  && sent[AllowedTo(i.candidates, k)] == Emission(i.candidates[k].content, i.candidates[k].at))
            && (!s.enabled || !i.eligible || UserActive(i) ==> Pass(s, c, i).cell == c)
  {
    var c2 := CooldownStep(FailureStep(c, i.now, i.lastFailed), i.now);
    FirstAllowedAreSent(s, SilentStep(c2, i.now), i.candidates, |i.candidates|);
  }

  /** The brakes let go at their time and no later: a pass that finds the cooldown over forgets the failures, one that finds
      the silent period over forgets the repeats, and either sends what it may. */
  lemma BrakesLetGo(s: Settings, c: Cell, i: Input)
    requires s.enabled && i.eligible && !c.pending && (i.updatedAt.Some? ==> i.now - i.updatedAt.value >= 300)
    ensures var cooling := c.failures.Some? && c.failures.value.cooldownUntil.Some?;
            var silenced := c.loop.Some? && c.loop.value.silentUntil.Some?;
            var cooled := cooling ==> c.failures.value.cooldownUntil.value <= i.now;
            var spoken := silenced ==> c.loop.value.silentUntil.value <= i.now;
            var limit := if cooled && spoken && s.messagesEnabled && s.maxPerPass > 0 then s.maxPerPass else 0;
            var allowed := AllowedTo(i.candidates, |i.candidates|);
            && |Pass(s, c, i).sent| == (if allowed < limit then allowed else limit)
            && (Pass(s, c, i).cell.failures == if cooling && cooled then None else c.failures)
            && (Pass(s, c, i).sent == [] ==>
                  Pass(s, c, i).cell == c.(failures := if cooling && cooled then None else c.failures,
                                           loop := if cooled && silenced && spoken then None else c.loop))
  {
    WhenAPassSends(s, c, i);
    SentKeepsFailures(s, SilentStep(CooldownStep(c, i.now), i.now), i.candidates, |i.candidates|);
  }

  // ---- The runtime ----

  class AgentCognitiveRuntime {
    const settings: Settings
    var sessionFailureStates: map<string, Failures>
    var pendingNudges: set<string>
    var loopDetection: map<string, Loop>

    constructor (s: Settings)
      ensures settings == s && forall key :: CellOf(key) == FORGOTTEN
    {
      settings := s;
      sessionFailureStates := map[];
      pendingNudges := {};
      loopDetection := map[];
    }

    function CellOf(key: string): Cell
      reads this
    {
      Cell(if key in sessionFailureStates then Some(sessionFailureStates[key]) else None,
           key in pendingNudges,
           if key in loopDetection then Some(loopDetection[key]) else None)
    }

    twostate predicate OthersUnchanged(key: string)
      reads this
    {
      forall other :: other != key ==> CellOf(other) == old(CellOf(other))
    }

    /** _check_session_cooldown */
    method CheckSessionCooldown(key: string, now: int) returns (cooling: bool)
      modifies this`sessionFailureStates
      ensures cooling == old(CoolingDown(CellOf(key), now))
      ensures CellOf(key) == CooldownStep(old(CellOf(key)), now) && OthersUnchanged(key)
    {
      if key !in sessionFailureStates || sessionFailureStates[key].cooldownUntil.None? {
        return false;
      }
      if now < sessionFailureStates[key].cooldownUntil.value {
        return true;
      }
      sessionFailureStates := sessionFailureStates - {key};
      cooling := false;
    }

    /** _check_loop_silent_period */
    method CheckLoopSilentPeriod(key: string, now: int) returns (silent: bool)
      modifies this`loopDetection
      ensures silent == old(Silent(CellOf(key), now))
      ensures CellOf(key) == SilentStep(old(CellOf(key)), now) && OthersUnchanged(key)
    {
      if key !in loopDetection || loopDetection[key].silentUntil.None? {
        return false;
      }
      if now < loopDetection[key].silentUntil.value {
        return true;
      }
      loopDetection := loopDetection - {key};
      silent := false;
    }

    /** _update_loop_detection, after the pending mark */
    method UpdateLoopDetection(key: string, content: nat, at: int)
      modifies this`loopDetection
      ensures CellOf(key).(pending := true) == Emit(old(CellOf(key)), content, at)
      ensures CellOf(key).pending == old(CellOf(key).pending) && OthersUnchanged(key)
    {
      var state := Loop(content, 0, None);
      if key in loopDetection && loopDetection[key].lastHash == content {
        state := loopDetection[key];
      }
      state := state.(repeats := state.repeats + 1);
      if state.repeats >= LOOP_REPEAT_THRESHOLD {
        state := state.(silentUntil := Some(at + LOOP_SILENT_PERIOD));
      }
      loopDetection := loopDetection[key := state];
    }

    /** _update_failure_state; `failed` is what _detect_last_turn_failure finds. */
    method UpdateFailureState(key: string, now: int, failed: bool)
      modifies this`sessionFailureStates, this`pendingNudges
      ensures CellOf(key) == FailureStep(old(CellOf(key)), now, failed) && OthersUnchanged(key)
    {
      if key !in pendingNudges {
        return;
      }
      pendingNudges := pendingNudges - {key};
      var state := if key in sessionFailureStates then sessionFailureStates[key] else Failures(0, None);
      if failed {
        state := state.(count := state.count + 1);
        if state.count >= FAILURE_THRESHOLD {
          state := state.(cooldownUntil := Some(now + COOLDOWN));
        }
      } else {
        state := Failures(0, None);
      }
      sessionFailureStates := sessionFailureStates[key := state];
    }

    /** run_cognitive_pass_for_session */
    method RunCognitivePass(key: string, i: Input) returns (emitted: seq<Emission>)
      modifies this
      ensures Outcome(CellOf(key), emitted) == Pass(settings, old(CellOf(key)), i)
      ensures OthersUnchanged(key)
    {
      hide FailureStep;
      emitted := [];
      if !settings.enabled || !i.eligible {
        return;
      }
      if i.updatedAt.Some? && i.now - i.updatedAt.value < USER_ACTIVE_WINDOW {
        return;
      }
      UpdateFailureState(key, i.now, i.lastFailed);
      var cooling := CheckSessionCooldown(key, i.now);
      if cooling {
        return;
      }
      var silent := CheckLoopSilentPeriod(key, i.now);
      if silent {
        return;
      }
      emitted := SendCandidates(key, i.candidates);
    }

    /** The candidate loop of the pass. */
    method SendCandidates(key: string, candidates: seq<Candidate>) returns (emitted: seq<Emission>)
      modifies this`pendingNudges, this`loopDetection
      ensures Outcome(CellOf(key), emitted) == Sent(settings, old(CellOf(key)), candidates, |candidates|)
      ensures OthersUnchanged(key)
    {
      emitted := [];
      for k := 0 to |candidates|
        invariant Outcome(CellOf(key), emitted) == Sent(settings, old(CellOf(key)), candidates, k)
        invariant OthersUnchanged(key)
      {
        var candidate := candidates[k];
        var allowed := candidate.allowed;
        if |emitted| >= settings.maxPerPass {
          allowed := false;
        }
        if !settings.messagesEnabled {
          allowed := false;
        }
        if allowed {
          emitted := emitted + [Emission(candidate.content, candidate.at)];
          pendingNudges := pendingNudges + {key};
          UpdateLoopDetection(key, candidate.content, candidate.at);
        }
      }
    }
  }

  // ---- Runs of passes over one session ----

  function Run(s: Settings, c: Cell, inputs: seq<Input>, n: nat): Outcome
    requires n <= |inputs|
  {
    if n == 0 then Outcome(c, [])
    else
      var Outcome(d, sent) := Run(s, c, inputs, n - 1);
      var Outcome(e, more) := Pass(s, d, inputs[n - 1]);
      Outcome(e, sent + more)
  }

  /** The latest time a pass refers to. */
  function Last(i: Input, n: nat): int
    requires n <= |i.candidates|
  {
    if n == 0 then i.now else i.candidates[n - 1].at
  }

  function End(i: Input): int {
    Last(i, |i.candidates|)
  }

  /** A monotone clock within a pass. */
  ghost predicate Orderly(i: Input) {
    forall n :: 0 <= n < |i.candidates| ==> Last(i, n) <= i.candidates[n].at
  }

  /** A monotone clock over passes. */
  ghost predicate Ticking(inputs: seq<Input>) {
    && (forall k :: 0 <= k < |inputs| ==> Orderly(inputs[k]))
    && (forall k :: 0 <= k < |inputs| - 1 ==> End(inputs[k]) <= inputs[k + 1].now)
  }

  lemma {:induction false} LastGrows(i: Input, n: nat)
    requires Orderly(i) && n <= |i.candidates|
    ensures i.now <= Last(i, n)
  {
    if n > 0 {
      LastGrows(i, n - 1);
      assert Last(i, n - 1) <= i.candidates[n - 1].at;
    }
  }

  // ---- The circuit breaker ----

  /** A cooldown leaves no nudge to be judged, the counter stays below the threshold without one, and never passes it. */
  predicate BreakerOk(c: Cell) {
    c.failures.Some? ==>
      && c.failures.value.count <= FAILURE_THRESHOLD
      && (c.failures.value.cooldownUntil.Some? <==> c.failures.value.count == FAILURE_THRESHOLD)
      && (c.failures.value.cooldownUntil.Some? ==> !c.pending)
  }

  lemma {:induction false} SentKeepsFailures(s: Settings, c: Cell, candidates: seq<Candidate>, n: nat)
    requires n <= |candidates|
    ensures Sent(s, c, candidates, n).cell.failures == c.failures
    ensures Sent(s, c, candidates, n).sent == [] ==> Sent(s, c, candidates, n).cell == c
  {
    if n > 0 {
      SentKeepsFailures(s, c, candidates, n - 1);
    }
  }

  lemma PassKeepsBreaker(s: Settings, c: Cell, i: Input)
    requires BreakerOk(c)
    ensures BreakerOk(Pass(s, c, i).cell)
  {
    var c2 := CooldownStep(FailureStep(c, i.now, i.lastFailed), i.now);
    SentKeepsFailures(s, SilentStep(c2, i.now), i.candidates, |i.candidates|);
  }

  lemma {:induction false} BreakerHolds(s: Settings, inputs: seq<Input>, n: nat)
    requires n <= |inputs|
    ensures BreakerOk(Run(s, FORGOTTEN, inputs, n).cell)
  {
    if n > 0 {
      BreakerHolds(s, inputs, n - 1);
      PassKeepsBreaker(s, Run(s, FORGOTTEN, inputs, n - 1).cell, inputs[n - 1]);
    }
  }

  /** The pass reaches its failure check and records the third consecutive failure there. */
  predicate Trips(s: Settings, c: Cell, i: Input) {
    && s.enabled && i.eligible && !UserActive(i) && c.pending && i.lastFailed
    && c.failures.Some? && c.failures.value.count == FAILURE_THRESHOLD - 1
  }

  predicate OpenUntil(c: Cell, t: int) {
    c.failures.Some? && c.failures.value.cooldownUntil == Some(t) && !c.pending
  }

  ghost predicate NotBefore(sent: seq<Emission>, t: int) {
    forall k :: 0 <= k < |sent| ==> t <= sent[k].at
  }

  lemma {:induction false} SentTimes(s: Settings, c: Cell, i: Input, n: nat)
    requires n <= |i.candidates| && Orderly(i)
    ensures NotBefore(Sent(s, c, i.candidates, n).sent, i.now)
  {
    if n > 0 {
      SentTimes(s, c, i, n - 1);
      LastGrows(i, n - 1);
      assert Last(i, n - 1) <= i.candidates[n - 1].at;
    }
  }

  lemma PassTimes(s: Settings, c: Cell, i: Input)
    requires Orderly(i)
    ensures NotBefore(Pass(s, c, i).sent, i.now)
  {
    SentTimes(s, SilentStep(CooldownStep(FailureStep(c, i.now, i.lastFailed), i.now), i.now), i, |i.candidates|);
  }

  lemma PassWhileOpen(s: Settings, c: Cell, i: Input, t: int)
    requires OpenUntil(c, t) && i.now < t
    ensures Pass(s, c, i) == Outcome(c, [])
  {
  }

  lemma RunNext(s: Settings, c: Cell, inputs: seq<Input>, n: nat)
    requires 0 < n <= |inputs|
    ensures var Outcome(d, sent) := Run(s, c, inputs, n - 1);
            var Outcome(e, more) := Pass(s, d, inputs[n - 1]);
            Run(s, c, inputs, n) == Outcome(e, sent + more)
  {
  }

  /** While the breaker is open, passes send nothing and leave it open; what is sent later is sent later than `t`. */
  lemma {:induction false} NothingBefore(s: Settings, c: Cell, inputs: seq<Input>, n: nat, t: int)
    requires n <= |inputs| && Ticking(inputs) && OpenUntil(c, t)
    ensures var Outcome(d, sent) := Run(s, c, inputs, n);
            ((OpenUntil(d, t) && sent == []) || (n > 0 && t <= inputs[n - 1].now)) && NotBefore(sent, t)
  {
    if n > 0 {
      NothingBefore(s, c, inputs, n - 1, t);
      RunNext(s, c, inputs, n);
      var Outcome(d, sent) := Run(s, c, inputs, n - 1);
      var i := inputs[n - 1];
      hide Pass, Run, OpenUntil;
      assert Orderly(i);
      PassTimes(s, d, i);
      if i.now < t {
        if n > 1 {
          LastGrows(inputs[n - 2], |inputs[n - 2].candidates|);
          assert End(inputs[n - 2]) <= i.now;
        }
        PassWhileOpen(s, d, i, t);
      }
    }
  }

  lemma TripOpens(s: Settings, c: Cell, i: Input)
    requires Trips(s, c, i)
    ensures Pass(s, c, i).sent == [] && OpenUntil(Pass(s, c, i).cell, i.now + COOLDOWN)
  {
  }

  /** Circuit breaker: in every run, from the pass that records the third consecutive failure on, nothing is sent for
      the session for 1800 seconds, whatever the later passes find: no later success can close the breaker early. */
  lemma NoNudgeInCooldown(s: Settings, before: seq<Input>, i: Input, after: seq<Input>)
    requires Ticking(after) && Trips(s, Run(s, FORGOTTEN, before, |before|).cell, i)
    ensures var c := Run(s, FORGOTTEN, before, |before|).cell;
            var sent := Run(s, Pass(s, c, i).cell, after, |after|).sent;
            Pass(s, c, i).sent == [] && NotBefore(sent, i.now + COOLDOWN)
  {
    var c := Run(s, FORGOTTEN, before, |before|).cell;
    hide Run, Pass, OpenUntil, NotBefore;
    TripOpens(s, c, i);
    NothingBefore(s, Pass(s, c, i).cell, after, |after|, i.now + COOLDOWN);
  }

  /** Every nudge leaves the user alone for 300 seconds after the session's last update, and a pass sends at most
      `maxPerPass`. */
  lemma Politeness(s: Settings, c: Cell, i: Input)
    requires Orderly(i)
    ensures var sent := Pass(s, c, i).sent;
            && (s.maxPerPass >= 0 ==> |sent| <= s.maxPerPass)
            && (i.updatedAt.Some? ==> NotBefore(sent, i.updatedAt.value + USER_ACTIVE_WINDOW))
  {
    PassTimes(s, c, i);
  }

  // ---- The self-loop brake ----

  /** Four nudges in a row with the same content do not come within the silent period. */
  ghost predicate Spaced(sent: seq<Emission>) {
    forall k :: 0 <= k < |sent| - 3 && FourAlike(sent, k) ==> sent[k + 3].at - sent[k].at >= LOOP_SILENT_PERIOD
  }

  predicate FourAlike(sent: seq<Emission>, k: nat)
    requires k + 3 < |sent|
  {
    sent[k].content == sent[k + 1].content == sent[k + 2].content == sent[k + 3].content
  }

  ghost predicate InOrder(sent: seq<Emission>, clock: int) {
    && (forall k :: 0 <= k < |sent| - 1 ==> sent[k].at <= sent[k + 1].at)
    && (sent != [] ==> sent[|sent| - 1].at <= clock)
  }

  /** A nudge with this content, sent after the first `n` at `at` or later, does not continue a run of the same. */
  ghost predicate Fresh(sent: seq<Emission>, n: nat, content: nat, at: int)
    requires n <= |sent|
  {
    n == 0 || sent[n - 1].content != content || sent[n - 1].at + LOOP_SILENT_PERIOD <= at
  }

  /** The loop state says how many of the last nudges were the same. */
  ghost predicate LoopOk(c: Cell, sent: seq<Emission>, clock: int) {
    match c.loop
    case None => sent == [] || sent[|sent| - 1].at + LOOP_SILENT_PERIOD <= clock
    case Some(l) =>
      && 1 <= l.repeats <= LOOP_REPEAT_THRESHOLD && l.repeats <= |sent|
      && (forall k :: |sent| - l.repeats <= k < |sent| ==> sent[k].content == l.lastHash)
      && Fresh(sent, |sent| - l.repeats, l.lastHash, sent[|sent| - l.repeats].at)
      && l.silentUntil == if l.repeats < LOOP_REPEAT_THRESHOLD then None
                          else Some(sent[|sent| - 1].at + LOOP_SILENT_PERIOD)
  }

  ghost predicate BrakeOk(c: Cell, sent: seq<Emission>, clock: int) {
    InOrder(sent, clock) && Spaced(sent) && LoopOk(c, sent, clock)
  }

  lemma EmitLoop(c: Cell, sent: seq<Emission>, clock: int, content: nat, at: int)
    requires InOrder(sent, clock) && LoopOk(c, sent, clock) && clock <= at
    requires c.loop.Some? ==> c.loop.value.silentUntil.None?
    ensures LoopOk(Emit(c, content, at), sent + [Emission(content, at)], at)
    ensures InOrder(sent + [Emission(content, at)], at)
  {
    var more := sent + [Emission(content, at)];
    assert forall k :: 0 <= k < |sent| ==> more[k] == sent[k];
  }

  /** The last four nudges, if alike, reach back over the place where the run of the last ones began. */
  lemma LastFourSpaced(l: Loop, sent: seq<Emission>)
    requires |sent| >= 4 && 1 <= l.repeats <= LOOP_REPEAT_THRESHOLD && FourAlike(sent, |sent| - 4)
    requires sent[|sent| - 1].content == l.lastHash
    requires Fresh(sent, |sent| - l.repeats, l.lastHash, sent[|sent| - l.repeats].at)
    requires forall k :: 0 <= k < |sent| - 1 ==> sent[k].at <= sent[k + 1].at
    ensures sent[|sent| - 1].at - sent[|sent| - 4].at >= LOOP_SILENT_PERIOD
  {
    var start := |sent| - l.repeats;
    Monotone(sent, |sent| - 4, start - 1);
    Monotone(sent, start, |sent| - 1);
  }

  lemma EmitKeepsBrake(c: Cell, sent: seq<Emission>, clock: int, content: nat, at: int)
    requires BrakeOk(c, sent, clock) && clock <= at && (c.loop.Some? ==> c.loop.value.silentUntil.None?)
    ensures BrakeOk(Emit(c, content, at), sent + [Emission(content, at)], at)
  {
    EmitLoop(c, sent, clock, content, at);
    var more := sent + [Emission(content, at)];
    forall k | 0 <= k < |more| - 3 && FourAlike(more, k) ensures more[k + 3].at - more[k].at >= LOOP_SILENT_PERIOD {
      if k == |more| - 4 {
        LastFourSpaced(Emit(c, content, at).loop.value, more);
      } else {
        assert FourAlike(sent, k);
      }
    }
  }

  lemma {:induction false} Monotone(sent: seq<Emission>, i: nat, j: nat)
    requires i <= j < |sent| && forall k :: 0 <= k < |sent| - 1 ==> sent[k].at <= sent[k + 1].at
    ensures sent[i].at <= sent[j].at
    decreases j - i
  {
    if i < j {
      Monotone(sent, i, j - 1);
    }
  }

  lemma {:induction false} SentAtMostOne(s: Settings, c: Cell, i: Input, sent: seq<Emission>, n: nat)
    requires n <= |i.candidates| && Orderly(i) && s.maxPerPass <= 1
    requires BrakeOk(c, sent, i.now) && (c.loop.Some? ==> c.loop.value.silentUntil.None?)
    ensures var Outcome(d, more) := Sent(s, c, i.candidates, n);
            BrakeOk(d, sent + more, Last(i, n)) && (more == [] ==> d == c)
  {
    hide BrakeOk, Emit;
    if n == 0 {
      assert sent + [] == sent;
    } else {
      SentAtMostOne(s, c, i, sent, n - 1);
      var Outcome(d, more) := Sent(s, c, i.candidates, n - 1);
      var candidate := i.candidates[n - 1];
      assert Last(i, n - 1) <= candidate.at == Last(i, n);
      if candidate.allowed && |more| < s.maxPerPass && s.messagesEnabled {
        assert more == [] && sent + more == sent;
        EmitKeepsBrake(c, sent, Last(i, n - 1), candidate.content, candidate.at);
        assert sent + (more + [Emission(candidate.content, candidate.at)]) == sent + [Emission(candidate.content, candidate.at)];
      } else {
        ClockMoves(d, sent + more, Last(i, n - 1), Last(i, n));
      }
    }
  }

  lemma ClockMoves(c: Cell, sent: seq<Emission>, clock: int, later: int)
    requires BrakeOk(c, sent, clock) && clock <= later
    ensures BrakeOk(c, sent, later)
  {
  }

  /** Where the candidates of a pass are reached, no silent period is running. */
  lemma SilenceOver(c: Cell, sent: seq<Emission>, now: int)
    requires BrakeOk(c, sent, now) && !Silent(c, now)
    ensures BrakeOk(SilentStep(c, now), sent, now)
    ensures SilentStep(c, now).loop.Some? ==> SilentStep(c, now).loop.value.silentUntil.None?
  {
  }

  lemma PassKeepsBrake(s: Settings, c: Cell, i: Input, sent: seq<Emission>, clock: int)
    requires BrakeOk(c, sent, clock) && clock <= i.now && Orderly(i) && s.maxPerPass <= 1
    ensures BrakeOk(Pass(s, c, i).cell, sent + Pass(s, c, i).sent, End(i))
  {
    LastGrows(i, |i.candidates|);
    var c1 := FailureStep(c, i.now, i.lastFailed);
    var c2 := CooldownStep(c1, i.now);
    ClockMoves(c, sent, clock, i.now);
    ClockMoves(c, sent, clock, End(i));
    SameLoop(c, c1, sent, End(i));
    SameLoop(c, c2, sent, i.now);
    SameLoop(c, c2, sent, End(i));
    hide BrakeOk, FailureStep, CooldownStep, SilentStep;
    assert sent + [] == sent;
    if !Silent(c2, i.now) {
      SilenceOver(c2, sent, i.now);
      SentAtMostOne(s, SilentStep(c2, i.now), i, sent, |i.candidates|);
    }
  }

  lemma SameLoop(c: Cell, d: Cell, sent: seq<Emission>, clock: int)
    requires BrakeOk(c, sent, clock) && d.loop == c.loop
    ensures BrakeOk(d, sent, clock)
  {
  }

  lemma {:induction false} RunKeepsBrake(s: Settings, inputs: seq<Input>, n: nat)
    requires 0 < n <= |inputs| && Ticking(inputs) && s.maxPerPass <= 1
    ensures var Outcome(c, sent) := Run(s, FORGOTTEN, inputs, n);
            BrakeOk(c, sent, End(inputs[n - 1]))
  {
    var i := inputs[n - 1];
    assert Orderly(i);
    if n == 1 {
      PassKeepsBrake(s, FORGOTTEN, i, [], i.now);
    } else {
      RunKeepsBrake(s, inputs, n - 1);
      var Outcome(c, sent) := Run(s, FORGOTTEN, inputs, n - 1);
      assert End(inputs[n - 2]) <= i.now;
      PassKeepsBrake(s, c, i, sent, End(inputs[n - 2]));
    }
  }

  /** Self-loop bound: with at most one nudge per pass, in every run and whatever the users do, any four consecutive
      nudges of the same content span at least 3600 seconds. */
  lemma SelfLoopBound(s: Settings, inputs: seq<Input>)
    requires Ticking(inputs) && s.maxPerPass <= 1
    ensures Spaced(Run(s, FORGOTTEN, inputs, |inputs|).sent)
  {
    if inputs != [] {
      RunKeepsBrake(s, inputs, |inputs|);
    }
  }

  /** Two equal candidates at one moment. */
  function Burst(content: nat, at: int): Input {
    Input(true, at, None, false, [Candidate(content, true, at), Candidate(content, true, at)])
  }

  /** The bound needs that limit: with any greater one, two passes a moment apart send the same nudge four times. */
  lemma FourWithinAMoment(maxPerPass: int, content: nat, at: int)
    requires maxPerPass >= 2
    ensures var s := Settings(true, true, maxPerPass);
            var inputs := [Burst(content, at), Burst(content, at + 1)];
            Ticking(inputs) && !Spaced(Run(s, FORGOTTEN, inputs, 2).sent)
  {
    var s := Settings(true, true, maxPerPass);
    var inputs := [Burst(content, at), Burst(content, at + 1)];
    var e0, e1 := Emission(content, at), Emission(content, at + 1);
    SentTwo(s, FORGOTTEN, content, at);
    var c1 := Run(s, FORGOTTEN, inputs, 1).cell;
    assert Run(s, FORGOTTEN, inputs, 0) == Outcome(FORGOTTEN, []);
    assert Run(s, FORGOTTEN, inputs, 1).sent == [e0, e0];
    var c2 := CooldownStep(FailureStep(c1, at + 1, false), at + 1);
    assert c2.loop == c1.loop && SilentStep(c2, at + 1) == c2;
    SentTwo(s, c2, content, at + 1);
    var sent := Run(s, FORGOTTEN, inputs, 2).sent;
    assert sent == [e0, e0, e1, e1];
    assert FourAlike(sent, 0);
  }

  lemma SentTwo(s: Settings, c: Cell, content: nat, at: int)
    requires s.maxPerPass >= 2 && s.messagesEnabled
    ensures Sent(s, c, Burst(content, at).candidates, 2)
         == Outcome(Emit(Emit(c, content, at), content, at), [Emission(content, at), Emission(content, at)])
  {
    var all := Burst(content, at).candidates;
    var Outcome(c0, none) := Sent(s, c, all, 0);
    assert c0 == c && none == [];
    var Outcome(c1, one) := Sent(s, c, all, 1);
    assert c1 == Emit(c, content, at) && one == none + [Emission(content, at)];
    var Outcome(c2, two) := Sent(s, c, all, 2);
    assert c2 == Emit(c1, content, at) && two == one + [Emission(content, at)];
  }
}
