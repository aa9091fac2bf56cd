/** The auxiliary model router: which candidates a call tries, how failures put them to rest, and what comes back. */
module AuxiliaryRouter {
  import opened Actions

  datatype Reason = Payment | Transient

  /** A provider's answer.  `paymentWords`, `finalWords` and `transientKind` tell what the error texts contain. */
  datatype Response = Response(
    isError: bool,
    content: string,
    reasoning: string,
    toolCalls: nat,
    status: Option<int>,
    paymentWords: bool,
    finalWords: bool,
    transientKind: bool,
    retryAfter: Option<real>)

  const NO_STATUS := Response(true, "", "", 0, None, false, false, false, None)

  /** What call_llm makes up when nothing was tried, and when the last answer was blank. */
  const NOT_CONFIGURED := NO_STATUS.(content := "No LLM provider configured")
  const EMPTY_CONTENT := NO_STATUS

  datatype Cooldowns = Cooldowns(payment: real, transient: real)

  // ---- Classification ----

  /** _is_empty_response */
  predicate Blank(r: Response) {
    Strip(r.content) == "" && Strip(r.reasoning) == ""
  }

  /** _fallback_reason */
  function FallbackReason(r: Response): Option<Reason> {
    if r.status == Some(402) || r.paymentWords then Some(Payment)
    else if (r.status.Some? && r.status.value in {400, 401, 403, 404, 422}) || r.finalWords then None
    else if (r.status.Some? && r.status.value >= 500) || r.transientKind then Some(Transient)
    else None
  }

  /** A payment failure goes over to the next candidate whatever its status; a refusal by status or words does not; a server
      error or a transient one does; anything else ends the call. */
  lemma ReasonMeans(r: Response)
    ensures FallbackReason(r) == Some(Payment) <==> r.status == Some(402) || r.paymentWords
    ensures FallbackReason(r) == Some(Transient) <==>
            && r.status != Some(402) && !r.paymentWords && !r.finalWords
            && r.status != Some(400) && r.status != Some(401) && r.status != Some(403) && r.status != Some(404)
            && r.status != Some(422)
            && ((r.status.Some? && r.status.value >= 500) || r.transientKind)
  {
  }

  /** _cooldown_for */
  function CooldownFor(c: Cooldowns, r: Response, reason: Reason): real {
    if reason == Payment then c.payment
    else if r.retryAfter.Some? then (if r.retryAfter.value > 0.0 then r.retryAfter.value else 0.0)
    else c.transient
  }

  // ---- Candidates ----

  /** A fallback preset; `creates` tells whether a provider can be made for it. */
  datatype Preset = Preset(provider: string, model: string, creates: bool)

  function KeyOf(p: Preset): string {
    (if p.provider == "" then "auto" else p.provider) + ":" + p.model
  }

  function KeysTo(presets: seq<Preset>, n: nat): set<string>
    requires n <= |presets|
  {
    set i | 0 <= i < n :: KeyOf(presets[i])
  }

  /** The keys of the candidates after `n` presets: each key counts at its first preset only. */
  function CandidatesTo(presets: seq<Preset>, n: nat): (keys: seq<string>)
    requires n <= |presets|
    ensures keys != [] && keys[0] == "primary"
  {
    if n == 0 then ["primary"]
    else if KeyOf(presets[n - 1]) in KeysTo(presets, n - 1) || !presets[n - 1].creates then CandidatesTo(presets, n - 1)
    else CandidatesTo(presets, n - 1) + [KeyOf(presets[n - 1])]
  }

  lemma KeyIsNotPrimary(p: Preset)
    ensures KeyOf(p) != "primary"
  {
    var provider := if p.provider == "" then "auto" else p.provider;
    assert KeyOf(p)[|provider|] == ':';
    assert ':' !in "primary";
  }

  ghost predicate AllDifferent(keys: seq<string>) {
    forall i, j :: 0 <= i < j < |keys| ==> keys[i] != keys[j]
  }

  lemma {:induction false} CandidatesDiffer(presets: seq<Preset>, n: nat)
    requires n <= |presets|
    ensures AllDifferent(CandidatesTo(presets, n))
    ensures forall i :: 0 < i < |CandidatesTo(presets, n)| ==> CandidatesTo(presets, n)[i] in KeysTo(presets, n)
  {
    if n > 0 {
      CandidatesDiffer(presets, n - 1);
      KeyIsNotPrimary(presets[n - 1]);
      hide KeyOf;
      assert forall k :: k in KeysTo(presets, n - 1) ==> k in KeysTo(presets, n);
      assert KeyOf(presets[n - 1]) in KeysTo(presets, n);
    }
  }

  /** The preset can be made, and no earlier one has its key. */
  predicate First(presets: seq<Preset>, i: nat)
    requires i < |presets|
  {
    presets[i].creates && forall j :: 0 <= j < i ==> KeyOf(presets[j]) != KeyOf(presets[i])
  }

  function FirstsTo(presets: seq<Preset>, n: nat): nat
    requires n <= |presets|
  {
    if n == 0 then 0 else FirstsTo(presets, n - 1) + if First(presets, n - 1) then 1 else 0
  }

  /** The candidates are the primary and then, in order, exactly the presets that can be made and are the first of their
      key. */
  lemma {:induction false} CandidatesAre(presets: seq<Preset>, n: nat)
    requires n <= |presets|
    ensures var keys := CandidatesTo(presets, n);
            && |keys| == 1 + FirstsTo(presets, n)
            && forall i :: 0 <= i < n && First(presets, i) ==>
                 FirstsTo(presets, i) < FirstsTo(presets, n) && keys[1 + FirstsTo(presets, i)] == KeyOf(presets[i])
  {
    hide KeyOf;
    if n > 0 {
      CandidatesAre(presets, n - 1);
    }
  }

  /** _candidates: primary first, then the presets in order without repeated keys. */
  method Candidates(enabled: bool, presets: seq<Preset>) returns (keys: seq<string>)
    ensures keys == if enabled then CandidatesTo(presets, |presets|) else ["primary"]
    ensures AllDifferent(keys)
  {
    keys := ["primary"];
    if !enabled {
      return;
    }
    CandidatesDiffer(presets, |presets|);
    var seen := {"primary"};
    for i := 0 to |presets|
      invariant keys == CandidatesTo(presets, i) && seen == KeysTo(presets, i) + {"primary"}
    {
      KeyIsNotPrimary(presets[i]);
      var key := KeyOf(presets[i]);
      assert KeysTo(presets, i + 1) == KeysTo(presets, i) + {key};
      if key !in seen {
        seen := seen + {key};
        if presets[i].creates {
          keys := keys + [key];
        }
      }
    }
  }

  // ---- A call ----

  /** One candidate's turn: when its health is looked at, what it answers, and when it has answered. */
  datatype Attempt = Attempt(checkAt: real, response: Response, doneAt: real)

  datatype Event = Invoked(key: string, at: real) | Marked(key: string, until: real) | PrimaryChanged

  /** A call in progress: the cooldowns, the events so far, the positions tried, the last answer, and the answer to
      return if there is one already. */
  datatype Progress = Progress(
    unhealthy: map<string, real>,
    trace: seq<Event>,
    tried: seq<nat>,
    last: Option<Response>,
    answer: Option<Response>)

  predicate Unhealthy(unhealthy: map<string, real>, key: string, at: real) {
    key in unhealthy && at < unhealthy[key]
  }

  function MarkedFor(p: Progress, key: string, ttl: real, at: real): Progress {
    if ttl <= 0.0 then p else p.(unhealthy := p.unhealthy[key := at + ttl], trace := p.trace + [Marked(key, at + ttl)])
  }

  /** The loop body of call_llm for the candidate at position `i`. */
  function Try(c: Cooldowns, p: Progress, i: nat, key: string, a: Attempt): Progress {
    if p.answer.Some? || Unhealthy(p.unhealthy, key, a.checkAt) then p
    else
      var q := p.(unhealthy := p.unhealthy - {key}, trace := p.trace + [Invoked(key, a.checkAt)], tried := p.tried + [i]);
      var r := a.response;
      if !r.isError && !Blank(r) then q.(answer := Some(r))
      else if !r.isError then MarkedFor(q, key, CooldownFor(c, r, Transient), a.doneAt).(last := Some(r))
      else
        match FallbackReason(r)
        case None => q.(last := Some(r), answer := Some(r))
        case Some(reason) => MarkedFor(q, key, CooldownFor(c, r, reason), a.doneAt).(last := Some(r))
  }

  function TryTo(c: Cooldowns, p: Progress, keys: seq<string>, attempts: seq<Attempt>, n: nat): Progress
    requires n <= |keys| == |attempts|
  {
    if n == 0 then p else Try(c, TryTo(c, p, keys, attempts, n - 1), n - 1, keys[n - 1], attempts[n - 1])
  }

  function Result(p: Progress): Response {
    if p.answer.Some? then p.answer.value
    else if p.last.Some? && Blank(p.last.value) then EMPTY_CONTENT
    else if p.last.Some? then p.last.value
    else NOT_CONFIGURED
  }

  class AuxiliaryLLMRouter {
    const cooldowns: Cooldowns
    var primaryProvider: nat
    var primaryModel: string
    var unhealthyUntil: map<string, real>
    ghost var trace: seq<Event>

    constructor (c: Cooldowns, provider: nat, model: string)
      ensures cooldowns == c && unhealthyUntil == map[] && trace == []
    {
      cooldowns := c;
      primaryProvider := provider;
      primaryModel := model;
      unhealthyUntil := map[];
      trace := [];
    }

    method SetPrimary(provider: nat, model: string)
      modifies this
      ensures primaryProvider == provider && primaryModel == model
      ensures var changed := provider != old(primaryProvider) || model != old(primaryModel);
              && unhealthyUntil == (if changed then old(unhealthyUntil) - {"primary"} else old(unhealthyUntil))
              && trace == (if changed then old(trace) + [PrimaryChanged] else old(trace))
    {
      var changed := provider != primaryProvider || model != primaryModel;
      primaryProvider := provider;
      primaryModel := model;
      if changed {
        unhealthyUntil := unhealthyUntil - {"primary"};
        trace := trace + [PrimaryChanged];
      }
    }

    method IsUnhealthy(key: string, at: real) returns (unhealthy: bool)
      modifies this`unhealthyUntil
      ensures unhealthy == Unhealthy(old(unhealthyUntil), key, at)
      ensures unhealthyUntil == if unhealthy then old(unhealthyUntil) else old(unhealthyUntil) - {key}
    {
      if key !in unhealthyUntil {
        return false;
      }
      if unhealthyUntil[key] <= at {
        unhealthyUntil := unhealthyUntil - {key};
        return false;
      }
      unhealthy := true;
    }

    method MarkUnhealthy(key: string, ttl: real, at: real)
      modifies this`unhealthyUntil, this`trace
      ensures unhealthyUntil == if ttl <= 0.0 then old(unhealthyUntil) else old(unhealthyUntil)[key := at + ttl]
      ensures trace == if ttl <= 0.0 then old(trace) else old(trace) + [Marked(key, at + ttl)]
    {
      if ttl <= 0.0 {
        return;
      }
      unhealthyUntil := unhealthyUntil[key := at + ttl];
      trace := trace + [Marked(key, at + ttl)];
    }

    method CallLlm(keys: seq<string>, attempts: seq<Attempt>) returns (response: Response, ghost end: Progress)
      requires |keys| == |attempts|
      modifies this`unhealthyUntil, this`trace
      ensures end == TryTo(cooldowns, Progress(old(unhealthyUntil), old(trace), [], None, None), keys, attempts, |keys|)
      ensures unhealthyUntil == end.unhealthy && trace == end.trace && response == Result(end)
      ensures response.isError || !Blank(response)
    {
      hide Blank, CooldownFor, FallbackReason, TryTo;
      BlankEnd();
      var last: Option<Response> := None;
      ghost var start := Progress(unhealthyUntil, trace, [], None, None);
      end := start;
      TryNone(cooldowns, start, keys, attempts);
      for i := 0 to |keys|
        invariant end == TryTo(cooldowns, start, keys, attempts, i)
        invariant end.unhealthy == unhealthyUntil && end.trace == trace && end.last == last && end.answer.None?
        invariant last.Some? ==> last.value.isError || Blank(last.value)
      {
        TryNext(cooldowns, start, keys, attempts, i);
        end := Try(cooldowns, end, i, keys[i], attempts[i]);
        var skip := IsUnhealthy(keys[i], attempts[i].checkAt);
        if skip {
          continue;
        }
        trace := trace + [Invoked(keys[i], attempts[i].checkAt)];
        response := attempts[i].response;
        if !response.isError && !Blank(response) {
          AnsweredStays(cooldowns, start, keys, attempts, i + 1);
          end := TryTo(cooldowns, start, keys, attempts, |keys|);
          return;
        }
        if !response.isError {
          MarkUnhealthy(keys[i], CooldownFor(cooldowns, response, Transient), attempts[i].doneAt);
          last := Some(response);
          continue;
        }
        last := Some(response);
        var reason := FallbackReason(response);
        if reason.None? {
          AnsweredStays(cooldowns, start, keys, attempts, i + 1);
          end := TryTo(cooldowns, start, keys, attempts, |keys|);
          return;
        }
        MarkUnhealthy(keys[i], CooldownFor(cooldowns, response, reason.value), attempts[i].doneAt);
      }
      response := if last.Some? && Blank(last.value) then EMPTY_CONTENT
                  else if last.Some? then last.value
                  else NOT_CONFIGURED;
    }
  }

  lemma BlankEnd()
    ensures Blank(EMPTY_CONTENT) && NOT_CONFIGURED.isError && EMPTY_CONTENT.isError
  {
  }

  lemma TryNone(c: Cooldowns, p: Progress, keys: seq<string>, attempts: seq<Attempt>)
    requires |keys| == |attempts|
    ensures TryTo(c, p, keys, attempts, 0) == p
  {
  }

  lemma TryNext(c: Cooldowns, p: Progress, keys: seq<string>, attempts: seq<Attempt>, n: nat)
    requires n < |keys| == |attempts|
    ensures TryTo(c, p, keys, attempts, n + 1) == Try(c, TryTo(c, p, keys, attempts, n), n, keys[n], attempts[n])
  {
  }

  lemma {:induction false} AnsweredStays(c: Cooldowns, p: Progress, keys: seq<string>, attempts: seq<Attempt>, n: nat)
    requires n <= |keys| == |attempts| && TryTo(c, p, keys, attempts, n).answer.Some?
    ensures TryTo(c, p, keys, attempts, |keys|) == TryTo(c, p, keys, attempts, n)
    decreases |keys| - n
  {
    if n < |keys| {
      AnsweredStays(c, p, keys, attempts, n + 1);
    }
  }

  // ---- Sequences of calls ----

  /** A call over some candidates, or a change of the primary provider or model. */
  datatype Op = Call(keys: seq<string>, attempts: seq<Attempt>) | ChangePrimary

  /** The cooldowns and the events, over any number of operations. */
  datatype Memory = Memory(unhealthy: map<string, real>, trace: seq<Event>)

  function Begin(m: Memory): Progress {
    Progress(m.unhealthy, m.trace, [], None, None)
  }

  function Do(c: Cooldowns, m: Memory, op: Op): Memory
    requires op.Call? ==> |op.keys| == |op.attempts|
  {
    match op
    case Call(keys, attempts) =>
      var p := TryTo(c, Begin(m), keys, attempts, |keys|);
      Memory(p.unhealthy, p.trace)
    case ChangePrimary => Memory(m.unhealthy - {"primary"}, m.trace + [PrimaryChanged])
  }

  /** The time after the first `n` candidates of a call begun at `now`. */
  function After(attempts: seq<Attempt>, now: real, n: nat): real
    requires n <= |attempts|
  {
    if n == 0 then now else attempts[n - 1].doneAt
  }

  /** A monotone clock over the candidates of a call. */
  ghost predicate Orderly(attempts: seq<Attempt>, now: real) {
    forall n :: 0 <= n < |attempts| ==> After(attempts, now, n) <= attempts[n].checkAt <= attempts[n].doneAt
  }

  /** The time after an operation. */
  function Later(op: Op, now: real): real {
    if op.Call? then After(op.attempts, now, |op.attempts|) else now
  }

  ghost predicate Possible(ops: seq<Op>, now: real)
    decreases |ops|
  {
    ops == []
    || ((ops[0].Call? ==> |ops[0].keys| == |ops[0].attempts| && Orderly(ops[0].attempts, now))
        && Possible(ops[1..], Later(ops[0], now)))
  }

  function Run(c: Cooldowns, m: Memory, ops: seq<Op>, now: real): Memory
    requires Possible(ops, now)
    decreases |ops|
  {
    if ops == [] then m else Run(c, Do(c, m, ops[0]), ops[1..], Later(ops[0], now))
  }

  /** The mark at position `i` of the trace still counts: for the primary, there was no change since. */
  ghost predicate Standing(trace: seq<Event>, i: nat, n: nat)
    requires i < n <= |trace|
  {
    trace[i].Marked? && (trace[i].key == "primary" ==> forall k :: i < k < n ==> !trace[k].PrimaryChanged?)
  }

  /** No candidate was invoked while an earlier mark of it still ran. */
  ghost predicate Rested(trace: seq<Event>) {
    forall i, j :: 0 <= i < j < |trace| && trace[j].Invoked? && Standing(trace, i, j) && trace[i].key == trace[j].key ==>
      trace[i].until <= trace[j].at
  }

  /** Every mark that counts is in the table, unless its time is over. */
  ghost predicate Remembered(unhealthy: map<string, real>, trace: seq<Event>, now: real) {
    forall i :: 0 <= i < |trace| && Standing(trace, i, |trace|) ==>
      trace[i].until <= now || (trace[i].key in unhealthy && trace[i].until <= unhealthy[trace[i].key])
  }

  ghost predicate Sound(unhealthy: map<string, real>, trace: seq<Event>, now: real) {
    Rested(trace) && Remembered(unhealthy, trace, now)
  }

  lemma TimePasses(u: map<string, real>, trace: seq<Event>, now: real, later: real)
    requires Sound(u, trace, now) && now <= later
    ensures Sound(u, trace, later)
  {
  }

  lemma StandingBefore(trace: seq<Event>, e: Event, i: nat, n: nat)
    requires i < n <= |trace|
    ensures Standing(trace + [e], i, n) <==> Standing(trace, i, n)
    ensures n == |trace| && !e.PrimaryChanged? ==> (Standing(trace + [e], i, n + 1) <==> Standing(trace, i, n))
  {
    assert forall k :: 0 <= k < |trace| ==> (trace + [e])[k] == trace[k];
    assert (trace + [e])[|trace|] == e;
  }

  lemma InvokeKeeps(u: map<string, real>, trace: seq<Event>, now: real, key: string, at: real)
    requires Sound(u, trace, now) && now <= at && !Unhealthy(u, key, at)
    ensures Sound(u - {key}, trace + [Invoked(key, at)], at)
  {
    var e := Invoked(key, at);
    var more := trace + [e];
    forall i, j | 0 <= i < j < |more| && more[j].Invoked? && Standing(more, i, j) && more[i].key == more[j].key
      ensures more[i].until <= more[j].at
    {
      StandingBefore(trace, e, i, j);
      assert more[i] == trace[i];
      if j < |trace| { assert more[j] == trace[j]; }
    }
    forall i | 0 <= i < |more| && Standing(more, i, |more|)
      ensures more[i].until <= at || (more[i].key in u - {key} && more[i].until <= (u - {key})[more[i].key])
    {
      if i < |trace| {
        StandingBefore(trace, e, i, |trace|);
        assert more[i] == trace[i];
      }
    }
  }

  lemma MarkKeeps(u: map<string, real>, trace: seq<Event>, now: real, key: string, until: real)
    requires Sound(u, trace, now) && key !in u
    ensures Sound(u[key := until], trace + [Marked(key, until)], now)
  {
    var e := Marked(key, until);
    var more := trace + [e];
    forall i, j | 0 <= i < j < |more| && more[j].Invoked? && Standing(more, i, j) && more[i].key == more[j].key
      ensures more[i].until <= more[j].at
    {
      StandingBefore(trace, e, i, j);
      assert more[i] == trace[i] && more[j] == trace[j];
    }
    forall i | 0 <= i < |more| && Standing(more, i, |more|)
      ensures more[i].until <= now || (more[i].key in u[key := until] && more[i].until <= u[key := until][more[i].key])
    {
      if i < |trace| {
        StandingBefore(trace, e, i, |trace|);
        assert more[i] == trace[i];
      }
    }
  }

  lemma ChangeKeeps(u: map<string, real>, trace: seq<Event>, now: real)
    requires Sound(u, trace, now)
    ensures Sound(u - {"primary"}, trace + [PrimaryChanged], now)
  {
    var e := PrimaryChanged;
    var more := trace + [e];
    assert more[|trace|] == e;
    forall i, j | 0 <= i < j < |more| && more[j].Invoked? && Standing(more, i, j) && more[i].key == more[j].key
      ensures more[i].until <= more[j].at
    {
      StandingBefore(trace, e, i, j);
      assert more[i] == trace[i] && more[j] == trace[j];
    }
    forall i | 0 <= i < |more| && Standing(more, i, |more|)
      ensures more[i].until <= now
              || (more[i].key in u - {"primary"} && more[i].until <= (u - {"primary"})[more[i].key])
    {
      assert more[i] == trace[i] && more[i].key != "primary";
      assert Standing(trace, i, |trace|);
    }
  }

  lemma TryKeeps(c: Cooldowns, p: Progress, i: nat, key: string, a: Attempt, now: real)
    requires Sound(p.unhealthy, p.trace, now) && now <= a.checkAt <= a.doneAt
    ensures Sound(Try(c, p, i, key, a).unhealthy, Try(c, p, i, key, a).trace, a.doneAt)
  {
    hide Sound, Blank, FallbackReason, CooldownFor;
    TimePasses(p.unhealthy, p.trace, now, a.doneAt);
    if p.answer.None? && !Unhealthy(p.unhealthy, key, a.checkAt) {
      InvokeKeeps(p.unhealthy, p.trace, now, key, a.checkAt);
      var u, trace := p.unhealthy - {key}, p.trace + [Invoked(key, a.checkAt)];
      TimePasses(u, trace, a.checkAt, a.doneAt);
      MarkKeeps(u, trace, a.doneAt, key, a.doneAt + CooldownFor(c, a.response, Transient));
      var reason := FallbackReason(a.response);
      if reason.Some? {
        MarkKeeps(u, trace, a.doneAt, key, a.doneAt + CooldownFor(c, a.response, reason.value));
      }
    }
  }

  lemma {:induction false} CallKeeps(c: Cooldowns, p: Progress, keys: seq<string>, attempts: seq<Attempt>, now: real, n: nat)
    requires n <= |keys| == |attempts| && Sound(p.unhealthy, p.trace, now) && Orderly(attempts, now)
    ensures var q := TryTo(c, p, keys, attempts, n);
            Sound(q.unhealthy, q.trace, After(attempts, now, n))
  {
    hide Sound, Try;
    if n > 0 {
      CallKeeps(c, p, keys, attempts, now, n - 1);
      assert After(attempts, now, n - 1) <= attempts[n - 1].checkAt;
      TryKeeps(c, TryTo(c, p, keys, attempts, n - 1), n - 1, keys[n - 1], attempts[n - 1], After(attempts, now, n - 1));
    }
  }

  lemma {:induction false} RunKeeps(c: Cooldowns, m: Memory, ops: seq<Op>, now: real)
    requires Possible(ops, now) && Sound(m.unhealthy, m.trace, now)
    ensures Rested(Run(c, m, ops, now).trace)
    decreases |ops|
  {
    if ops != [] {
      var op := ops[0];
      hide Remembered, Rested, TryTo;
      match op {
        case Call(keys, attempts) => CallKeeps(c, Begin(m), keys, attempts, now, |keys|);
        case ChangePrimary => ChangeKeeps(m.unhealthy, m.trace, now);
      }
      RunKeeps(c, Do(c, m, op), ops[1..], Later(op, now));
    }
  }

  /** Over any sequence of calls and changes of the primary: no candidate is invoked while a cooldown it was given
      still runs, except the primary after it was changed. */
  lemma CooldownsAreRespected(c: Cooldowns, ops: seq<Op>, start: real)
    requires Possible(ops, start)
    ensures Rested(Run(c, Memory(map[], []), ops, start).trace)
  {
    RunKeeps(c, Memory(map[], []), ops, start);
  }

  /** Which candidates a call tries: distinct positions in list order, and with distinct keys never one key twice; the
      candidate that answers is the last one tried. */
  ghost predicate InListOrder(p: Progress, n: nat) {
    && (forall i, j :: 0 <= i < j < |p.tried| ==> p.tried[i] < p.tried[j])
    && (forall i :: 0 <= i < |p.tried| ==> p.tried[i] < n)
  }

  lemma {:induction false} TriedInOrder(c: Cooldowns, m: Memory, keys: seq<string>, attempts: seq<Attempt>, n: nat)
    requires n <= |keys| == |attempts|
    ensures InListOrder(TryTo(c, Begin(m), keys, attempts, n), n)
  {
    hide Blank, FallbackReason, CooldownFor;
    if n > 0 {
      TriedInOrder(c, m, keys, attempts, n - 1);
    }
  }

  lemma DistinctKeysTried(c: Cooldowns, m: Memory, keys: seq<string>, attempts: seq<Attempt>, i: nat, j: nat)
    requires |keys| == |attempts| && AllDifferent(keys)
    ensures var tried := TryTo(c, Begin(m), keys, attempts, |keys|).tried;
            i < j < |tried| ==> tried[i] < tried[j] < |keys| && keys[tried[i]] != keys[tried[j]]
  {
    TriedInOrder(c, m, keys, attempts, |keys|);
  }

  /** The error is one that another candidate may make good. */
  predicate Failed(r: Response) {
    if r.isError then FallbackReason(r).Some? else Blank(r)
  }

  /** A call passes over a candidate only if it has its answer already or the candidate rests; and it goes on after one
      only if that one failed. */
  lemma {:induction false} NoCandidatePassedOver(c: Cooldowns, m: Memory, keys: seq<string>, attempts: seq<Attempt>, i: nat)
    requires i < |keys| == |attempts|
    ensures var p, q := TryTo(c, Begin(m), keys, attempts, i), TryTo(c, Begin(m), keys, attempts, i + 1);
            && (i in q.tried <==>
                  p.answer.None? && (keys[i] !in p.unhealthy || p.unhealthy[keys[i]] <= attempts[i].checkAt))
            && (p.answer.None? ==> (q.answer.Some? <==> i in q.tried && !Failed(attempts[i].response)))
            && (q.answer.Some? && p.answer.None? ==> q.answer.value == attempts[i].response)
  {
    TriedInOrder(c, m, keys, attempts, i);
    var p, q := TryTo(c, Begin(m), keys, attempts, i), TryTo(c, Begin(m), keys, attempts, i + 1);
    assert i !in p.tried;
    assert q.tried == p.tried || q.tried == p.tried + [i];
  }

  lemma {:induction false} TriedLater(c: Cooldowns, m: Memory, keys: seq<string>, attempts: seq<Attempt>, i: nat, n: nat)
    requires i < n <= |keys| == |attempts|
    ensures i in TryTo(c, Begin(m), keys, attempts, n).tried <==> i in TryTo(c, Begin(m), keys, attempts, i + 1).tried
    decreases n
  {
    hide Blank, FallbackReason, CooldownFor;
    if n > i + 1 {
      TriedLater(c, m, keys, attempts, i, n - 1);
    }
  }

  lemma {:induction false} AnswersAreNotBlank(c: Cooldowns, m: Memory, keys: seq<string>, attempts: seq<Attempt>, n: nat)
    requires n <= |keys| == |attempts|
    ensures var p := TryTo(c, Begin(m), keys, attempts, n);
            p.answer.Some? ==> p.answer.value.isError || !Blank(p.answer.value)
  {
    hide Blank, FallbackReason, CooldownFor;
    if n > 0 {
      AnswersAreNotBlank(c, m, keys, attempts, n - 1);
    }
  }

  lemma ResultIsNotBlank(p: Progress)
    requires p.answer.Some? ==> p.answer.value.isError || !Blank(p.answer.value)
    ensures Result(p).isError || !Blank(Result(p))
  {
    BlankEnd();
    hide Blank;
  }

  /** In any call, whatever the candidates and the cooldowns: an answer that is no error comes back if and only if one of
      its two texts is not blank.  Its tool calls count for nothing, so one of tool calls alone is always dropped. */
  lemma ToolCallsAloneAreDropped(c: Cooldowns, m: Memory, keys: seq<string>, attempts: seq<Attempt>, i: nat)
    requires i < |keys| == |attempts| && i in TryTo(c, Begin(m), keys, attempts, |keys|).tried
    requires !attempts[i].response.isError
    ensures Result(TryTo(c, Begin(m), keys, attempts, |keys|)) == attempts[i].response
            <==> Strip(attempts[i].response.content) != "" || Strip(attempts[i].response.reasoning) != ""
  {
    var r := attempts[i].response;
    assert Blank(r) <==> Strip(r.content) == "" && Strip(r.reasoning) == "";
    hide Blank, TryTo, FallbackReason;
    TriedLater(c, m, keys, attempts, i, |keys|);
    NoCandidatePassedOver(c, m, keys, attempts, i);
    if Blank(r) {
      AnswersAreNotBlank(c, m, keys, attempts, |keys|);
      ResultIsNotBlank(TryTo(c, Begin(m), keys, attempts, |keys|));
    } else {
      AnsweredStays(c, Begin(m), keys, attempts, i + 1);
    }
  }

  lemma {:induction false} LastTried(c: Cooldowns, m: Memory, keys: seq<string>, attempts: seq<Attempt>, n: nat)
    requires n <= |keys| == |attempts|
    ensures var p := TryTo(c, Begin(m), keys, attempts, n);
            && (p.tried == [] ==> p.last.None? && p.answer.None?)
            && (p.tried != [] ==>
                  p.tried[|p.tried| - 1] < n
                  && (p.answer.None? ==> p.last == Some(attempts[p.tried[|p.tried| - 1]].response))
                  && (p.answer.Some? ==> p.answer == Some(attempts[p.tried[|p.tried| - 1]].response)))
  {
    hide Blank, FallbackReason, CooldownFor;
    if n > 0 {
      LastTried(c, m, keys, attempts, n - 1);
    }
  }

  /** What a call gives back: an error of its own when no candidate could be tried; otherwise the response of the last one
      tried, unless both its texts are blank and it did not end the call, when it is an error without content. */
  lemma ResultMeans(c: Cooldowns, m: Memory, keys: seq<string>, attempts: seq<Attempt>)
    requires |keys| == |attempts|
    ensures var p := TryTo(c, Begin(m), keys, attempts, |keys|);
            if p.tried == [] then Result(p).isError && Result(p).content == "No LLM provider configured"
            else
              p.tried[|p.tried| - 1] < |attempts| &&
              var r := attempts[p.tried[|p.tried| - 1]].response;
              if p.answer.None? && Strip(r.content) == "" && Strip(r.reasoning) == ""
              then Result(p).isError && Result(p).content == "" && Result(p).reasoning == "" else Result(p) == r
  {
    LastTried(c, m, keys, attempts, |keys|);
    hide TryTo;
  }

  /** How long a candidate rests after a failure: the payment cooldown after a payment failure; else what the provider asks
      for, at least nothing; else the transient cooldown. */
  function RestAfter(c: Cooldowns, r: Response): real {
    if r.isError && (r.status == Some(402) || r.paymentWords) then c.payment
    else if r.retryAfter.None? then c.transient
    else if r.retryAfter.value < 0.0 then 0.0
    else r.retryAfter.value
  }

  lemma RestIsCooldown(c: Cooldowns, r: Response)
    requires Failed(r)
    ensures CooldownFor(c, r, if r.isError then FallbackReason(r).value else Transient) == RestAfter(c, r)
  {
  }

  /** What one turn leaves of the cooldowns: a candidate that was passed over keeps its own; one that failed rests, if for
      any time at all, from its answer on; any other has none. */
  ghost predicate RestsThus(c: Cooldowns, before: map<string, real>, after: map<string, real>, key: string, tried: bool, a: Attempt) {
    if !tried then
      (key in after <==> key in before) && (key in after ==> after[key] == before[key])
    else if Failed(a.response) && RestAfter(c, a.response) > 0.0 then
      key in after && after[key] == a.doneAt + RestAfter(c, a.response)
    else key !in after
  }

  lemma TryRests(c: Cooldowns, p: Progress, i: nat, key: string, a: Attempt)
    ensures var q := Try(c, p, i, key, a);
            && RestsThus(c, p.unhealthy, q.unhealthy, key, p.answer.None? && !Unhealthy(p.unhealthy, key, a.checkAt), a)
            && forall k :: k != key ==> (k in q.unhealthy <==> k in p.unhealthy)
                                        && (k in q.unhealthy ==> q.unhealthy[k] == p.unhealthy[k])
  {
    hide Blank, FallbackReason, CooldownFor, RestAfter;
    if Failed(a.response) {
      RestIsCooldown(c, a.response);
    }
  }

  /** After a call over different keys every candidate's cooldown is as its own turn left it. */
  lemma {:induction false} CooldownsAfterCall(c: Cooldowns, m: Memory, keys: seq<string>, attempts: seq<Attempt>, i: nat, n: nat)
    requires i < |keys| == |attempts| && n <= |keys| && AllDifferent(keys)
    ensures var p := TryTo(c, Begin(m), keys, attempts, n);
            RestsThus(c, m.unhealthy, p.unhealthy, keys[i], i in p.tried, attempts[i])
    decreases n
  {
    hide RestsThus;
    if n == 0 {
      TryNone(c, Begin(m), keys, attempts);
      NotTried(c, m.unhealthy, keys[i], attempts[i]);
    } else {
      var p, key, a := TryTo(c, Begin(m), keys, attempts, n - 1), keys[n - 1], attempts[n - 1];
      CooldownsAfterCall(c, m, keys, attempts, i, n - 1);
      TryNext(c, Begin(m), keys, attempts, n - 1);
      TryRests(c, p, n - 1, key, a);
      TriedInOrder(c, m, keys, attempts, n - 1);
      var q := Try(c, p, n - 1, key, a);
      TryTried(c, p, n - 1, key, a);
      hide Try, TryTo;
      if i == n - 1 {
        RestsFrom(c, m.unhealthy, p.unhealthy, q.unhealthy, key, n - 1 in q.tried, a);
      } else {
        RestsOn(c, m.unhealthy, p.unhealthy, q.unhealthy, keys[i], i in p.tried, attempts[i]);
      }
    }
  }

  lemma NotTried(c: Cooldowns, u: map<string, real>, key: string, a: Attempt)
    ensures RestsThus(c, u, u, key, false, a)
  {
  }

  lemma TryTried(c: Cooldowns, p: Progress, i: nat, key: string, a: Attempt)
    ensures Try(c, p, i, key, a).tried
         == if p.answer.None? && !Unhealthy(p.unhealthy, key, a.checkAt) then p.tried + [i] else p.tried
  {
    hide Blank, FallbackReason, CooldownFor;
  }

  lemma RestsFrom(c: Cooldowns, u: map<string, real>, v: map<string, real>, w: map<string, real>, key: string, tried: bool, a: Attempt)
    requires RestsThus(c, u, v, key, false, a) && RestsThus(c, v, w, key, tried, a)
    ensures RestsThus(c, u, w, key, tried, a)
  {
    hide Failed, RestAfter;
  }

  lemma RestsOn(c: Cooldowns, u: map<string, real>, v: map<string, real>, w: map<string, real>, key: string, tried: bool, a: Attempt)
    requires RestsThus(c, u, v, key, tried, a)
    requires (key in w <==> key in v) && (key in w ==> w[key] == v[key])
    ensures RestsThus(c, u, w, key, tried, a)
  {
    hide Failed, RestAfter;
  }
}
