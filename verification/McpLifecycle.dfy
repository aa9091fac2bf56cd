/** Connecting to and closing the MCP servers: any number of connectors and closers, and the runtime tasks they start,
    one lock, interleaved at every await.  Acquiring the lock is a switch point of its own. */
module McpLifecycle {
  import opened Actions

  datatype Status = Disconnected | Connecting | Connected | Closing

  /** The lifecycle fields of the host.  A runtime task, its ready future and its shutdown event are made together and
      share a number; `stacks` is the number of the dictionary that `_mcp_stacks` refers to. */
  datatype Host = Host(
    status: Status,
    connected: bool,
    connecting: bool,
    stacks: nat,
    runtime: Option<nat>,
    ready: Option<nat>,
    event: Option<nat>)

  /** Where a runtime task stands: not started, awaiting the servers, awaiting the lock with a result, awaiting the
      shutdown event, awaiting the lock in an exception handler, closing its stacks, awaiting the lock for the last
      section, or ended. */
  datatype Point =
    | Fresh | Opening | Settling | Serving | Failing
    | Draining(rest: seq<string>) | Leaving | Ended

  /** `local` is the dictionary that the variable `stacks` refers to.  For the statements below a task also remembers
      whether it ever served, whether it was cancelled before its first step or inside an exception handler
      (`dropped`), whether it ended without its last section (`skipped`), whether a handler's `clear()` ran after it
      had served (`cleared`), and whether its loop over the stacks ended before the last of them (`cutShort`). */
  datatype Task = Task(
    point: Point,
    local: nat,
    resolved: Option<bool>,
    eventSet: bool,
    served: bool,
    dropped: bool,
    skipped: bool,
    cleared: bool,
    cutShort: bool)

  const FRESH := Task(Fresh, 0, None, false, false, false, false, false, false)

  /** `dicts` are the dictionaries by number, as lists of names; `live` the open server connections. */
  datatype Sys = Sys(host: Host, dicts: seq<seq<string>>, tasks: seq<Task>, live: set<(nat, string)>)

  const INIT := Sys(Host(Disconnected, false, false, 0, None, None, None), [[]], [], {})

  datatype Label =
    | Connect
    | Close
    | Start(t: nat)
    | Open(t: nat, names: seq<string>)
    | OpenRaises(t: nat)
    | Settle(t: nat)
    | Wake(t: nat)
    | Fail(t: nat)
    | CloseOne(t: nat)
    | CloseRaises(t: nat)
    | Leave(t: nat)
    | Cancel(t: nat)

  // ---- Steps ----

  function Off(h: Host): Host {
    h.(status := Disconnected, connected := false, connecting := false)
  }

  function Cleared(s: Sys): seq<seq<string>> {
    if s.host.stacks < |s.dicts| then s.dicts[s.host.stacks := []] else s.dicts
  }

  function Resolve(task: Task, value: bool): Task {
    if task.resolved.Some? then task else task.(resolved := Some(value))
  }

  /** The locked section of _connect_mcp; in the other states the connector only waits or returns. */
  function StepConnect(s: Sys): Sys {
    if s.host.status != Disconnected then s
    else
      var t := |s.tasks|;
      s.(host := Host(Connecting, false, true, s.host.stacks, Some(t), Some(t), Some(t)),
         dicts := s.dicts + [[]],
         tasks := s.tasks + [FRESH.(local := |s.dicts|)])
  }

  /** The locked section of _close_mcp. */
  function StepClose(s: Sys): Sys {
    if s.host.runtime.None? then s.(host := Off(s.host), dicts := Cleared(s))
    else
      var h := s.host.(status := Closing, connected := false, connecting := false);
      if s.host.event.Some? && s.host.event.value < |s.tasks|
      then s.(host := h, tasks := s.tasks[s.host.event.value := s.tasks[s.host.event.value].(eventSet := true)])
      else s.(host := h)
  }

  function Put(s: Sys, t: nat, task: Task): Sys
    requires t < |s.tasks|
  {
    s.(tasks := s.tasks[t := task])
  }

  function At(s: Sys, t: nat, point: Point): Sys
    requires t < |s.tasks|
  {
    Put(s, t, s.tasks[t].(point := point))
  }

  /** Entering `finally`: the loop over the local dictionary awaits only if there is something to close. */
  function Drain(s: Sys, t: nat): Sys
    requires t < |s.tasks|
  {
    var rest := if s.tasks[t].local < |s.dicts| then s.dicts[s.tasks[t].local] else [];
    At(s, t, if rest == [] then Leaving else Draining(rest))
  }

  /** The keys of a dictionary. */
  predicate Distinct(names: seq<string>) {
    forall i, j :: 0 <= i < j < |names| ==> names[i] != names[j]
  }

  /** connect_mcp_servers returns a dictionary of the servers that answered. */
  function StepOpen(s: Sys, t: nat, names: seq<string>): Sys
    requires t < |s.tasks|
  {
    if s.tasks[t].point != Opening || !Distinct(names) then s
    else
      Put(s, t, s.tasks[t].(point := Settling, local := |s.dicts|))
        .(dicts := s.dicts + [names], live := s.live + set n | n in names :: (t, n))
  }

  function StepSettle(s: Sys, t: nat): Sys
    requires t < |s.tasks|
  {
    var task := s.tasks[t];
    if task.point != Settling || task.local >= |s.dicts| then s
    else if s.dicts[task.local] == [] then
      Put(s, t, Resolve(task, false).(point := Leaving))
        .(host := Off(s.host).(stacks := |s.dicts|), dicts := s.dicts + [[]])
    else
      Put(s, t, Resolve(task, true).(point := Serving, served := true))
        .(host := s.host.(status := Connected, connected := true, connecting := false, stacks := task.local))
  }

  function StepWake(s: Sys, t: nat): Sys
    requires t < |s.tasks|
  {
    if s.tasks[t].point == Serving && s.tasks[t].eventSet then Drain(s, t) else s
  }

  /** The locked section of either exception handler. */
  function StepFail(s: Sys, t: nat): Sys
    requires t < |s.tasks|
  {
    if s.tasks[t].point != Failing then s
    else
      var task := Resolve(s.tasks[t], false).(cleared := s.tasks[t].served);
      Drain(Put(s, t, task).(host := Off(s.host), dicts := Cleared(s)), t)
  }

  function StepCloseOne(s: Sys, t: nat): Sys
    requires t < |s.tasks|
  {
    match s.tasks[t].point
    case Draining(rest) =>
      if rest == [] then At(s, t, Leaving)
      else At(s, t, if |rest| == 1 then Leaving else Draining(rest[1..])).(live := s.live - {(t, rest[0])})
    case _ => s
  }

  /** The last section of `finally`, which only the recorded task carries out. */
  function StepLeave(s: Sys, t: nat): Sys
    requires t < |s.tasks|
  {
    if s.tasks[t].point != Leaving then s
    else if s.host.runtime != Some(t) then At(s, t, Ended)
    else At(s, t, Ended).(host := Off(s.host).(runtime := None, ready := None, event := None), dicts := Cleared(s))
  }

  /** An exception out of the loop over the stacks; the server being closed counts as still open. */
  function StepCut(s: Sys, t: nat): Sys
    requires t < |s.tasks|
  {
    match s.tasks[t].point
    case Draining(rest) => Put(s, t, s.tasks[t].(point := Ended, skipped := true, cutShort := rest != []))
    case _ => s
  }

  /** CancelledError, raised at whatever the task is awaiting. */
  function StepCancel(s: Sys, t: nat): Sys
    requires t < |s.tasks|
  {
    var task := s.tasks[t];
    match task.point
    case Fresh => Put(s, t, task.(point := Ended, dropped := true, skipped := true))
    case Opening => At(s, t, Failing)
    case Settling => At(s, t, Failing)
    case Serving => At(s, t, Failing)
    case Failing => Drain(Put(s, t, task.(dropped := true)), t)
    case Draining(_) => StepCut(s, t)
    case Leaving => Put(s, t, task.(point := Ended, skipped := true))
    case Ended => s
  }

  function Step(s: Sys, l: Label): Sys {
    match l
    case Connect => StepConnect(s)
    case Close => StepClose(s)
    case _ => if l.t < |s.tasks| then StepTask(s, l) else s
  }

  function StepTask(s: Sys, l: Label): Sys
    requires !l.Connect? && !l.Close? && l.t < |s.tasks|
  {
    match l
    case Start(t) => if s.tasks[t].point == Fresh then At(s, t, Opening) else s
    case Open(t, names) => StepOpen(s, t, names)
    case OpenRaises(t) => if s.tasks[t].point == Opening then At(s, t, Failing) else s
    case Settle(t) => StepSettle(s, t)
    case Wake(t) => StepWake(s, t)
    case Fail(t) => StepFail(s, t)
    case CloseOne(t) => StepCloseOne(s, t)
    case CloseRaises(t) => StepCut(s, t)
    case Leave(t) => StepLeave(s, t)
    case Cancel(t) => StepCancel(s, t)
  }

  function Run(s: Sys, labels: seq<Label>): Sys
    decreases |labels|
  {
    if labels == [] then s else Run(Step(s, labels[0]), labels[1..])
  }

  // ---- What every run keeps ----

  /** `_mcp_connected` and `_mcp_connecting` say what `_mcp_state` says. */
  predicate Mirrored(h: Host) {
    (h.connected <==> h.status == Connected) && (h.connecting <==> h.status == Connecting)
  }

  /** The task has its unguarded status write still before it, or is serving. */
  predicate Unsettled(p: Point) {
    p == Fresh || p == Opening || p == Settling || p == Serving || p == Failing
  }

  ghost predicate TaskOk(s: Sys, t: nat)
    requires t < |s.tasks|
  {
    var task := s.tasks[t];
    && task.local < |s.dicts|
    && (Unsettled(task.point) ==> s.host.runtime == Some(t) && s.host.status != Disconnected && !task.dropped)
    && (Unsettled(task.point) ==> (task.served <==> s.host.stacks == task.local))
    && (task.skipped ==> task.point == Ended)
    && (task.point == Ended && !task.skipped ==> s.host.runtime != Some(t))
    && (task.cutShort ==> task.point == Ended)
    && (task.cleared ==> task.point == Ended || task.point == Leaving)
    && (match task.point
        case Serving => task.served && task.resolved.Some?
        case Failing => task.served <==> task.resolved.Some?
        case Draining(_) => task.resolved.None? <==> task.dropped && !task.served
        case Leaving => task.resolved.None? <==> task.dropped && !task.served
        case Ended => task.resolved.None? <==> task.dropped && !task.served
        case _ => !task.served && task.resolved.None?)
  }

  ghost predicate HasOpen(live: set<(nat, string)>, t: nat) {
    exists n :: (t, n) in live
  }

  /** The task has exactly the connections `names` open. */
  ghost predicate Holds(live: set<(nat, string)>, t: nat, names: seq<string>) {
    Distinct(names) && forall n :: (t, n) in live <==> n in names
  }

  /** The connections a task has open before it leaves its stacks behind. */
  function Holding(s: Sys, t: nat): seq<string>
    requires t < |s.tasks| && s.tasks[t].local < |s.dicts|
  {
    match s.tasks[t].point
    case Settling => s.dicts[s.tasks[t].local]
    case Serving => s.dicts[s.tasks[t].local]
    case Failing => s.dicts[s.tasks[t].local]
    case Draining(rest) => rest
    case _ => []
  }

  ghost predicate LiveOk(s: Sys, t: nat)
    requires t < |s.tasks| && s.tasks[t].local < |s.dicts|
  {
    var task := s.tasks[t];
    && (task.served && Unsettled(task.point) ==> s.dicts[task.local] != [])
    && (task.point == Fresh || task.point == Opening ==> s.dicts[task.local] == [])
    && (task.point.Draining? ==> task.point.rest != [])
    && if task.point == Leaving || task.point == Ended then HasOpen(s.live, t) <==> task.cleared || task.cutShort
       else Holds(s.live, t, Holding(s, t))
  }

  ghost predicate HostOk(s: Sys) {
    var h := s.host;
    && Mirrored(h) && h.stacks < |s.dicts|
    && h.ready == h.runtime == h.event
    && (h.runtime.Some? ==> h.runtime.value < |s.tasks|)
    && (h.runtime.None? ==> h.status == Disconnected)
    && (h.status == Closing ==> s.tasks[h.runtime.value].eventSet)
    && forall t, n :: (t, n) in s.live ==> t < |s.tasks|
  }

  ghost predicate Inv(s: Sys) {
    HostOk(s) && forall t :: 0 <= t < |s.tasks| ==> TaskOk(s, t) && LiveOk(s, t)
  }

  /** A step leaves the connections of the other tasks alone. */
  lemma SameLive(s: Sys, u: Sys, o: nat)
    requires o < |s.tasks| && o < |u.tasks| && s.tasks[o].local < |s.dicts| <= |u.dicts| && LiveOk(s, o)
    requires s.tasks[o].(eventSet := true) == u.tasks[o].(eventSet := true)
    requires forall n :: (o, n) in s.live <==> (o, n) in u.live
    requires Unsettled(s.tasks[o].point) ==> s.dicts[s.tasks[o].local] == u.dicts[s.tasks[o].local]
    ensures LiveOk(u, o)
  {
    if HasOpen(s.live, o) {
      var n :| (o, n) in s.live;
      assert (o, n) in u.live;
    }
    if HasOpen(u.live, o) {
      var n :| (o, n) in u.live;
      assert (o, n) in s.live;
    }
  }

  lemma HoldsSome(live: set<(nat, string)>, t: nat, names: seq<string>)
    requires Holds(live, t, names)
    ensures HasOpen(live, t) <==> names != []
  {
    if names != [] {
      assert (t, names[0]) in live;
    }
  }

  lemma ConnectKeeps(s: Sys)
    requires Inv(s)
    ensures Inv(StepConnect(s))
  {
    var u := StepConnect(s);
    forall o | 0 <= o < |u.tasks| ensures TaskOk(u, o) && LiveOk(u, o) {
      if o < |s.tasks| {
        assert TaskOk(s, o) && LiveOk(s, o);
        SameLive(s, u, o);
      }
    }
  }

  lemma CloseKeeps(s: Sys)
    requires Inv(s)
    ensures Inv(StepClose(s))
  {
    var u := StepClose(s);
    hide LiveOk;
    forall o | 0 <= o < |u.tasks| ensures TaskOk(u, o) && LiveOk(u, o) {
      assert TaskOk(s, o) && LiveOk(s, o);
      SameLive(s, u, o);
    }
  }

  lemma StartKeeps(s: Sys, t: nat)
    requires Inv(s) && t < |s.tasks|
    ensures Inv(StepTask(s, Start(t)))
  {
    var u := StepTask(s, Start(t));
    assert TaskOk(s, t) && LiveOk(s, t);
    assert LiveOk(u, t);
    hide LiveOk;
    forall o | 0 <= o < |u.tasks| ensures TaskOk(u, o) && LiveOk(u, o) {
      assert TaskOk(s, o) && LiveOk(s, o);
      if o != t {
        SameLive(s, u, o);
      }
    }
  }

  lemma OpenKeeps(s: Sys, t: nat, names: seq<string>)
    requires Inv(s) && t < |s.tasks|
    ensures Inv(StepOpen(s, t, names))
  {
    var u := StepOpen(s, t, names);
    assert TaskOk(s, t) && LiveOk(s, t);
    assert LiveOk(u, t);
    hide LiveOk;
    forall o | 0 <= o < |u.tasks| ensures TaskOk(u, o) && LiveOk(u, o) {
      assert TaskOk(s, o) && LiveOk(s, o);
      if o != t {
        SameLive(s, u, o);
      }
    }
  }

  lemma OpenRaisesKeeps(s: Sys, t: nat)
    requires Inv(s) && t < |s.tasks|
    ensures Inv(StepTask(s, OpenRaises(t)))
  {
    var u := StepTask(s, OpenRaises(t));
    assert TaskOk(s, t) && LiveOk(s, t);
    assert LiveOk(u, t);
    hide LiveOk;
    forall o | 0 <= o < |u.tasks| ensures TaskOk(u, o) && LiveOk(u, o) {
      assert TaskOk(s, o) && LiveOk(s, o);
      if o != t {
        SameLive(s, u, o);
      }
    }
  }

  lemma SettleKeeps(s: Sys, t: nat)
    requires Inv(s) && t < |s.tasks|
    ensures Inv(StepSettle(s, t))
  {
    var u := StepSettle(s, t);
    assert TaskOk(s, t) && LiveOk(s, t);
    if s.tasks[t].point == Settling {
      HoldsSome(s.live, t, Holding(s, t));
    }
    assert LiveOk(u, t);
    hide LiveOk;
    forall o | 0 <= o < |u.tasks| ensures TaskOk(u, o) && LiveOk(u, o) {
      assert TaskOk(s, o) && LiveOk(s, o);
      if o != t {
        SameLive(s, u, o);
      }
    }
  }

  lemma WakeKeeps(s: Sys, t: nat)
    requires Inv(s) && t < |s.tasks|
    ensures Inv(StepWake(s, t))
  {
    var u := StepWake(s, t);
    assert TaskOk(s, t) && LiveOk(s, t);
    assert LiveOk(u, t);
    hide LiveOk;
    forall o | 0 <= o < |u.tasks| ensures TaskOk(u, o) && LiveOk(u, o) {
      assert TaskOk(s, o) && LiveOk(s, o);
      if o != t {
        SameLive(s, u, o);
      }
    }
  }

  lemma FailKeeps(s: Sys, t: nat)
    requires Inv(s) && t < |s.tasks|
    ensures Inv(StepFail(s, t))
  {
    var u := StepFail(s, t);
    assert TaskOk(s, t) && LiveOk(s, t);
    if s.tasks[t].point == Failing {
      HoldsSome(s.live, t, Holding(s, t));
    }
    assert LiveOk(u, t);
    hide LiveOk;
    forall o | 0 <= o < |u.tasks| ensures TaskOk(u, o) && LiveOk(u, o) {
      assert TaskOk(s, o) && LiveOk(s, o);
      if o != t {
        SameLive(s, u, o);
      }
    }
  }

  lemma CloseOneKeeps(s: Sys, t: nat)
    requires Inv(s) && t < |s.tasks|
    ensures Inv(StepCloseOne(s, t))
  {
    var u := StepCloseOne(s, t);
    assert TaskOk(s, t) && LiveOk(s, t);
    assert LiveOk(u, t);
    hide LiveOk;
    forall o | 0 <= o < |u.tasks| ensures TaskOk(u, o) && LiveOk(u, o) {
      assert TaskOk(s, o) && LiveOk(s, o);
      if o != t {
        SameLive(s, u, o);
      }
    }
  }

  lemma LeaveKeeps(s: Sys, t: nat)
    requires Inv(s) && t < |s.tasks|
    ensures Inv(StepLeave(s, t))
  {
    var u := StepLeave(s, t);
    assert TaskOk(s, t) && LiveOk(s, t);
    assert LiveOk(u, t);
    assert TaskOk(u, t);
    hide LiveOk, HasOpen, Holds, Distinct;
    forall o | 0 <= o < |u.tasks| ensures TaskOk(u, o) && LiveOk(u, o) {
      assert TaskOk(s, o) && LiveOk(s, o);
      if o != t {
        SameLive(s, u, o);
      }
    }
  }

  lemma CutKeeps(s: Sys, t: nat)
    requires Inv(s) && t < |s.tasks|
    ensures Inv(StepCut(s, t))
  {
    var u := StepCut(s, t);
    assert TaskOk(s, t) && LiveOk(s, t);
    if s.tasks[t].point.Draining? {
      HoldsSome(s.live, t, Holding(s, t));
    }
    assert LiveOk(u, t);
    hide LiveOk;
    forall o | 0 <= o < |u.tasks| ensures TaskOk(u, o) && LiveOk(u, o) {
      assert TaskOk(s, o) && LiveOk(s, o);
      if o != t {
        SameLive(s, u, o);
      }
    }
  }

  lemma CancelAwaitingKeeps(s: Sys, t: nat)
    requires Inv(s) && t < |s.tasks| && s.tasks[t].point != Failing && !s.tasks[t].point.Draining?
    ensures Inv(StepCancel(s, t))
  {
    var u := StepCancel(s, t);
    assert TaskOk(s, t) && LiveOk(s, t);
    if s.tasks[t].point == Fresh {
      HoldsSome(s.live, t, []);
    }
    assert LiveOk(u, t);
    hide LiveOk, StepCancel;
    forall o | 0 <= o < |u.tasks| ensures TaskOk(u, o) && LiveOk(u, o) {
      assert TaskOk(s, o) && LiveOk(s, o);
      if o != t {
        SameLive(s, u, o);
      }
    }
  }

  lemma CancelHandlerKeeps(s: Sys, t: nat)
    requires Inv(s) && t < |s.tasks| && s.tasks[t].point == Failing
    ensures Inv(StepCancel(s, t))
  {
    var u := StepCancel(s, t);
    assert TaskOk(s, t) && LiveOk(s, t);
    HoldsSome(s.live, t, Holding(s, t));
    assert LiveOk(u, t);
    hide LiveOk, StepCancel;
    forall o | 0 <= o < |u.tasks| ensures TaskOk(u, o) && LiveOk(u, o) {
      assert TaskOk(s, o) && LiveOk(s, o);
      if o != t {
        SameLive(s, u, o);
      }
    }
  }

  lemma CancelKeeps(s: Sys, t: nat)
    requires Inv(s) && t < |s.tasks|
    ensures Inv(StepCancel(s, t))
  {
    hide Inv, StepCut;
    if s.tasks[t].point.Draining? {
      CutKeeps(s, t);
    } else if s.tasks[t].point == Failing {
      CancelHandlerKeeps(s, t);
    } else {
      CancelAwaitingKeeps(s, t);
    }
  }

  lemma TaskKeeps(s: Sys, l: Label)
    requires Inv(s) && !l.Connect? && !l.Close? && l.t < |s.tasks|
    ensures Inv(StepTask(s, l))
  {
    hide Inv;
    match l
    case Start(t) => StartKeeps(s, t);
    case Open(t, names) => OpenKeeps(s, t, names);
    case OpenRaises(t) => OpenRaisesKeeps(s, t);
    case Settle(t) => SettleKeeps(s, t);
    case Wake(t) => WakeKeeps(s, t);
    case Fail(t) => FailKeeps(s, t);
    case CloseOne(t) => CloseOneKeeps(s, t);
    case CloseRaises(t) => CutKeeps(s, t);
    case Leave(t) => LeaveKeeps(s, t);
    case Cancel(t) => CancelKeeps(s, t);
  }

  lemma StepKeeps(s: Sys, l: Label)
    requires Inv(s)
    ensures Inv(Step(s, l))
  {
    hide Inv, StepTask, StepConnect, StepClose;
    match l
    case Connect => ConnectKeeps(s);
    case Close => CloseKeeps(s);
    case _ => if l.t < |s.tasks| { TaskKeeps(s, l); }
  }

  lemma {:induction false} RunKeeps(s: Sys, labels: seq<Label>)
    requires Inv(s)
    ensures Inv(Run(s, labels))
    decreases |labels|
  {
    hide Inv, Step;
    if labels != [] {
      StepKeeps(s, labels[0]);
      RunKeeps(Step(s, labels[0]), labels[1..]);
    }
  }

  // ---- Every run, cancelled or not ----

  /** In every run: the flags mirror the state; and whatever a runtime task's step changes in the host's fields or in
      the dictionary `_mcp_stacks`, it is the task stored in `_mcp_runtime_task` that changes it, so a stale task never
      touches a newer one's state. */
  lemma OnlyTheRecordedTaskWrites(labels: seq<Label>, l: Label)
    requires !l.Connect? && !l.Close?
    ensures var s := Run(INIT, labels);
            && Mirrored(s.host)
            && (Step(s, l).host != s.host ==> s.host.runtime == Some(l.t))
            && s.host.stacks < |s.dicts| <= |Step(s, l).dicts|
            && (Step(s, l).dicts[s.host.stacks] != s.dicts[s.host.stacks] ==> s.host.runtime == Some(l.t))
  {
    RunKeeps(INIT, labels);
    var s := Run(INIT, labels);
    hide Run;
    if l.t < |s.tasks| {
      assert TaskOk(s, l.t);
    }
  }

  /** At any moment at most one task has its status write before it or is serving, and it is the recorded one. */
  lemma OneUnsettledTask(labels: seq<Label>, t: nat, u: nat)
    requires var s := Run(INIT, labels);
             t < |s.tasks| && u < |s.tasks| && Unsettled(s.tasks[t].point) && Unsettled(s.tasks[u].point)
    ensures t == u && Run(INIT, labels).host.runtime == Some(t)
  {
    RunKeeps(INIT, labels);
    hide Run;
    assert TaskOk(Run(INIT, labels), t) && TaskOk(Run(INIT, labels), u);
  }

  /** A task that has ended has resolved its ready future, unless it was cancelled before its first step or inside an
      exception handler without ever having served; and exactly then its connectors wait for good. */
  lemma ReadyIsResolved(labels: seq<Label>, t: nat)
    requires t < |Run(INIT, labels).tasks| && Run(INIT, labels).tasks[t].point == Ended
    ensures var task := Run(INIT, labels).tasks[t];
            task.resolved.None? <==> task.dropped && !task.served
  {
    RunKeeps(INIT, labels);
    hide Run;
    assert TaskOk(Run(INIT, labels), t);
  }

  // ---- Connections that stay open ----

  /** A handler clears the dictionary of a task that has served; or an exception leaves the loop over the stacks. */
  predicate Leaks(s: Sys, t: nat, l: Label) {
    && t < |s.tasks|
    && ((l == Fail(t) && s.tasks[t].point == Failing && s.tasks[t].served)
        || ((l == Cancel(t) || l == CloseRaises(t)) && s.tasks[t].point.Draining?))
  }

  predicate LeaksIn(s: Sys, t: nat, labels: seq<Label>)
    decreases |labels|
  {
    labels != [] && (Leaks(s, t, labels[0]) || LeaksIn(Step(s, labels[0]), t, labels[1..]))
  }

  predicate Marked(s: Sys, t: nat) {
    t < |s.tasks| && (s.tasks[t].cleared || s.tasks[t].cutShort)
  }

  lemma LeakMarks(s: Sys, t: nat, l: Label)
    requires Inv(s)
    ensures Marked(Step(s, l), t) <==> Marked(s, t) || Leaks(s, t, l)
  {
    if l.Connect? || l.Close? {
    } else if t < |s.tasks| && l.t < |s.tasks| {
      assert TaskOk(s, t) && LiveOk(s, t);
      if l.Fail? || l.Cancel? || l.CloseRaises? {
        LeakStepMarks(s, t, l);
      } else {
        OtherStepMarks(s, t, l);
      }
    }
  }

  lemma LeakStepMarks(s: Sys, t: nat, l: Label)
    requires t < |s.tasks| && (l.Fail? || l.Cancel? || l.CloseRaises?) && l.t < |s.tasks|
    requires s.tasks[t].point == Failing ==> !Marked(s, t)
    requires s.tasks[t].point.Draining? ==> s.tasks[t].point.rest != []
    ensures Marked(StepTask(s, l), t) <==> Marked(s, t) || Leaks(s, t, l)
  {
    hide StepOpen, StepSettle, StepWake, StepCloseOne, StepLeave;
  }

  lemma OtherStepMarks(s: Sys, t: nat, l: Label)
    requires t < |s.tasks| && !l.Connect? && !l.Close? && !l.Fail? && !l.Cancel? && !l.CloseRaises? && l.t < |s.tasks|
    ensures Marked(StepTask(s, l), t) <==> Marked(s, t)
  {
    hide StepFail, StepCut, StepCancel;
    if l.t != t {
      hide Resolve, Cleared, Off;
    } else if l.Wake? || l.CloseOne? || l.Leave? {
      hide StepOpen, StepSettle;
    } else {
      hide StepWake, StepCloseOne, StepLeave;
    }
  }

  lemma {:induction false} MarksSayLeaks(s: Sys, t: nat, labels: seq<Label>)
    requires Inv(s)
    ensures Marked(Run(s, labels), t) <==> Marked(s, t) || LeaksIn(s, t, labels)
    decreases |labels|
  {
    hide Inv, Step, Marked, Leaks;
    if labels != [] {
      StepKeeps(s, labels[0]);
      LeakMarks(s, t, labels[0]);
      MarksSayLeaks(Step(s, labels[0]), t, labels[1..]);
    }
  }

  /** In every run, cancelled anywhere: a task that has ended has a connection open if and only if a handler cleared its
      dictionary after it had served, or its loop over the stacks was left early. */
  lemma EndedTaskLeaks(labels: seq<Label>, t: nat)
    requires t < |Run(INIT, labels).tasks| && Run(INIT, labels).tasks[t].point == Ended
    ensures HasOpen(Run(INIT, labels).live, t) <==> LeaksIn(INIT, t, labels)
  {
    RunKeeps(INIT, labels);
    MarksSayLeaks(INIT, t, labels);
    hide Run, LeaksIn;
    assert TaskOk(Run(INIT, labels), t) && LiveOk(Run(INIT, labels), t);
  }

  /** A task that has left its stacks behind closes nothing any more. */
  ghost predicate Abandoned(s: Sys, t: nat) {
    t < |s.tasks| && (s.tasks[t].point == Leaving || s.tasks[t].point == Ended)
  }

  lemma AbandonedStep(s: Sys, t: nat, n: string, l: Label)
    requires Abandoned(s, t) && (t, n) in s.live
    ensures Abandoned(Step(s, l), t) && (t, n) in Step(s, l).live
  {
  }

  lemma {:induction false} AbandonedForGood(s: Sys, t: nat, n: string, labels: seq<Label>)
    requires Abandoned(s, t) && (t, n) in s.live
    ensures Abandoned(Run(s, labels), t) && (t, n) in Run(s, labels).live
    decreases |labels|
  {
    if labels != [] {
      AbandonedStep(s, t, n, labels[0]);
      AbandonedForGood(Step(s, labels[0]), t, n, labels[1..]);
    }
  }

  /** `_mcp_stacks` aliases the task's own dictionary: cancelling a serving task empties, in the handler, what `finally`
      was to close, so every connection it has open stays open in every run from there. */
  lemma CancelledWhileServingLeaks(labels: seq<Label>, t: nat, n: string, later: seq<Label>)
    requires t < |Run(INIT, labels).tasks| && Run(INIT, labels).tasks[t].point == Serving
    requires (t, n) in Run(INIT, labels).live
    ensures (t, n) in Run(Step(Step(Run(INIT, labels), Cancel(t)), Fail(t)), later).live
  {
    RunKeeps(INIT, labels);
    var s := Run(INIT, labels);
    hide Run;
    assert TaskOk(s, t) && LiveOk(s, t);
    var u := Step(Step(s, Cancel(t)), Fail(t));
    assert u.tasks[t].point == Leaving;
    AbandonedForGood(u, t, n, later);
  }

  /** Nothing is cancelled, and closing a server raises at most what is suppressed. */
  predicate Smooth(l: Label) {
    !l.Cancel? && !l.CloseRaises?
  }

  ghost predicate CalmTask(s: Sys, t: nat)
    requires t < |s.tasks| && s.tasks[t].local < |s.dicts|
  {
    var task := s.tasks[t];
    && !task.skipped && !task.dropped && !task.cleared && !task.cutShort
    && (task.point == Failing ==> !task.served && s.dicts[task.local] == [])
    && (task.point.Draining? ==> s.host.runtime == Some(t) && s.host.status != Disconnected)
  }

  ghost predicate Calm(s: Sys) {
    Inv(s) && forall t :: 0 <= t < |s.tasks| ==> s.tasks[t].local < |s.dicts| && CalmTask(s, t)
  }

  lemma CalmOthers(s: Sys, l: Label)
    requires Calm(s) && (l.Connect? || l.Close?)
    ensures Calm(Step(s, l))
  {
    StepKeeps(s, l);
    var u := Step(s, l);
    forall t | 0 <= t < |u.tasks| ensures u.tasks[t].local < |u.dicts| && CalmTask(u, t) {
      assert TaskOk(u, t);
      if t < |s.tasks| { assert CalmTask(s, t) && TaskOk(s, t); }
    }
  }

  lemma CalmTasks(s: Sys, l: Label)
    requires Calm(s) && !l.Connect? && !l.Close? && Smooth(l) && l.t < |s.tasks|
    ensures Calm(StepTask(s, l))
  {
    TaskKeeps(s, l);
    var u := StepTask(s, l);
    assert CalmTask(s, l.t) && TaskOk(s, l.t) && LiveOk(s, l.t);
    forall t | 0 <= t < |u.tasks| ensures u.tasks[t].local < |u.dicts| && CalmTask(u, t) {
      assert TaskOk(u, t);
      assert CalmTask(s, t) && TaskOk(s, t);
    }
  }

  lemma {:induction false} RunCalm(s: Sys, labels: seq<Label>)
    requires Calm(s) && forall i :: 0 <= i < |labels| ==> Smooth(labels[i])
    ensures Calm(Run(s, labels))
    decreases |labels|
  {
    hide Calm;
    if labels != [] {
      var l := labels[0];
      hide StepTask, StepConnect, StepClose;
      if l.Connect? || l.Close? {
        CalmOthers(s, l);
      } else if l.t < |s.tasks| {
        CalmTasks(s, l);
      }
      RunCalm(Step(s, l), labels[1..]);
    }
  }

  /** Without cancellation, in every interleaving, only the recorded task holds connections, so never two tasks at once;
      and a task that has ended has closed everything it opened and is recorded no more. */
  lemma OneHolder(labels: seq<Label>, t: nat, n: string)
    requires forall i :: 0 <= i < |labels| ==> Smooth(labels[i])
    ensures var s := Run(INIT, labels);
            && ((t, n) in s.live ==> s.host.runtime == Some(t) && t < |s.tasks| && s.tasks[t].point != Ended)
            && (t < |s.tasks| && s.tasks[t].point == Ended ==> s.host.runtime != Some(t) && (t, n) !in s.live)
  {
    RunCalm(INIT, labels);
    hide Run;
    var s := Run(INIT, labels);
    if t < |s.tasks| {
      assert TaskOk(s, t) && LiveOk(s, t) && CalmTask(s, t);
    }
  }

  // ---- A record that blocks every later connect ----

  /** The recorded task has ended without its last section, and the state is not `disconnected`. */
  ghost predicate Stuck(s: Sys, t: nat) {
    && Inv(s) && s.host.runtime == Some(t) && t < |s.tasks|
    && s.tasks[t].point == Ended && s.host.status != Disconnected
  }

  lemma StuckStep(s: Sys, t: nat, l: Label)
    requires Stuck(s, t)
    ensures Stuck(Step(s, l), t) && |Step(s, l).tasks| == |s.tasks|
  {
    StepKeeps(s, l);
    if !l.Connect? && !l.Close? && l.t < |s.tasks| {
      assert TaskOk(s, l.t);
    }
  }

  /** From there no run ever starts another runtime task or leaves that state: every later connect waits for a future that
      nobody resolves, returns as if connected, goes round over a finished task, or fails with that task's
      cancellation. */
  lemma {:induction false} StuckForGood(s: Sys, t: nat, labels: seq<Label>)
    requires Stuck(s, t)
    ensures Stuck(Run(s, labels), t) && |Run(s, labels).tasks| == |s.tasks|
    decreases |labels|
  {
    hide Stuck, Step;
    if labels != [] {
      StuckStep(s, t, labels[0]);
      StuckForGood(Step(s, labels[0]), t, labels[1..]);
    }
  }

  /** Such a state is one cancellation away from any state in which a connect would start a task. */
  lemma DroppedBeforeStartSticks(labels: seq<Label>)
    requires Run(INIT, labels).host.status == Disconnected
    ensures var s := Run(INIT, labels);
            Stuck(Step(Step(s, Connect), Cancel(|s.tasks|)), |s.tasks|)
  {
    RunKeeps(INIT, labels);
    var s := Run(INIT, labels);
    hide Run, Inv;
    StepKeeps(s, Connect);
    StepKeeps(Step(s, Connect), Cancel(|s.tasks|));
  }

  /** A recorded task that has ended blocks if and only if the state is not `disconnected`: exactly then no later run
      starts another runtime task. */
  lemma EndedRecordBlocks(labels: seq<Label>, t: nat)
    requires var s := Run(INIT, labels);
             s.host.runtime == Some(t) && t < |s.tasks| && s.tasks[t].point == Ended
    ensures var s := Run(INIT, labels);
            (forall later :: |Run(s, later).tasks| == |s.tasks|) <==> s.host.status != Disconnected
  {
    RunKeeps(INIT, labels);
    var s := Run(INIT, labels);
    if s.host.status != Disconnected {
      forall later ensures |Run(s, later).tasks| == |s.tasks| {
        StuckForGood(s, t, later);
      }
    } else {
      assert [Connect][1..] == [];
      assert Run(s, [Connect]) == Run(Step(s, Connect), []) == Step(s, Connect);
      assert |Run(s, [Connect]).tasks| == |s.tasks| + 1;
    }
  }

  /** Only a skipped last section leads there: a task that ended otherwise is recorded no more. */
  lemma OnlySkippingSticks(labels: seq<Label>, t: nat)
    requires t < |Run(INIT, labels).tasks| && Run(INIT, labels).tasks[t].point == Ended
    ensures Run(INIT, labels).host.runtime == Some(t) ==> Run(INIT, labels).tasks[t].skipped
  {
    RunKeeps(INIT, labels);
    hide Run;
    assert TaskOk(Run(INIT, labels), t);
  }

  // ---- A close that arrives while the servers are being connected ----

  /** Such a close does not keep the host from reporting `connected`: it does so exactly when some server answers. */
  lemma ConnectedAfterClose(labels: seq<Label>, t: nat, names: seq<string>)
    requires var s := Run(INIT, labels);
             t < |s.tasks| && s.tasks[t].point == Opening && s.host.status == Closing && Distinct(names)
    ensures var u := Step(Step(Run(INIT, labels), Open(t, names)), Settle(t));
            && (u.host.status == Connected <==> names != [])
            && (u.host.connected <==> names != [])
            && (names != [] ==> Parting(u, t))
  {
    RunKeeps(INIT, labels);
    var s := Run(INIT, labels);
    hide Run;
    assert TaskOk(s, t);
    StepKeeps(s, Open(t, names));
    StepKeeps(Step(s, Open(t, names)), Settle(t));
  }

  /** The recorded task is serving or on its way out, has been told to stop, and no connect starts another. */
  ghost predicate Parting(s: Sys, t: nat) {
    && Inv(s) && t < |s.tasks| && s.host.runtime == Some(t) && s.host.status != Disconnected
    && s.tasks[t].eventSet
    && (s.tasks[t].point == Serving || s.tasks[t].point.Draining? || s.tasks[t].point == Leaving)
  }

  lemma PartingStep(s: Sys, t: nat, l: Label)
    requires Parting(s, t) && l != Cancel(t)
    ensures |Step(s, l).tasks| >= |s.tasks|
    ensures (Parting(Step(s, l), t) && |Step(s, l).tasks| == |s.tasks|) || Step(s, l).tasks[t].point == Ended
  {
    StepKeeps(s, l);
    if !l.Connect? && !l.Close? && l.t < |s.tasks| {
      assert TaskOk(s, l.t) && LiveOk(s, l.t);
    }
  }

  lemma EndedStep(s: Sys, t: nat, l: Label)
    requires t < |s.tasks| && s.tasks[t].point == Ended
    ensures t < |Step(s, l).tasks| && Step(s, l).tasks[t].point == Ended
  {
  }

  lemma {:induction false} EndedStays(s: Sys, t: nat, labels: seq<Label>)
    requires t < |s.tasks| && s.tasks[t].point == Ended
    ensures t < |Run(s, labels).tasks| && Run(s, labels).tasks[t].point == Ended
    decreases |labels|
  {
    hide Step;
    if labels != [] {
      EndedStep(s, t, labels[0]);
      EndedStays(Step(s, labels[0]), t, labels[1..]);
    }
  }

  /** That state lasts no longer than the task: unless it is cancelled, it keeps its shutdown event set and nothing starts
      another task until it has ended. */
  lemma {:induction false} PartingLasts(s: Sys, t: nat, labels: seq<Label>)
    requires Parting(s, t) && Cancel(t) !in labels
    ensures var u := Run(s, labels);
            && t < |u.tasks|
            && (u.tasks[t].point == Ended || (Parting(u, t) && |u.tasks| == |s.tasks|))
    decreases |labels|
  {
    hide Step, Inv;
    if labels != [] {
      var u := Step(s, labels[0]);
      PartingStep(s, t, labels[0]);
      if u.tasks[t].point == Ended {
        EndedStays(u, t, labels[1..]);
      } else {
        PartingLasts(u, t, labels[1..]);
      }
    }
  }

  // ---- A connect takes effect ----

  /** From any state of any run that is not connected, connecting or closing, a connect starts a task, and that task's own
      steps end with exactly the servers that answered open, its future resolved to whether there are any, and the host
      reporting the same. */
  lemma ConnectCompletes(labels: seq<Label>, names: seq<string>)
    requires Run(INIT, labels).host.status == Disconnected && Distinct(names)
    ensures var s := Run(INIT, labels);
            var t := |s.tasks|;
            var u := Step(Step(Step(Step(s, Connect), Start(t)), Open(t, names)), Settle(t));
            && |u.tasks| == t + 1 && u.host.runtime == Some(t) && Holds(u.live, t, names)
            && u.tasks[t].resolved == Some(names != [])
            && u.host.status == (if names != [] then Connected else Disconnected) && u.host.connected == (names != [])
            && u.tasks[t].point == if names != [] then Serving else Leaving
  {
    RunKeeps(INIT, labels);
    var s := Run(INIT, labels);
    hide Run;
    var t := |s.tasks|;
    var s1 := Step(s, Connect);
    StepKeeps(s, Connect);
    assert LiveOk(s1, t);
    var s2 := Step(s1, Start(t));
    var s3 := Step(s2, Open(t, names));
    assert s3.tasks[t] == FRESH.(point := Settling, local := |s2.dicts|);
  }

  // ---- A failure or a cancellation takes effect ----

  /** A cancellation takes a task that is waiting for its servers, for the lock with their answer, or for its shutdown event
      into the handler; it ends any other at once, but for one in a handler, which goes on to close what it has.  The host and
      the connections stay as they are. */
  lemma CancelTells(labels: seq<Label>, t: nat)
    requires t < |Run(INIT, labels).tasks|
    ensures var s, u := Run(INIT, labels), Step(Run(INIT, labels), Cancel(t));
            && u.host == s.host && u.live == s.live && u.dicts == s.dicts && |u.tasks| == |s.tasks|
            && u.tasks[t].resolved == s.tasks[t].resolved
            && (match s.tasks[t].point
                case Opening => u.tasks[t].point == Failing
                case Settling => u.tasks[t].point == Failing
                case Serving => u.tasks[t].point == Failing
                case Failing => u.tasks[t].point == Leaving || u.tasks[t].point == Draining(s.dicts[s.tasks[t].local])
                case _ => u.tasks[t].point == Ended)
  {
    RunKeeps(INIT, labels);
    hide Run;
    assert TaskOk(Run(INIT, labels), t);
  }

  /** The handler reports `disconnected`, answers whoever still waits for the servers with no, and empties the dictionary the
      host refers to, so that a task which served has nothing left to close. */
  lemma FailTells(labels: seq<Label>, t: nat)
    requires var s := Run(INIT, labels); t < |s.tasks| && s.tasks[t].point == Failing
    ensures var s, u := Run(INIT, labels), Step(Run(INIT, labels), Fail(t));
            && u.host == s.host.(status := Disconnected, connected := false, connecting := false)
            && s.host.stacks < |s.dicts| && s.tasks[t].local < |s.dicts| && |u.tasks| == |s.tasks|
            && u.dicts == s.dicts[s.host.stacks := []] && u.live == s.live
            && u.tasks[t].resolved == (if s.tasks[t].resolved.None? then Some(false) else s.tasks[t].resolved)
            && (if s.tasks[t].served || s.dicts[s.tasks[t].local] == [] then u.tasks[t].point == Leaving
                else u.tasks[t].point == Draining(s.dicts[s.tasks[t].local]))
  {
    RunKeeps(INIT, labels);
    hide Run;
    assert TaskOk(Run(INIT, labels), t);
  }

  /** The last section of the recorded task forgets it, reports `disconnected` and empties the dictionary; that of any other
      task only ends it. */
  lemma LeaveTells(labels: seq<Label>, t: nat)
    requires var s := Run(INIT, labels); t < |s.tasks| && s.tasks[t].point == Leaving
    ensures var s, u := Run(INIT, labels), Step(Run(INIT, labels), Leave(t));
            && u.tasks == s.tasks[t := s.tasks[t].(point := Ended)] && u.live == s.live && s.host.stacks < |s.dicts|
            && (if s.host.runtime == Some(t)
                then u.host == Host(Disconnected, false, false, s.host.stacks, None, None, None)
                     && u.dicts == s.dicts[s.host.stacks := []]
                else u.host == s.host && u.dicts == s.dicts)
  {
    RunKeeps(INIT, labels);
    hide Run;
  }

  // ---- A close takes effect ----

  /** A close tells the recorded task to stop and says so; without one it clears what is left. */
  lemma CloseTells(labels: seq<Label>)
    ensures var s, u := Run(INIT, labels), Step(Run(INIT, labels), Close);
            && u.live == s.live && |u.tasks| == |s.tasks| && u.host.runtime == s.host.runtime
            && !u.host.connected && !u.host.connecting
            && (match s.host.runtime
                case None => u.host.status == Disconnected && u.tasks == s.tasks
                case Some(t) => u.host.status == Closing && t < |s.tasks| && u.tasks == s.tasks[t := s.tasks[t].(eventSet := true)])
  {
    RunKeeps(INIT, labels);
    hide Run;
  }

  /** Waking on the shutdown event, a task turns to closing exactly the connections it holds. */
  lemma WakeDrains(labels: seq<Label>, t: nat)
    requires var s := Run(INIT, labels);
             t < |s.tasks| && s.tasks[t].point == Serving && s.tasks[t].eventSet
    ensures var s, u := Run(INIT, labels), Step(Run(INIT, labels), Wake(t));
            && u.live == s.live && u.tasks[t].point.Draining? && u.tasks[t].point.rest != []
            && Holds(u.live, t, u.tasks[t].point.rest)
  {
    RunKeeps(INIT, labels);
    hide Run;
    assert TaskOk(Run(INIT, labels), t) && LiveOk(Run(INIT, labels), t);
  }

  /** The step that a task takes next when nothing goes wrong; `names` are the servers that answer it. */
  function Due(s: Sys, t: nat, names: seq<string>): Label
    requires t < |s.tasks|
  {
    match s.tasks[t].point
    case Fresh => Start(t)
    case Opening => Open(t, names)
    case Settling => Settle(t)
    case Serving => Wake(t)
    case Failing => Fail(t)
    case Draining(_) => CloseOne(t)
    case Leaving => Leave(t)
    case Ended => Leave(t)
  }

  /** How many such steps a task has left that was told to stop. */
  function StepsLeft(s: Sys, t: nat, names: seq<string>): nat
    requires t < |s.tasks|
  {
    var held := if s.tasks[t].local < |s.dicts| then |s.dicts[s.tasks[t].local]| else 0;
    match s.tasks[t].point
    case Fresh => if names == [] then 4 else |names| + 5
    case Opening => if names == [] then 3 else |names| + 4
    case Settling => if held == 0 then 2 else held + 3
    case Serving => held + 2
    case Failing => if s.tasks[t].served then 2 else held + 2
    case Draining(rest) => |rest| + 1
    case Leaving => 1
    case Ended => 0
  }

  /** The recorded task has been told to stop and has not ended. */
  ghost predicate Stopping(s: Sys, t: nat) {
    && Inv(s) && t < |s.tasks| && s.host.runtime == Some(t) && s.tasks[t].eventSet && s.tasks[t].point != Ended
  }

  /** The task has lost, or is about to lose, the dictionary it would close. */
  predicate Forgets(s: Sys, t: nat) {
    t < |s.tasks| && (s.tasks[t].cleared || (s.tasks[t].point == Failing && s.tasks[t].served))
  }

  /** No record, no connection of the task, and nobody connected. */
  ghost predicate Closed(s: Sys, t: nat) {
    && t < |s.tasks| && s.tasks[t].point == Ended && !s.tasks[t].skipped
    && s.host.status == Disconnected && !s.host.connected && !s.host.connecting
    && s.host.runtime == s.host.ready == s.host.event == None
  }

  lemma EarlyDue(s: Sys, t: nat, names: seq<string>)
    requires Stopping(s, t) && Distinct(names)
    requires s.tasks[t].point in {Fresh, Opening, Settling}
    ensures var u := Step(s, Due(s, t, names));
            && |u.tasks| == |s.tasks| && StepsLeft(u, t, names) + 1 == StepsLeft(s, t, names)
            && Stopping(u, t) && (Forgets(u, t) <==> Forgets(s, t))
  {
    StepKeeps(s, Due(s, t, names));
    assert TaskOk(s, t) && LiveOk(s, t);
    hide LiveOk;
  }

  lemma FailDue(s: Sys, t: nat, names: seq<string>)
    requires Stopping(s, t) && s.tasks[t].point == Failing
    ensures var u := Step(s, Due(s, t, names));
            && |u.tasks| == |s.tasks| && StepsLeft(u, t, names) + 1 == StepsLeft(s, t, names)
            && Stopping(u, t) && (Forgets(u, t) <==> Forgets(s, t))
  {
    StepKeeps(s, Due(s, t, names));
    assert TaskOk(s, t) && LiveOk(s, t);
    hide LiveOk;
  }

  lemma LateDue(s: Sys, t: nat, names: seq<string>)
    requires Stopping(s, t) && (s.tasks[t].point == Serving || s.tasks[t].point.Draining?)
    ensures var u := Step(s, Due(s, t, names));
            && |u.tasks| == |s.tasks| && StepsLeft(u, t, names) + 1 == StepsLeft(s, t, names)
            && Stopping(u, t) && (Forgets(u, t) <==> Forgets(s, t))
  {
    StepKeeps(s, Due(s, t, names));
    assert TaskOk(s, t) && LiveOk(s, t);
  }

  lemma LeaveDue(s: Sys, t: nat, names: seq<string>)
    requires Stopping(s, t) && s.tasks[t].point == Leaving
    ensures var u := Step(s, Due(s, t, names));
            && |u.tasks| == |s.tasks| && Closed(u, t) && Inv(u) && (Forgets(u, t) <==> Forgets(s, t))
            && !u.tasks[t].cutShort
  {
    StepKeeps(s, Due(s, t, names));
    assert TaskOk(s, t);
  }

  /** The task takes `n` of its steps. */
  function Advance(s: Sys, t: nat, names: seq<string>, n: nat): Sys
    requires t < |s.tasks|
    decreases n
  {
    if n == 0 then s
    else
      var u := Step(s, Due(s, t, names));
      if t < |u.tasks| then Advance(u, t, names, n - 1) else u
  }

  lemma {:induction false} AdvanceCloses(s: Sys, t: nat, names: seq<string>)
    requires Stopping(s, t) && Distinct(names)
    ensures var u := Advance(s, t, names, StepsLeft(s, t, names));
            && |u.tasks| == |s.tasks| && Closed(u, t) && Inv(u) && !u.tasks[t].cutShort && (Forgets(u, t) <==> Forgets(s, t))
    decreases StepsLeft(s, t, names)
  {
    var u := Step(s, Due(s, t, names));
    if s.tasks[t].point == Leaving {
      LeaveDue(s, t, names);
      assert Advance(s, t, names, 1) == Advance(u, t, names, 0);
    } else {
      hide Step, Inv, Forgets, Closed, LiveOk;
      if s.tasks[t].point == Failing {
        FailDue(s, t, names);
      } else if s.tasks[t].point == Serving || s.tasks[t].point.Draining? {
        LateDue(s, t, names);
      } else {
        EarlyDue(s, t, names);
      }
      AdvanceCloses(u, t, names);
    }
  }

  /** A close takes effect: from any state of any run in which the host is closing and its recorded task has not ended, the
      task's own steps, as many as `StepsLeft` says, whatever servers still answer, end in `disconnected` with nothing
      recorded; the task has closed every connection unless a handler has taken or is about to take its dictionary
      away; and the next connect starts a new task. */
  lemma CloseCompletes(labels: seq<Label>, t: nat, names: seq<string>)
    requires var s := Run(INIT, labels);
             s.host.status == Closing && s.host.runtime == Some(t) && t < |s.tasks| && s.tasks[t].point != Ended
    requires Distinct(names)
    ensures var s := Run(INIT, labels);
            var u := Advance(s, t, names, StepsLeft(s, t, names));
            && Closed(u, t) && (HasOpen(u.live, t) <==> Forgets(s, t))
            && Step(u, Connect).host.runtime == Some(|s.tasks|) && Step(u, Connect).tasks == u.tasks + [Step(u, Connect).tasks[|s.tasks|]]
            && Step(u, Connect).tasks[|s.tasks|].point == Fresh && Step(u, Connect).host.status == Connecting
  {
    RunKeeps(INIT, labels);
    var s := Run(INIT, labels);
    hide Run;
    AdvanceCloses(s, t, names);
    var u := Advance(s, t, names, StepsLeft(s, t, names));
    hide Advance;
    assert TaskOk(u, t) && LiveOk(u, t);
  }

  lemma DueCounts(s: Sys, t: nat)
    requires Parting(s, t)
    ensures var u := Step(s, Due(s, t, []));
            && t < |u.tasks| && StepsLeft(u, t, []) + 1 == StepsLeft(s, t, [])
            && (if s.tasks[t].point == Leaving then Closed(u, t) else Parting(u, t))
  {
    if s.tasks[t].point == Leaving {
      LeaveDue(s, t, []);
    } else {
      LateDue(s, t, []);
      PartingStep(s, t, Due(s, t, []));
    }
  }

  lemma OtherTaskWaits(s: Sys, t: nat, l: Label)
    requires Parting(s, t) && !l.Connect? && !l.Close? && l.t < |s.tasks| && l.t != t
    ensures Step(s, l).tasks[t] == s.tasks[t] && s.tasks[t].local < |s.dicts| <= |Step(s, l).dicts|
    ensures s.tasks[t].point == Serving ==> Step(s, l).dicts[s.tasks[t].local] == s.dicts[s.tasks[t].local]
  {
    assert TaskOk(s, t) && TaskOk(s, l.t);
    hide LiveOk, Mirrored, StepCut;
  }

  lemma OwnWaits(s: Sys, t: nat, l: Label)
    requires Parting(s, t) && !l.Connect? && !l.Close? && l.t == t
    requires l != Cancel(t) && l != CloseRaises(t) && l != Due(s, t, [])
    ensures Step(s, l) == s
  {
    hide Inv, Cleared, Off, Resolve, Drain;
  }

  /** No other step moves the task, or what it is about to close. */
  lemma OthersWait(s: Sys, t: nat, l: Label)
    requires Parting(s, t) && l != Cancel(t) && l != CloseRaises(t) && l != Due(s, t, [])
    ensures t < |Step(s, l).tasks| && Parting(Step(s, l), t) && StepsLeft(Step(s, l), t, []) == StepsLeft(s, t, [])
  {
    PartingStep(s, t, l);
    assert TaskOk(s, t);
    if l.Connect? || l.Close? {
    } else if l.t == t {
      OwnWaits(s, t, l);
    } else if l.t < |s.tasks| {
      OtherTaskWaits(s, t, l);
      hide Step;
    }
  }

  /** The steps of the task among the labels of a run. */
  function Taken(s: Sys, t: nat, labels: seq<Label>): nat
    decreases |labels|
  {
    if labels == [] then 0
    else (if t < |s.tasks| && s.tasks[t].point != Ended && labels[0] == Due(s, t, []) then 1 else 0)
         + Taken(Step(s, labels[0]), t, labels[1..])
  }

  lemma {:induction false} EndedTakesNone(s: Sys, t: nat, labels: seq<Label>)
    requires t < |s.tasks| && s.tasks[t].point == Ended
    ensures Taken(s, t, labels) == 0 && t < |Run(s, labels).tasks| && Run(s, labels).tasks[t].point == Ended
    decreases |labels|
  {
    hide Step;
    if labels != [] {
      EndedStep(s, t, labels[0]);
      EndedTakesNone(Step(s, labels[0]), t, labels[1..]);
    }
  }

  /** The same in every interleaving, from the moment the task serves: unless it is cancelled or a closing raises, each of
      its steps brings its end one step nearer, and nobody else's step moves it back or forth. */
  lemma {:induction false} PartingEnds(s: Sys, t: nat, labels: seq<Label>)
    requires Parting(s, t) && Cancel(t) !in labels && CloseRaises(t) !in labels
    ensures var u := Run(s, labels);
            t < |u.tasks| && StepsLeft(u, t, []) + Taken(s, t, labels) == StepsLeft(s, t, [])
            && (Taken(s, t, labels) == StepsLeft(s, t, []) <==> u.tasks[t].point == Ended)
    decreases |labels|
  {
    if labels == [] {
    } else {
      var l, rest := labels[0], labels[1..];
      var u := Step(s, l);
      hide Step, Inv, StepsLeft, Due, Run;
      RunOn(s, l, rest);
      assert labels == [l] + rest;
      if l == Due(s, t, []) {
        DueCounts(s, t);
        if s.tasks[t].point == Leaving {
          EndedTakesNone(u, t, rest);
          NoneLeft(Run(u, rest), t);
          NoneLeft(u, t);
        } else {
          PartingEnds(u, t, rest);
        }
      } else {
        OthersWait(s, t, l);
        PartingEnds(u, t, rest);
      }
    }
  }

  lemma RunOn(s: Sys, l: Label, rest: seq<Label>)
    ensures Run(s, [l] + rest) == Run(Step(s, l), rest)
  {
    assert ([l] + rest)[1..] == rest;
  }

  lemma NoneLeft(s: Sys, t: nat)
    requires t < |s.tasks|
    ensures s.tasks[t].point == Ended <==> StepsLeft(s, t, []) == 0
  {
  }
}
