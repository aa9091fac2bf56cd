/** EpicActionQueue: a FIFO of gated commands, scanned once per motor tick. */
module MotorQueue {
  import opened Actions

  datatype Command = Command(actionId: nat, intent: Intent, readyAt: int, requiresParallel: bool)

  predicate Ready(c: Command, now: int) {
    c.readyAt <= now
  }

  // A selection marks each queue position as taken or not.

  /** How many of the first n positions are marked. */
  ghost function Count(m: seq<bool>, n: nat): (c: nat)
    requires n <= |m|
    ensures c <= n
  {
    if n == 0 then 0 else Count(m, n - 1) + if m[n - 1] then 1 else 0
  }

  /** The commands at positions lo .. hi whose mark is b, in queue order. */
  ghost function Part(q: seq<Command>, m: seq<bool>, lo: nat, hi: nat, b: bool): seq<Command>
    requires lo <= hi <= |q| == |m|
    decreases hi
  {
    if lo == hi then [] else
      Part(q, m, lo, hi - 1, b) + if m[hi - 1] == b then [q[hi - 1]] else []
  }

  /** A marked command among the first n must run alone. */
  ghost predicate Exclusive(q: seq<Command>, m: seq<bool>, n: nat)
    requires n <= |q| == |m|
  {
    exists i :: 0 <= i < n && m[i] && !q[i].requiresParallel
  }

  /** What one tick may take, said without an algorithm. */
  ghost predicate Greedy(q: seq<Command>, m: seq<bool>, now: int, slots: nat) {
    && |m| == |q|
    && Count(m, |m|) <= slots
    && (forall i :: 0 <= i < |q| && m[i] ==> q[i].readyAt <= now)
    && (forall i, j :: 0 <= i < j < |q| && m[i] && m[j] ==> q[i].requiresParallel || q[j].requiresParallel)
    // A ready command stays behind only because the tick was already full when it was reached,
    // or because it must run alone and one that must run alone was taken ahead of it.
    && (forall i :: 0 <= i < |q| && !m[i] && q[i].readyAt <= now ==>
          Count(m, i) == slots || (!q[i].requiresParallel && Exclusive(q, m, i)))
  }

  /** What the scan remembers after some positions: how many it took and whether one must run alone. */
  datatype ScanState = ScanState(count: nat, seen: bool)

  ghost function Scan(q: seq<Command>, n: nat, now: int, slots: nat): ScanState
    requires n <= |q|
  {
    if n == 0 then ScanState(0, false) else
      var s := Scan(q, n - 1, now, slots);
      if TakesNext(s, q[n - 1], now, slots)
      then ScanState(s.count + 1, s.seen || !q[n - 1].requiresParallel) else s
  }

  ghost predicate TakesNext(s: ScanState, c: Command, now: int, slots: nat) {
    s.count < slots && Ready(c, now) && (c.requiresParallel || !s.seen)
  }

  ghost predicate Takes(q: seq<Command>, i: nat, now: int, slots: nat)
    requires i < |q|
  {
    TakesNext(Scan(q, i, now, slots), q[i], now, slots)
  }

  /** One tick's selection. */
  ghost function Marks(q: seq<Command>, now: int, slots: nat): (m: seq<bool>)
    ensures |m| == |q|
    ensures forall i :: 0 <= i < |q| ==> m[i] == Takes(q, i, now, slots)
  {
    seq(|q|, i requires 0 <= i < |q| => Takes(q, i, now, slots))
  }

  ghost function Taken(q: seq<Command>, now: int, slots: nat): seq<Command> {
    Part(q, Marks(q, now, slots), 0, |q|, true)
  }

  ghost function Remaining(q: seq<Command>, now: int, slots: nat): seq<Command> {
    Part(q, Marks(q, now, slots), 0, |q|, false)
  }

  /** The scan's memory is about its own selection. */
  lemma {:induction false} ScanRemembers(q: seq<Command>, m: seq<bool>, n: nat, now: int, slots: nat)
    requires n <= |q| == |m|
    requires forall i :: 0 <= i < n ==> m[i] == Takes(q, i, now, slots)
    ensures Scan(q, n, now, slots) == ScanState(Count(m, n), Exclusive(q, m, n))
    ensures Count(m, n) <= slots
  {
    if n > 0 {
      ScanRemembers(q, m, n - 1, now, slots);
    }
  }

  lemma {:induction false} CountGrows(m: seq<bool>, i: nat, n: nat)
    requires i < n <= |m| && m[i]
    ensures Count(m, i) < Count(m, n)
  {
    if i < n - 1 {
      CountGrows(m, i, n - 1);
    }
  }

  lemma ScanIsGreedy(q: seq<Command>, now: int, slots: nat)
    ensures Greedy(q, Marks(q, now, slots), now, slots)
  {
    var m := Marks(q, now, slots);
    forall n | 0 <= n <= |q|
      ensures Scan(q, n, now, slots) == ScanState(Count(m, n), Exclusive(q, m, n)) && Count(m, n) <= slots
    {
      ScanRemembers(q, m, n, now, slots);
    }
  }

  lemma GreedyAt(q: seq<Command>, m: seq<bool>, i: nat, now: int, slots: nat)
    requires Greedy(q, m, now, slots) && i < |q|
    requires Scan(q, i, now, slots) == ScanState(Count(m, i), Exclusive(q, m, i))
    ensures m[i] == Takes(q, i, now, slots)
  {
    hide Scan, Count;
    if m[i] {
      CountGrows(m, i, |q|);
    }
  }

  lemma {:induction false} GreedyIsScan(q: seq<Command>, m: seq<bool>, n: nat, now: int, slots: nat)
    requires Greedy(q, m, now, slots) && n <= |q| == |m|
    ensures forall i :: 0 <= i < n ==> m[i] == Takes(q, i, now, slots)
  {
    hide Greedy, Takes;
    if n > 0 {
      GreedyIsScan(q, m, n - 1, now, slots);
      ScanRemembers(q, m, n - 1, now, slots);
      GreedyAt(q, m, n - 1, now, slots);
    }
  }

  /** One tick's selection is the only greedy one. */
  lemma TickIsTheGreedyChoice(q: seq<Command>, m: seq<bool>, now: int, slots: nat)
    ensures Greedy(q, m, now, slots) <==> m == Marks(q, now, slots)
  {
    ScanIsGreedy(q, now, slots);
    if Greedy(q, m, now, slots) {
      GreedyIsScan(q, m, |q|, now, slots);
    }
  }

  /** Once the tick is full the rest of the queue stays. */
  lemma {:induction false} FullScanStops(q: seq<Command>, n: nat, i: nat, now: int, slots: nat)
    requires n <= i < |q| && Scan(q, n, now, slots).count >= slots
    ensures !Takes(q, i, now, slots)
    ensures Scan(q, i, now, slots) == Scan(q, n, now, slots)
  {
    if n < i {
      FullScanStops(q, n, i - 1, now, slots);
    }
  }

  lemma {:induction false} PartSplits(q: seq<Command>, m: seq<bool>, lo: nat, mid: nat, hi: nat, b: bool)
    requires lo <= mid <= hi <= |q| == |m|
    ensures Part(q, m, lo, hi, b) == Part(q, m, lo, mid, b) + Part(q, m, mid, hi, b)
    decreases hi
  {
    if mid < hi {
      PartSplits(q, m, lo, mid, hi - 1, b);
    }
  }

  lemma {:induction false} PartUnmarked(q: seq<Command>, m: seq<bool>, lo: nat, hi: nat)
    requires lo <= hi <= |q| == |m|
    requires forall i :: lo <= i < hi ==> !m[i]
    ensures Part(q, m, lo, hi, false) == q[lo..hi] && Part(q, m, lo, hi, true) == []
    decreases hi
  {
    if lo < hi {
      PartUnmarked(q, m, lo, hi - 1);
    }
  }

  lemma PartNext(q: seq<Command>, m: seq<bool>, n: nat, b: bool)
    requires 0 < n <= |q| == |m|
    ensures Part(q, m, 0, n, b) == if m[n - 1] == b then Part(q, m, 0, n - 1, b) + [q[n - 1]] else Part(q, m, 0, n - 1, b)
  {
  }

  lemma ScanNext(q: seq<Command>, n: nat, now: int, slots: nat)
    requires n < |q|
    ensures var s := Scan(q, n, now, slots);
            Scan(q, n + 1, now, slots)
              == if Takes(q, n, now, slots) then ScanState(s.count + 1, s.seen || !q[n].requiresParallel) else s
  {
  }

  lemma NothingScanned(q: seq<Command>, m: seq<bool>, now: int, slots: nat)
    requires |q| == |m|
    ensures Scan(q, 0, now, slots) == ScanState(0, false) && Part(q, m, 0, 0, true) == []
  {
  }

  class EpicActionQueue {
    var commands: seq<Command>

    constructor ()
      ensures commands == []
    {
      commands := [];
    }

    method Enqueue(command: Command)
      modifies this
      ensures commands == old(commands) + [command]
    {
      commands := commands + [command];
    }

    method DequeueReady(now: int, maxParallel: int) returns (ready: seq<Command>)
      modifies this
      ensures maxParallel <= 0 ==> ready == [] && commands == old(commands)
      ensures maxParallel > 0 ==>
                && ready == Taken(old(commands), now, maxParallel)
                && commands == Remaining(old(commands), now, maxParallel)
    {
      hide Part, Lists;
      if maxParallel <= 0 {
        return [];
      }
      ghost var m := Marks(commands, now, maxParallel);
      var indices: seq<nat>;
      ready, indices := SelectReady(now, maxParallel, m);
      RemoveIndices(indices, m);
    }

    /** The scan loop. */
    method SelectReady(now: int, maxParallel: nat, ghost m: seq<bool>) returns (ready: seq<Command>, indices: seq<nat>)
      requires m == Marks(commands, now, maxParallel)
      ensures ready == Part(commands, m, 0, |m|, true) && Lists(indices, m, |m|)
    {
      hide Scan, Part, Lists;
      ready, indices := [], [];
      var seenNonParallel := false;
      var index := 0;
      NothingScanned(commands, m, now, maxParallel);
      ListsNone(m);
      while index < |commands| && |ready| < maxParallel
        invariant index <= |commands|
        invariant Scan(commands, index, now, maxParallel) == ScanState(|ready|, seenNonParallel)
        invariant ready == Part(commands, m, 0, index, true)
        invariant Lists(indices, m, index)
      {
        var command := commands[index];
        ScanNext(commands, index, now, maxParallel);
        PartNext(commands, m, index + 1, true);
        ListsNext(indices, m, index);
        if command.readyAt <= now && (command.requiresParallel || !seenNonParallel) {
          seenNonParallel := seenNonParallel || !command.requiresParallel;
          ready := ready + [command];
          indices := indices + [index];
        }
        index := index + 1;
      }
      forall i | index <= i < |commands| ensures !m[i] {
        FullScanStops(commands, index, i, now, maxParallel);
      }
      PartUnmarked(commands, m, index, |commands|);
      PartSplits(commands, m, 0, index, |commands|, true);
      ListsAll(indices, m, index);
    }

    /** The deletion loop, last index first. */
    method RemoveIndices(indices: seq<nat>, ghost m: seq<bool>)
      requires |m| == |commands| && Lists(indices, m, |m|)
      modifies this
      ensures commands == Part(old(commands), m, 0, |m|, false)
    {
      ghost var q := commands;
      ghost var done := |q|;
      var j := |indices|;
      while j > 0
        invariant 0 <= j <= |indices| && 0 <= done <= |q|
        invariant done == if j == |indices| then |q| else indices[j]
        invariant commands == q[..done] + Part(q, m, done, |q|, false)
      {
        j := j - 1;
        var index := indices[j];
        DeleteOne(q, m, index, done);
        commands := commands[..index] + commands[index + 1..];
        done := index;
      }
      PartUnmarked(q, m, 0, done);
      PartSplits(q, m, 0, done, |q|, false);
    }
  }

  /** Deleting a marked position with nothing marked between it and `done`. */
  lemma DeleteOne(q: seq<Command>, m: seq<bool>, index: nat, done: nat)
    requires index < done <= |q| == |m| && m[index]
    requires forall i :: index < i < done ==> !m[i]
    ensures var c := q[..done] + Part(q, m, done, |q|, false);
            c[..index] + c[index + 1..] == q[..index] + Part(q, m, index, |q|, false)
  {
    PartUnmarked(q, m, index + 1, done);
    PartSplits(q, m, index, index + 1, |q|, false);
    PartSplits(q, m, index + 1, done, |q|, false);
    assert Part(q, m, index, index + 1, false) == [];
    var rest := Part(q, m, done, |q|, false);
    assert (q[..done] + rest)[index + 1..] == q[index + 1..done] + rest;
    assert (q[..done] + rest)[..index] == q[..index];
  }

  /** `indices` lists the marked positions below n in increasing order. */
  ghost predicate Lists(indices: seq<nat>, m: seq<bool>, n: nat)
    requires n <= |m|
  {
    && (forall k :: 0 <= k < |indices| ==> indices[k] < n && m[indices[k]])
    && (forall k, l :: 0 <= k < l < |indices| ==> indices[k] < indices[l])
    && (forall i :: 0 <= i < n && m[i] ==> i in indices)
  }

  lemma ListsNone(m: seq<bool>)
    ensures Lists([], m, 0)
  {
  }

  lemma ListsNext(indices: seq<nat>, m: seq<bool>, n: nat)
    requires n < |m| && Lists(indices, m, n)
    ensures Lists(if m[n] then indices + [n] else indices, m, n + 1)
  {
    if m[n] {
      var more := indices + [n];
      assert more[|indices|] == n;
      forall i | 0 <= i < n && m[i] ensures i in more {
        assert i in indices;
      }
    }
  }

  lemma ListsAll(indices: seq<nat>, m: seq<bool>, n: nat)
    requires n <= |m| && Lists(indices, m, n) && forall i :: n <= i < |m| ==> !m[i]
    ensures Lists(indices, m, |m|)
  {
  }

  lemma {:induction false} PartSizes(q: seq<Command>, m: seq<bool>, n: nat)
    requires n <= |q| == |m|
    ensures |Part(q, m, 0, n, true)| == Count(m, n) && |Part(q, m, 0, n, false)| == n - Count(m, n)
  {
    if n > 0 {
      PartSizes(q, m, n - 1);
    }
  }

  ghost predicate AddsUp(q: seq<Command>, taken: seq<Command>, kept: seq<Command>) {
    multiset(q) == multiset(taken) + multiset(kept)
  }

  /** Nothing is lost or duplicated by a tick. */
  lemma {:induction false} PartsAddUp(q: seq<Command>, m: seq<bool>, n: nat)
    requires n <= |q| == |m|
    ensures multiset(q[..n]) == multiset(Part(q, m, 0, n, true)) + multiset(Part(q, m, 0, n, false))
  {
    assert AddsUp(q[..n], Part(q, m, 0, n, true), Part(q, m, 0, n, false)) by {
      PartsAdd(q, m, n);
    }
  }

  lemma {:induction false} PartsAdd(q: seq<Command>, m: seq<bool>, n: nat)
    requires n <= |q| == |m|
    ensures AddsUp(q[..n], Part(q, m, 0, n, true), Part(q, m, 0, n, false))
  {
    if n == 0 {
      assert q[..0] == [];
    } else {
      PartsAdd(q, m, n - 1);
      PartNext(q, m, n, true);
      PartNext(q, m, n, false);
      hide AddsUp, Part;
      assert q[..n] == q[..n - 1] + [q[n - 1]];
      AddUpOneMore(q[..n - 1], Part(q, m, 0, n - 1, true), Part(q, m, 0, n - 1, false), q[n - 1]);
    }
  }

  lemma AddUpOneMore(q: seq<Command>, taken: seq<Command>, kept: seq<Command>, c: Command)
    requires AddsUp(q, taken, kept)
    ensures AddsUp(q + [c], taken + [c], kept)
    ensures AddsUp(q + [c], taken, kept + [c])
  {
  }

  /** Among commands of one kind, an earlier one that is ready no later is never overtaken. */
  lemma FifoWithinKind(q: seq<Command>, i: nat, j: nat, now: int, slots: nat)
    requires i < j < |q| && q[i].requiresParallel == q[j].requiresParallel && q[i].readyAt <= q[j].readyAt
    requires Takes(q, j, now, slots)
    ensures Takes(q, i, now, slots)
  {
    ScanGrows(q, i, j, now, slots);
  }

  lemma {:induction false} ScanGrows(q: seq<Command>, i: nat, j: nat, now: int, slots: nat)
    requires i <= j <= |q|
    ensures Scan(q, i, now, slots).count <= Scan(q, j, now, slots).count
    ensures Scan(q, i, now, slots).seen ==> Scan(q, j, now, slots).seen
  {
    if i < j {
      ScanGrows(q, i, j - 1, now, slots);
    }
  }

  // ---- Runs: enqueues and ticks in any order ----

  datatype Event = Enqueued(command: Command) | Ticked(now: int)

  datatype Outcome = Outcome(queue: seq<Command>, batches: seq<seq<Command>>)

  ghost function Run(q: seq<Command>, events: seq<Event>, slots: nat): Outcome
    decreases |events|
  {
    if events == [] then Outcome(q, []) else
      match events[0]
      case Enqueued(c) => Run(q + [c], events[1..], slots)
      case Ticked(now) =>
        var rest := Run(Remaining(q, now, slots), events[1..], slots);
        Outcome(rest.queue, [Taken(q, now, slots)] + rest.batches)
  }

  ghost function Ticks(events: seq<Event>): nat {
    if events == [] then 0 else (if events[0].Ticked? then 1 else 0) + Ticks(events[1..])
  }

  ghost function Added(events: seq<Event>): multiset<Command> {
    if events == [] then multiset{} else
      (if events[0].Enqueued? then multiset{events[0].command} else multiset{}) + Added(events[1..])
  }

  ghost function Sum(batches: seq<seq<Command>>): multiset<Command> {
    if batches == [] then multiset{} else multiset(batches[0]) + Sum(batches[1..])
  }

  lemma TickConserves(q: seq<Command>, now: int, slots: nat)
    ensures multiset(q) == multiset(Taken(q, now, slots)) + multiset(Remaining(q, now, slots))
  {
    PartsAddUp(q, Marks(q, now, slots), |q|);
    assert q[..|q|] == q;
  }

  /** No command is lost or duplicated, whatever the run. */
  lemma {:induction false} RunConserves(q: seq<Command>, events: seq<Event>, slots: nat)
    ensures var o := Run(q, events, slots);
            multiset(q) + Added(events) == multiset(o.queue) + Sum(o.batches)
    decreases |events|
  {
    if events != [] {
      match events[0]
      case Enqueued(c) =>
        RunConserves(q + [c], events[1..], slots);
        assert multiset(q + [c]) == multiset(q) + multiset{c};
      case Ticked(now) =>
        var taken, kept := Taken(q, now, slots), Remaining(q, now, slots);
        var o := Run(kept, events[1..], slots);
        RunConserves(kept, events[1..], slots);
        TickConserves(q, now, slots);
        assert Run(q, events, slots) == Outcome(o.queue, [taken] + o.batches);
        assert ([taken] + o.batches)[1..] == o.batches;
        calc {
          multiset(q) + Added(events);
          multiset(taken) + (multiset(kept) + Added(events[1..]));
          multiset(taken) + (multiset(o.queue) + Sum(o.batches));
          multiset(o.queue) + Sum([taken] + o.batches);
        }
    }
  }

  /** Where a command that stays ends up. */
  lemma StaysAt(q: seq<Command>, m: seq<bool>, k: nat)
    requires k < |q| == |m| && !m[k]
    ensures var r := Part(q, m, 0, |q|, false); var p := k - Count(m, k);
            0 <= p < |r| && r[p] == q[k]
  {
    PartSizes(q, m, k);
    PartSplits(q, m, 0, k + 1, |q|, false);
  }

  lemma GoesOut(q: seq<Command>, m: seq<bool>, k: nat)
    requires k < |q| == |m| && m[k]
    ensures q[k] in Part(q, m, 0, |q|, true)
  {
    PartSplits(q, m, 0, k + 1, |q|, true);
    assert q[k] in Part(q, m, 0, k + 1, true);
  }

  /** What becomes of the command now at position k: the tick (counted from 0) that takes it, or where it waits. */
  datatype Fate = Dispatched(tick: nat) | Waiting(position: nat)

  ghost function FateOf(q: seq<Command>, k: nat, events: seq<Event>, slots: nat): Fate
    requires k < |q|
    decreases |events|
  {
    if events == [] then Waiting(k) else
      match events[0]
      case Enqueued(c) => FateOf(q + [c], k, events[1..], slots)
      case Ticked(now) =>
        var m := Marks(q, now, slots);
        if m[k] then Dispatched(0) else
          StaysAt(q, m, k);
          match FateOf(Remaining(q, now, slots), k - Count(m, k), events[1..], slots)
          case Dispatched(t) => Dispatched(t + 1)
          case Waiting(p) => Waiting(p)
  }

  /** The fate is about that very command: it is in the batch of that tick, or at that place in the queue. */
  lemma {:induction false} FateIsReal(q: seq<Command>, k: nat, events: seq<Event>, slots: nat)
    requires k < |q|
    ensures var o := Run(q, events, slots);
            match FateOf(q, k, events, slots)
            case Dispatched(t) => t < |o.batches| && q[k] in o.batches[t]
            case Waiting(p) => p < |o.queue| && o.queue[p] == q[k]
    decreases |events|
  {
    if events != [] {
      match events[0]
      case Enqueued(c) =>
        FateIsReal(q + [c], k, events[1..], slots);
      case Ticked(now) =>
        var m := Marks(q, now, slots);
        if m[k] {
          GoesOut(q, m, k);
        } else {
          StaysAt(q, m, k);
          FateIsReal(Remaining(q, now, slots), k - Count(m, k), events[1..], slots);
        }
    }
  }

  /** A tick that passes over a ready command takes something ahead of it. */
  lemma PassedOverMovesUp(q: seq<Command>, k: nat, now: int, slots: nat)
    requires slots >= 1 && k < |q| && Ready(q[k], now) && !Marks(q, now, slots)[k]
    ensures Count(Marks(q, now, slots), k) >= 1
  {
    var m := Marks(q, now, slots);
    ScanIsGreedy(q, now, slots);
    if Exclusive(q, m, k) {
      var i :| 0 <= i < k && m[i];
      CountGrows(m, i, k);
    }
  }

  /** Starvation freedom: a ready command with k ahead of it is dispatched by the (k+1)-th tick,
      whatever is enqueued meanwhile. */
  lemma {:induction false} StarvationFree(q: seq<Command>, k: nat, events: seq<Event>, slots: nat)
    requires slots >= 1 && k < |q|
    requires forall e :: e in events && e.Ticked? ==> q[k].readyAt <= e.now
    requires Ticks(events) > k
    ensures FateOf(q, k, events, slots).Dispatched?
    ensures FateOf(q, k, events, slots).tick <= k
    decreases |events|
  {
    match events[0]
    case Enqueued(c) =>
      StarvationFree(q + [c], k, events[1..], slots);
    case Ticked(now) =>
      var m := Marks(q, now, slots);
      if !m[k] {
        assert events[0] in events;
        PassedOverMovesUp(q, k, now, slots);
        StaysAt(q, m, k);
        StarvationFree(Remaining(q, now, slots), k - Count(m, k), events[1..], slots);
      }
  }
}
