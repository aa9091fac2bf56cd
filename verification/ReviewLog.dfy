/** Review proposals and their append-only event log, and the curator that proposes without repeating itself. */
module ReviewLog {
  import opened Actions

  datatype Status = Pending | Applied | Rejected | Deferred | Failed

  /** The payload entries the curator reads, and the rest. */
  datatype Payload = Payload(curatorKey: string, stateHash: string, body: string)

  /** `curated` tells that the origin is one the curator goes by. */
  datatype Proposal = Proposal(id: nat, kind: string, curated: bool, payload: Payload)

  datatype Event = Event(proposalId: nat, status: Status)

  /** The two files. */
  datatype Log = Log(proposals: seq<Proposal>, events: seq<Event>)

  /** A proposal with its status, as `iter_all` lists it. */
  datatype Row = Row(proposal: Proposal, status: Status)

  // ---- Reading the log ----

  /** The status of the last of the first `n` events about the proposal. */
  function StatusTo(events: seq<Event>, id: nat, n: nat): Status
    requires n <= |events|
  {
    if n == 0 then Pending
    else if events[n - 1].proposalId == id then events[n - 1].status
    else StatusTo(events, id, n - 1)
  }

  function StatusOf(log: Log, id: nat): Status {
    StatusTo(log.events, id, |log.events|)
  }

  /** The position of the first of the proposals from `k` on with this id; the length when there is none. */
  function Find(ps: seq<Proposal>, id: nat, k: nat): (i: nat)
    requires k <= |ps|
    ensures k <= i <= |ps| && (i < |ps| ==> ps[i].id == id) && forall j :: k <= j < i ==> ps[j].id != id
    decreases |ps| - k
  {
    if k == |ps| || ps[k].id == id then k else Find(ps, id, k + 1)
  }

  function Listed(log: Log): (rows: seq<Row>)
    ensures |rows| == |log.proposals|
    ensures forall i :: 0 <= i < |rows| ==> rows[i] == Row(log.proposals[i], StatusOf(log, log.proposals[i].id))
  {
    seq(|log.proposals|, i requires 0 <= i < |log.proposals| => Row(log.proposals[i], StatusOf(log, log.proposals[i].id)))
  }

  /** A proposal has the status of the last event about it, and is pending while there is none. */
  lemma {:induction false} LastEventCounts(events: seq<Event>, id: nat, n: nat, i: nat)
    requires n <= |events|
    ensures i < n && events[i].proposalId == id && (forall j :: i < j < n ==> events[j].proposalId != id) ==>
              StatusTo(events, id, n) == events[i].status
    ensures (forall j :: 0 <= j < n ==> events[j].proposalId != id) ==> StatusTo(events, id, n) == Pending
  {
    if n > 0 && events[n - 1].proposalId != id {
      LastEventCounts(events, id, n - 1, i);
    }
  }

  // ---- Locked sections ----

  function Decided(log: Log, id: nat, status: Status): Log {
    if Find(log.proposals, id, 0) < |log.proposals| && StatusOf(log, id) == Pending
    then log.(events := log.events + [Event(id, status)]) else log
  }

  function Updated(log: Log, id: nat, payload: Payload): Log {
    var i := Find(log.proposals, id, 0);
    if i < |log.proposals| && StatusOf(log, id) == Pending
    then log.(proposals := log.proposals[i := log.proposals[i].(payload := payload)]) else log
  }

  /** A payload is replaced, or a decision recorded, if and only if some proposal has the id and its status is pending: in
      the first such proposal, and by one event.  Nothing else of the log changes. */
  lemma FirstPendingIsEdited(log: Log, id: nat, payload: Payload, status: Status, k: nat)
    requires k <= |log.proposals| && forall j :: 0 <= j < k ==> log.proposals[j].id != id
    requires k < |log.proposals| ==> log.proposals[k].id == id
    ensures var found := k < |log.proposals| && StatusOf(log, id) == Pending;
            && Decided(log, id, status) == Log(log.proposals, if found then log.events + [Event(id, status)] else log.events)
            && |Updated(log, id, payload).proposals| == |log.proposals| && Updated(log, id, payload).events == log.events
            && (forall j :: 0 <= j < |log.proposals| && (j != k || !found) ==>
                  Updated(log, id, payload).proposals[j] == log.proposals[j])
            && (found ==> Updated(log, id, payload).proposals[k]
                          == Proposal(id, log.proposals[k].kind, log.proposals[k].curated, payload))
  {
    FoundAt(log.proposals, id, k, 0);
  }

  lemma {:induction false} FoundAt(ps: seq<Proposal>, id: nat, k: nat, n: nat)
    requires n <= k <= |ps| && (forall j :: n <= j < k ==> ps[j].id != id) && (k < |ps| ==> ps[k].id == id)
    ensures Find(ps, id, n) == k
    decreases k - n
  {
    if n < k {
      FoundAt(ps, id, k, n + 1);
    }
  }

  function Appended(log: Log, ps: seq<Proposal>): Log {
    log.(proposals := log.proposals + ps)
  }

  /** How an application of a proposal turns out: the proposal cannot be applied at all, or an event says how it went. */
  datatype Attempt = Unsupported | Succeeds | Fails

  datatype Decision = NoSuchProposal | Already(status: Status) | NotSupported | Now(status: Status)

  class ReviewProposalStore {
    var proposals: seq<Proposal>
    var events: seq<Event>

    function Contents(): Log
      reads this
    {
      Log(proposals, events)
    }

    method AppendMany(ps: seq<Proposal>) returns (n: nat)
      modifies this`proposals
      ensures Contents() == Appended(old(Contents()), ps) && n == |ps|
    {
      n := 0;
      for i := 0 to |ps|
        invariant proposals == old(proposals) + ps[..i]
      {
        proposals := proposals + [ps[i]];
      }
      n := |ps|;
    }

    /** _latest_events_unlocked */
    method LatestEvents() returns (latest: map<nat, Event>)
      ensures forall id :: (if id in latest then latest[id].status else Pending) == StatusOf(Contents(), id)
      ensures forall id :: id in latest ==> latest[id].proposalId == id && latest[id] in events
    {
      latest := map[];
      for i := 0 to |events|
        invariant forall id :: (if id in latest then latest[id].status else Pending) == StatusTo(events, id, i)
        invariant forall id :: id in latest ==> latest[id].proposalId == id && latest[id] in events
      {
        latest := latest[events[i].proposalId := events[i]];
      }
    }

    /** _merged_records_unlocked */
    method MergedRecords() returns (rows: seq<Row>)
      ensures rows == Listed(Contents())
    {
      var latest := LatestEvents();
      rows := [];
      for i := 0 to |proposals|
        invariant |rows| == i && rows == Listed(Contents())[..i]
      {
        var p := proposals[i];
        rows := rows + [Row(p, if p.id in latest then latest[p.id].status else Pending)];
      }
    }

    /** _find_unlocked */
    method FindRecord(id: nat) returns (found: Option<Row>)
      ensures var i := Find(proposals, id, 0);
              found == if i < |proposals| then Some(Row(proposals[i], StatusOf(Contents(), id))) else None
    {
      var rows := MergedRecords();
      for k := 0 to |rows|
        invariant Find(proposals, id, 0) == Find(proposals, id, k)
      {
        if rows[k].proposal.id == id {
          return Some(rows[k]);
        }
      }
      found := None;
    }

    method UpdatePayload(id: nat, payload: Payload) returns (updated: Option<Row>)
      modifies this`proposals
      ensures Contents() == Updated(old(Contents()), id, payload)
      ensures updated.Some? <==> Find(old(proposals), id, 0) < |old(proposals)| && StatusOf(old(Contents()), id) == Pending
    {
      var latest := LatestEvents();
      for k := 0 to |proposals|
        invariant proposals == old(proposals) && Find(proposals, id, 0) == Find(proposals, id, k)
      {
        if proposals[k].id == id {
          if id in latest && latest[id].status != Pending {
            return None;
          }
          proposals := proposals[k := proposals[k].(payload := payload)];
          updated := FindRecord(id);
          assert Find(proposals, id, 0) < |proposals| by { Occurs(proposals, id, k); }
          return;
        }
      }
      updated := None;
    }

    method Apply(id: nat, attempt: Attempt) returns (d: Decision)
      modifies this`events
      ensures attempt.Unsupported? ==> Contents() == old(Contents())
      ensures !attempt.Unsupported? ==>
                Contents() == Decided(old(Contents()), id, if attempt.Succeeds? then Applied else Failed)
      ensures d == if Find(proposals, id, 0) == |proposals| then NoSuchProposal
                   else if StatusOf(old(Contents()), id) != Pending then Already(StatusOf(old(Contents()), id))
                   else if attempt.Unsupported? then NotSupported
                   else Now(if attempt.Succeeds? then Applied else Failed)
    {
      var record := FindRecord(id);
      if record.None? {
        return NoSuchProposal;
      }
      if record.value.status != Pending {
        return Already(record.value.status);
      }
      if attempt.Unsupported? {
        return NotSupported;
      }
      var status := if attempt.Succeeds? then Applied else Failed;
      events := events + [Event(id, status)];
      d := Now(status);
    }

    /** reject and defer */
    method RecordTerminalDecision(id: nat, status: Status) returns (d: Decision)
      requires status == Rejected || status == Deferred
      modifies this`events
      ensures Contents() == Decided(old(Contents()), id, status)
      ensures d == if Find(proposals, id, 0) == |proposals| then NoSuchProposal
                   else if StatusOf(old(Contents()), id) != Pending then Already(StatusOf(old(Contents()), id))
                   else Now(status)
    {
      var record := FindRecord(id);
      if record.None? {
        return NoSuchProposal;
      }
      if record.value.status != Pending {
        return Already(record.value.status);
      }
      events := events + [Event(id, status)];
      d := Now(status);
    }
  }

  lemma {:induction false} Occurs(ps: seq<Proposal>, id: nat, k: nat)
    requires k < |ps| && ps[k].id == id
    ensures Find(ps, id, 0) <= k
  {
  }

  // ---- The curator's deduper ----

  type Topic = (string, string)
  type Triple = (string, string, string)

  /** str.lower on ASCII letters */
  function Lower(s: string): string {
    seq(|s|, i requires 0 <= i < |s| => if 'A' <= s[i] <= 'Z' then s[i] - 'A' + 'a' else s[i])
  }

  /** The proposal type, the curator key and the state hash as the deduper reads them. */
  function KindOf(p: Proposal): string {
    Lower(Strip(p.kind))
  }

  function KeyOf(p: Proposal): string {
    Strip(p.payload.curatorKey)
  }

  function HashOf(p: Proposal): string {
    Strip(p.payload.stateHash)
  }

  predicate Complete(p: Proposal) {
    KindOf(p) != "" && KeyOf(p) != "" && HashOf(p) != ""
  }

  function TopicOf(p: Proposal): Topic {
    (KindOf(p), KeyOf(p))
  }

  function TripleOf(p: Proposal): Triple {
    (KindOf(p), KeyOf(p), HashOf(p))
  }

  /** The same character, or two cases of one ASCII letter. */
  predicate SameLetter(a: char, b: char) {
    a == b || ('A' <= a <= 'Z' && b as int == a as int + 32) || ('A' <= b <= 'Z' && a as int == b as int + 32)
  }

  predicate SameText(a: string, b: string) {
    |a| == |b| && forall i :: 0 <= i < |a| ==> SameLetter(a[i], b[i])
  }

  lemma LowerCompares(a: string, b: string)
    ensures Lower(a) == Lower(b) <==> SameText(a, b)
  {
    if |a| == |b| {
      forall i | 0 <= i < |a| ensures Lower(a)[i] == Lower(b)[i] <==> SameLetter(a[i], b[i]) {
      }
    }
  }

  /** Two proposals are on one topic if and only if their types are the same but for case and surrounding blanks and their
      keys are but for surrounding blanks; and about one state if their hashes are too. */
  lemma TopicsCompare(p: Proposal, q: Proposal)
    ensures TopicOf(p) == TopicOf(q) <==>
            SameText(Strip(p.kind), Strip(q.kind)) && Strip(p.payload.curatorKey) == Strip(q.payload.curatorKey)
    ensures TripleOf(p) == TripleOf(q) <==>
            TopicOf(p) == TopicOf(q) && Strip(p.payload.stateHash) == Strip(q.payload.stateHash)
  {
    hide Strip, Lower;
    LowerCompares(Strip(p.kind), Strip(q.kind));
  }

  predicate Tracked(p: Proposal) {
    p.curated && KindOf(p) != "" && KeyOf(p) != ""
  }

  /** A pending record of the curator's is about this topic. */
  ghost predicate PendingTopic(rows: seq<Row>, t: Topic) {
    exists i :: 0 <= i < |rows| && Tracked(rows[i].proposal) && rows[i].status == Pending && TopicOf(rows[i].proposal) == t
  }

  /** A decided record of the curator's is about this topic in this state. */
  ghost predicate DecidedTriple(rows: seq<Row>, t: Triple) {
    exists i :: 0 <= i < |rows| && Tracked(rows[i].proposal) && rows[i].status != Pending
                && HashOf(rows[i].proposal) != "" && TripleOf(rows[i].proposal) == t
  }

  class ProposalDeduper {
    var pending: set<Topic>
    var terminal: set<Triple>

    constructor (rows: seq<Row>)
      ensures forall t :: t in pending <==> PendingTopic(rows, t)
      ensures forall t :: t in terminal <==> DecidedTriple(rows, t)
    {
      hide KindOf, KeyOf, HashOf;
      pending := {};
      terminal := {};
      new;
      for i := 0 to |rows|
        invariant forall t :: t in pending <==> PendingTopic(rows[..i], t)
        invariant forall t :: t in terminal <==> DecidedTriple(rows[..i], t)
      {
        var p := rows[i].proposal;
        assert rows[..i + 1] == rows[..i] + [rows[i]];
        PendingMore(rows[..i], rows[i]);
        DecidedMore(rows[..i], rows[i]);
        if p.curated && KindOf(p) != "" && KeyOf(p) != "" {
          if rows[i].status == Pending {
            pending := pending + {TopicOf(p)};
          } else if HashOf(p) != "" {
            terminal := terminal + {TripleOf(p)};
          }
        }
      }
      assert rows[..|rows|] == rows;
    }

    predicate ShouldAdd(p: Proposal)
      reads this
    {
      Complete(p) && TopicOf(p) !in pending && TripleOf(p) !in terminal
    }

    method Track(p: Proposal)
      modifies this`pending
      ensures pending == old(pending) + if KindOf(p) != "" && KeyOf(p) != "" then {TopicOf(p)} else {}
    {
      if KindOf(p) != "" && KeyOf(p) != "" {
        pending := pending + {TopicOf(p)};
      }
    }
  }

  lemma PendingMore(rows: seq<Row>, r: Row)
    ensures forall t :: PendingTopic(rows + [r], t)
                        <==> PendingTopic(rows, t) || (Tracked(r.proposal) && r.status == Pending && TopicOf(r.proposal) == t)
  {
    var more := rows + [r];
    assert more[|rows|] == r && forall i :: 0 <= i < |rows| ==> more[i] == rows[i];
    forall t | PendingTopic(rows, t) ensures PendingTopic(more, t) {
      var i :| 0 <= i < |rows| && Tracked(rows[i].proposal) && rows[i].status == Pending && TopicOf(rows[i].proposal) == t;
      assert more[i] == rows[i];
    }
  }

  lemma DecidedMore(rows: seq<Row>, r: Row)
    ensures forall t :: DecidedTriple(rows + [r], t)
                        <==> DecidedTriple(rows, t)
                             || (Tracked(r.proposal) && r.status != Pending && HashOf(r.proposal) != ""
                                 && TripleOf(r.proposal) == t)
  {
    var more := rows + [r];
    assert more[|rows|] == r && forall i :: 0 <= i < |rows| ==> more[i] == rows[i];
    forall t | DecidedTriple(rows, t) ensures DecidedTriple(more, t) {
      var i :| 0 <= i < |rows| && Tracked(rows[i].proposal) && rows[i].status != Pending
               && HashOf(rows[i].proposal) != "" && TripleOf(rows[i].proposal) == t;
      assert more[i] == rows[i];
    }
  }

  // ---- One curator run's proposals ----

  ghost predicate NewTopic(picked: seq<Proposal>, p: Proposal) {
    forall i :: 0 <= i < |picked| ==> TopicOf(picked[i]) != TopicOf(p)
  }

  ghost predicate Wanted(rows: seq<Row>, picked: seq<Proposal>, p: Proposal) {
    Complete(p) && !PendingTopic(rows, TopicOf(p)) && !DecidedTriple(rows, TripleOf(p)) && NewTopic(picked, p)
  }

  /** What is picked from the first `n` items. */
  ghost function Picks(rows: seq<Row>, items: seq<Proposal>, limit: nat, n: nat): (picked: seq<Proposal>)
    requires n <= |items|
    ensures |picked| <= limit
    ensures forall i :: 0 <= i < |picked| ==> picked[i] in items[..n]
  {
    if n == 0 then []
    else
      var picked := Picks(rows, items, limit, n - 1);
      assert forall q :: q in items[..n - 1] ==> q in items[..n];
      if |picked| < limit && Wanted(rows, picked, items[n - 1]) then picked + [items[n - 1]] else picked
  }

  lemma {:induction false} PicksPrefix(rows: seq<Row>, a: seq<Proposal>, b: seq<Proposal>, limit: nat, n: nat)
    requires n <= |a| <= |b| && a == b[..|a|]
    ensures Picks(rows, b, limit, n) == Picks(rows, a, limit, n)
  {
    hide Wanted;
    if n > 0 {
      PicksPrefix(rows, a, b, limit, n - 1);
      assert a[n - 1] == b[n - 1];
    }
  }

  lemma PicksNext(rows: seq<Row>, items: seq<Proposal>, limit: nat, n: nat)
    requires n < |items|
    ensures var picked := Picks(rows, items, limit, n);
            Picks(rows, items, limit, n + 1)
              == if |picked| < limit && Wanted(rows, picked, items[n]) then picked + [items[n]] else picked
  {
  }

  lemma {:induction false} PicksFull(rows: seq<Row>, items: seq<Proposal>, limit: nat, n: nat)
    requires n <= |items| && |Picks(rows, items, limit, n)| == limit
    ensures Picks(rows, items, limit, |items|) == Picks(rows, items, limit, n)
    decreases |items| - n
  {
    hide KindOf, KeyOf, HashOf;
    if n < |items| {
      assert Picks(rows, items, limit, n + 1) == Picks(rows, items, limit, n);
      PicksFull(rows, items, limit, n + 1);
    }
  }

  /** The deduper knows the rows and what was picked since. */
  ghost predicate Knows(d: ProposalDeduper, rows: seq<Row>, picked: seq<Proposal>)
    reads d
  {
    && (forall t :: t in d.pending <==> PendingTopic(rows, t) || exists i :: 0 <= i < |picked| && TopicOf(picked[i]) == t)
    && (forall t :: t in d.terminal <==> DecidedTriple(rows, t))
  }

  function Flat(groups: seq<seq<Proposal>>, n: nat): seq<Proposal>
    requires n <= |groups|
  {
    if n == 0 then [] else Flat(groups, n - 1) + groups[n - 1]
  }

  lemma {:induction false} FlatPrefix(groups: seq<seq<Proposal>>, n: nat)
    requires n <= |groups|
    ensures Flat(groups, n) <= Flat(groups, |groups|)
    decreases |groups| - n
  {
    if n < |groups| {
      FlatPrefix(groups, n + 1);
    }
  }

  function LimitOf(configured: int): nat {
    if configured == 0 then 12 else if configured < 1 then 1 else configured
  }

  /** The inner function add_all of _build_proposals; `done` are the items that were offered before. */
  method AddAll(d: ProposalDeduper, before: seq<Proposal>, items: seq<Proposal>, limit: nat,
                ghost rows: seq<Row>, ghost done: seq<Proposal>)
    returns (picked: seq<Proposal>)
    requires Knows(d, rows, before) && before == Picks(rows, done, limit, |done|)
    modifies d`pending
    ensures picked == Picks(rows, done + items, limit, |done + items|) && Knows(d, rows, picked)
  {
    hide PendingTopic, DecidedTriple, Wanted, Knows, Picks;
    picked := before;
    ghost var all := done + items;
    PicksPrefix(rows, done, all, limit, |done|);
    for i := 0 to |items|
      invariant picked == Picks(rows, all, limit, |done| + i) && Knows(d, rows, picked)
    {
      if |picked| >= limit {
        PicksFull(rows, all, limit, |done| + i);
        return;
      }
      assert all[|done| + i] == items[i];
      PicksNext(rows, all, limit, |done| + i);
      picked := Consider(d, picked, items[i], rows);
    }
  }

  method Consider(d: ProposalDeduper, before: seq<Proposal>, item: Proposal, ghost rows: seq<Row>) returns (picked: seq<Proposal>)
    requires Knows(d, rows, before)
    modifies d`pending
    ensures picked == (if Wanted(rows, before, item) then before + [item] else before) && Knows(d, rows, picked)
  {
    hide KindOf, KeyOf, HashOf;
    hide PendingTopic, DecidedTriple;
    picked := before;
    assert d.ShouldAdd(item) <==> Wanted(rows, before, item);
    if d.ShouldAdd(item) {
      picked := before + [item];
      d.Track(item);
      assert picked[|before|] == item && forall i :: 0 <= i < |before| ==> picked[i] == before[i];
    }
  }

  /** CuratorService._build_proposals, over the groups of items its analyses produce. */
  method BuildProposals(store: ReviewProposalStore, groups: seq<seq<Proposal>>, configured: int) returns (picked: seq<Proposal>)
    ensures var items := Flat(groups, |groups|);
            picked == Picks(Listed(store.Contents()), items, LimitOf(configured), |items|)
  {
    hide PendingTopic, DecidedTriple, Wanted, Listed;
    var limit := LimitOf(configured);
    var rows := store.MergedRecords();
    var d := new ProposalDeduper(rows);
    picked := [];
    for g := 0 to |groups|
      invariant picked == Picks(rows, Flat(groups, g), limit, |Flat(groups, g)|) && Knows(d, rows, picked) && fresh(d)
    {
      picked := AddAll(d, picked, groups[g], limit, rows, Flat(groups, g));
      if |picked| >= limit {
        ghost var done, items := Flat(groups, g + 1), Flat(groups, |groups|);
        FlatPrefix(groups, g + 1);
        PicksPrefix(rows, done, items, limit, |done|);
        PicksFull(rows, items, limit, |done|);
        return;
      }
    }
  }

  // ---- Histories ----

  datatype Step =
    | Decide(id: nat, status: Status)
    | Update(id: nat, payload: Payload)
    | AppendOthers(ps: seq<Proposal>)
    | StartRun(service: nat, groups: seq<seq<Proposal>>, configured: int)
    | FinishRun(service: nat)

  /** The log, and what each curator service with a run in progress has built and not yet appended. */
  datatype State = State(log: Log, drafts: map<nat, seq<Proposal>>)

  const EMPTY := State(Log([], []), map[])

  ghost function Take(s: State, step: Step): State {
    match step
    case Decide(id, status) => s.(log := Decided(s.log, id, status))
    case Update(id, payload) => s.(log := Updated(s.log, id, payload))
    case AppendOthers(ps) => s.(log := Appended(s.log, ps))
    case StartRun(service, groups, configured) =>
      var items := Flat(groups, |groups|);
      s.(drafts := s.drafts[service := Picks(Listed(s.log), items, LimitOf(configured), |items|)])
    case FinishRun(service) =>
      if service !in s.drafts then s else State(Appended(s.log, s.drafts[service]), s.drafts - {service})
  }

  ghost predicate Disjoint(ps: seq<Proposal>, qs: seq<Proposal>) {
    forall i, j :: 0 <= i < |ps| && 0 <= j < |qs| ==> ps[i].id != qs[j].id
  }

  ghost predicate UniqueIds(ps: seq<Proposal>) {
    forall i, j :: 0 <= i < j < |ps| ==> ps[i].id != ps[j].id
  }

  ghost predicate FreshIds(s: State, ps: seq<Proposal>) {
    && UniqueIds(ps) && Disjoint(ps, s.log.proposals)
    && forall service :: service in s.drafts ==> Disjoint(ps, s.drafts[service])
  }

  /** A service refuses a run while it has one; new ids are new; an update leaves a curated proposal's key and state hash
      alone. */
  ghost predicate Allowed(s: State, step: Step) {
    match step
    case Decide(_, status) => status != Pending
    case Update(id, payload) =>
      var i := Find(s.log.proposals, id, 0);
      i < |s.log.proposals| && s.log.proposals[i].curated ==>
        payload.curatorKey == s.log.proposals[i].payload.curatorKey && payload.stateHash == s.log.proposals[i].payload.stateHash
    case AppendOthers(ps) => FreshIds(s, ps) && forall i :: 0 <= i < |ps| ==> !ps[i].curated
    case StartRun(service, groups, _) =>
      var items := Flat(groups, |groups|);
      service !in s.drafts && FreshIds(s, items) && forall i :: 0 <= i < |items| ==> items[i].curated
    case FinishRun(_) => true
  }

  ghost predicate AllowedRun(s: State, steps: seq<Step>)
    decreases |steps|
  {
    steps == [] || (Allowed(s, steps[0]) && AllowedRun(Take(s, steps[0]), steps[1..]))
  }

  ghost function TakeAll(s: State, steps: seq<Step>): State
    decreases |steps|
  {
    if steps == [] then s else TakeAll(Take(s, steps[0]), steps[1..])
  }

  // ---- What every history keeps ----

  /** Every event is terminal, and no proposal has two. */
  ghost predicate OneEventEach(events: seq<Event>) {
    && (forall i :: 0 <= i < |events| ==> events[i].status != Pending)
    && (forall i, j :: 0 <= i < j < |events| ==> events[i].proposalId != events[j].proposalId)
  }

  ghost predicate Has(ps: seq<Proposal>, id: nat) {
    exists i :: 0 <= i < |ps| && ps[i].id == id
  }

  ghost predicate AllComplete(ps: seq<Proposal>) {
    forall i :: 0 <= i < |ps| ==> ps[i].curated ==> Complete(ps[i])
  }

  /** Unique ids, and one event at most for each proposal and for nothing else. */
  ghost predicate Sound(log: Log) {
    && UniqueIds(log.proposals) && OneEventEach(log.events) && AllComplete(log.proposals)
    && forall e :: 0 <= e < |log.events| ==> Has(log.proposals, log.events[e].proposalId)
  }

  /** Two of the curator's proposals on one topic differ in the state they are about, and are not both pending. */
  ghost predicate Apart(log: Log, p: Proposal, q: Proposal) {
    p.curated && q.curated && TopicOf(p) == TopicOf(q) ==>
      HashOf(p) != HashOf(q) && !(StatusOf(log, p.id) == Pending && StatusOf(log, q.id) == Pending)
  }

  ghost predicate NoRepeats(log: Log) {
    forall i, j :: 0 <= i < j < |log.proposals| ==> Apart(log, log.proposals[i], log.proposals[j])
  }

  /** A proposal that is not in the log yet would repeat nothing there. */
  ghost predicate Novel(log: Log, p: Proposal) {
    forall i :: 0 <= i < |log.proposals| ==>
      (log.proposals[i].curated && TopicOf(log.proposals[i]) == TopicOf(p) ==>
         StatusOf(log, log.proposals[i].id) != Pending && HashOf(log.proposals[i]) != HashOf(p))
  }

  ghost predicate AllNovel(log: Log, draft: seq<Proposal>) {
    forall i :: 0 <= i < |draft| ==> Novel(log, draft[i])
  }

  ghost predicate TopicsDiffer(picked: seq<Proposal>) {
    forall i, j :: 0 <= i < j < |picked| ==> TopicOf(picked[i]) != TopicOf(picked[j])
  }

  ghost predicate DraftOk(log: Log, draft: seq<Proposal>) {
    && (forall i :: 0 <= i < |draft| ==> draft[i].curated && Complete(draft[i]))
    && UniqueIds(draft) && TopicsDiffer(draft) && Disjoint(draft, log.proposals)
  }

  ghost predicate StateOk(s: State) {
    && Sound(s.log)
    && (forall service :: service in s.drafts ==> DraftOk(s.log, s.drafts[service]))
    && (forall a, b :: a in s.drafts && b in s.drafts && a != b ==> Disjoint(s.drafts[a], s.drafts[b]))
  }

  lemma {:induction false} StatusMeans(events: seq<Event>, id: nat, n: nat)
    requires n <= |events| && OneEventEach(events)
    ensures StatusTo(events, id, n) == Pending <==> forall i :: 0 <= i < n ==> events[i].proposalId != id
    ensures forall i :: 0 <= i < n && events[i].proposalId == id ==> StatusTo(events, id, n) == events[i].status
  {
    if n > 0 {
      StatusMeans(events, id, n - 1);
    }
  }

  lemma {:induction false} StatusPrefix(a: seq<Event>, b: seq<Event>, id: nat, n: nat)
    requires n <= |a| <= |b| && a == b[..|a|]
    ensures StatusTo(b, id, n) == StatusTo(a, id, n)
  {
    if n > 0 {
      StatusPrefix(a, b, id, n - 1);
      assert a[n - 1] == b[n - 1];
    }
  }

  /** One more event changes the status of its proposal alone. */
  lemma StatusAfter(log: Log, e: Event, id: nat)
    ensures StatusOf(log.(events := log.events + [e]), id) == if id == e.proposalId then e.status else StatusOf(log, id)
  {
    StatusPrefix(log.events, log.events + [e], id, |log.events|);
  }

  /** Only a curator's append adds to what the curator goes by: the other steps keep every statement about faces, and
      turn no decided proposal pending. */
  ghost predicate NothingReopened(log: Log, after: Log) {
    && |log.proposals| <= |after.proposals|
    && (forall i :: 0 <= i < |log.proposals| ==> SameFace(log.proposals[i], after.proposals[i]))
    && (forall i :: |log.proposals| <= i < |after.proposals| ==> !after.proposals[i].curated)
    && (forall id :: StatusOf(log, id) != Pending ==> StatusOf(after, id) != Pending)
  }

  /** Equal in all that the curator goes by. */
  ghost predicate SameFace(p: Proposal, q: Proposal) {
    && q.id == p.id && q.curated == p.curated
    && (p.curated ==> q.kind == p.kind && q.payload.curatorKey == p.payload.curatorKey && q.payload.stateHash == p.payload.stateHash)
  }

  lemma OthersReopenNothing(s: State, step: Step)
    requires StateOk(s) && Allowed(s, step) && !step.FinishRun?
    ensures NothingReopened(s.log, Take(s, step).log)
  {
    hide KindOf, KeyOf, HashOf;
    match step
    case Decide(id, status) =>
      forall q ensures StatusOf(s.log, q) != Pending ==> StatusOf(Decided(s.log, id, status), q) != Pending {
        StatusAfter(s.log, Event(id, status), q);
      }
    case Update(id, payload) =>
      assert forall q :: StatusOf(Updated(s.log, id, payload), q) == StatusOf(s.log, q);
    case AppendOthers(ps) =>
      assert forall q :: StatusOf(Appended(s.log, ps), q) == StatusOf(s.log, q);
    case StartRun(_, _, _) =>
  }

  lemma StillApart(log: Log, after: Log)
    requires NoRepeats(log) && NothingReopened(log, after)
    ensures NoRepeats(after)
  {
    hide Strip, Lower;
    hide StatusOf;
    forall i, j | 0 <= i < j < |after.proposals| ensures Apart(after, after.proposals[i], after.proposals[j]) {
      if j < |log.proposals| {
        assert Apart(log, log.proposals[i], log.proposals[j]);
        assert SameFace(log.proposals[i], after.proposals[i]) && SameFace(log.proposals[j], after.proposals[j]);
      }
    }
  }

  lemma StillNovel(log: Log, after: Log, draft: seq<Proposal>)
    requires AllNovel(log, draft) && NothingReopened(log, after)
    ensures AllNovel(after, draft)
  {
    hide Strip, Lower;
    hide StatusOf;
    forall k | 0 <= k < |draft| ensures Novel(after, draft[k]) {
      assert Novel(log, draft[k]);
      forall i | 0 <= i < |after.proposals| && after.proposals[i].curated && TopicOf(after.proposals[i]) == TopicOf(draft[k])
        ensures StatusOf(after, after.proposals[i].id) != Pending
        ensures HashOf(after.proposals[i]) != HashOf(draft[k])
      {
        if i < |log.proposals| { assert SameFace(log.proposals[i], after.proposals[i]); }
      }
    }
  }

  /** New ids have no events. */
  lemma NewIsPending(log: Log, id: nat)
    requires Sound(log) && forall i :: 0 <= i < |log.proposals| ==> log.proposals[i].id != id
    ensures StatusOf(log, id) == Pending
  {
    NoEvent(log.events, id, |log.events|);
  }

  lemma {:induction false} NoEvent(events: seq<Event>, id: nat, n: nat)
    requires n <= |events| && forall i :: 0 <= i < n ==> events[i].proposalId != id
    ensures StatusTo(events, id, n) == Pending
  {
    if n > 0 {
      NoEvent(events, id, n - 1);
    }
  }

  /** What a curator's append adds repeats something if and only if some pick is no longer novel. */
  lemma AppendRepeats(log: Log, draft: seq<Proposal>)
    requires Sound(log) && NoRepeats(log) && DraftOk(log, draft)
    ensures NoRepeats(Appended(log, draft)) <==> AllNovel(log, draft)
  {
    hide KindOf, KeyOf, HashOf;
    var after, n := Appended(log, draft), |log.proposals|;
    assert forall i :: 0 <= i < n ==> after.proposals[i] == log.proposals[i];
    assert forall k :: 0 <= k < |draft| ==> after.proposals[n + k] == draft[k];
    assert forall q :: StatusOf(after, q) == StatusOf(log, q);
    forall k | 0 <= k < |draft| ensures StatusOf(log, draft[k].id) == Pending {
      NewIsPending(log, draft[k].id);
    }
    hide StatusOf;
    if AllNovel(log, draft) {
      forall i, j | 0 <= i < j < |after.proposals| ensures Apart(after, after.proposals[i], after.proposals[j]) {
        if j < n {
          assert Apart(log, log.proposals[i], log.proposals[j]);
        } else if i < n {
          assert Novel(log, draft[j - n]);
        } else {
          assert TopicOf(draft[i - n]) != TopicOf(draft[j - n]);
        }
      }
    }
    if NoRepeats(after) {
      forall k | 0 <= k < |draft| ensures Novel(log, draft[k]) {
        forall i | 0 <= i < n && log.proposals[i].curated && TopicOf(log.proposals[i]) == TopicOf(draft[k])
          ensures StatusOf(log, log.proposals[i].id) != Pending && HashOf(log.proposals[i]) != HashOf(draft[k])
        {
          assert Apart(after, after.proposals[i], after.proposals[n + k]);
        }
      }
    }
  }

  lemma AppendSound(log: Log, ps: seq<Proposal>)
    requires Sound(log) && AllComplete(ps) && UniqueIds(ps) && Disjoint(ps, log.proposals)
    ensures Sound(Appended(log, ps))
  {
    hide Complete;
    var after, n := Appended(log, ps), |log.proposals|;
    assert forall i :: 0 <= i < n ==> after.proposals[i] == log.proposals[i];
    assert forall i :: n <= i < |after.proposals| ==> after.proposals[i] == ps[i - n];
    forall id | Has(log.proposals, id) ensures Has(after.proposals, id) {
      var i :| 0 <= i < n && log.proposals[i].id == id;
      assert after.proposals[i].id == id;
    }
  }

  ghost predicate AllNew(rows: seq<Row>, picked: seq<Proposal>) {
    forall i :: 0 <= i < |picked| ==>
      Complete(picked[i]) && !PendingTopic(rows, TopicOf(picked[i])) && !DecidedTriple(rows, TripleOf(picked[i]))
  }

  lemma {:induction false} PicksApart(rows: seq<Row>, items: seq<Proposal>, limit: nat, n: nat)
    requires n <= |items|
    ensures AllNew(rows, Picks(rows, items, limit, n)) && TopicsDiffer(Picks(rows, items, limit, n))
  {
    hide KindOf, KeyOf, HashOf;
    hide PendingTopic, DecidedTriple;
    if n > 0 {
      PicksApart(rows, items, limit, n - 1);
    }
  }

  lemma {:induction false} PicksIds(rows: seq<Row>, items: seq<Proposal>, limit: nat, n: nat)
    requires n <= |items| && UniqueIds(items)
    ensures UniqueIds(Picks(rows, items, limit, n))
  {
    hide Wanted;
    if n > 0 {
      PicksIds(rows, items, limit, n - 1);
      var picked := Picks(rows, items, limit, n - 1);
      forall i | 0 <= i < |picked| ensures picked[i].id != items[n - 1].id {
        var k :| 0 <= k < n - 1 && items[..n - 1][k] == picked[i];
      }
    }
  }

  /** What the deduper lets through repeats nothing in the log, and it lets through all that repeats nothing. */
  lemma WantedIsNovel(log: Log, p: Proposal)
    requires Complete(p)
    ensures !PendingTopic(Listed(log), TopicOf(p)) && !DecidedTriple(Listed(log), TripleOf(p)) <==> Novel(log, p)
  {
    hide KindOf, KeyOf, HashOf;
    var rows := Listed(log);
    assert forall i :: 0 <= i < |rows| ==> rows[i] == Row(log.proposals[i], StatusOf(log, log.proposals[i].id));
    if !PendingTopic(rows, TopicOf(p)) && !DecidedTriple(rows, TripleOf(p)) {
      forall i | 0 <= i < |log.proposals| && log.proposals[i].curated && TopicOf(log.proposals[i]) == TopicOf(p)
        ensures StatusOf(log, log.proposals[i].id) != Pending && HashOf(log.proposals[i]) != HashOf(p)
      {
        assert Tracked(rows[i].proposal);
      }
    }
  }

  /** The next item is picked exactly when the limit is not reached, it has a type, a key and a hash, and it repeats neither
      a pending topic or a state of the log nor the topic of an earlier pick. */
  lemma PickedExactly(log: Log, items: seq<Proposal>, configured: int, n: nat)
    requires n < |items|
    ensures var limit := if configured == 0 then 12 else if configured < 1 then 1 else configured;
            var picked, p := Picks(Listed(log), items, LimitOf(configured), n), items[n];
            var picks := |picked| < limit && KindOf(p) != "" && KeyOf(p) != "" && HashOf(p) != "" && Novel(log, p)
                         && forall i :: 0 <= i < |picked| ==> TopicOf(picked[i]) != TopicOf(p);
            Picks(Listed(log), items, LimitOf(configured), n + 1) == if picks then picked + [p] else picked
  {
    PicksNext(Listed(log), items, LimitOf(configured), n);
    if Complete(items[n]) {
      WantedIsNovel(log, items[n]);
    }
    hide Picks, PendingTopic, DecidedTriple, Novel, KindOf, KeyOf, HashOf;
  }

  /** A run's picks are a draft that was novel when the log was read. */
  lemma PicksDraft(s: State, groups: seq<seq<Proposal>>, limit: nat)
    requires Sound(s.log) && FreshIds(s, Flat(groups, |groups|))
    requires forall i :: 0 <= i < |Flat(groups, |groups|)| ==> Flat(groups, |groups|)[i].curated
    ensures var draft := Picks(Listed(s.log), Flat(groups, |groups|), limit, |Flat(groups, |groups|)|);
            && DraftOk(s.log, draft) && AllNovel(s.log, draft)
            && forall service :: service in s.drafts ==> Disjoint(draft, s.drafts[service])
  {
    hide KindOf, KeyOf, HashOf;
    var rows, items := Listed(s.log), Flat(groups, |groups|);
    var draft := Picks(rows, items, limit, |items|);
    PicksApart(rows, items, limit, |items|);
    PicksIds(rows, items, limit, |items|);
    hide Picks, Flat, Listed;
    forall i | 0 <= i < |draft| ensures draft[i].curated && Novel(s.log, draft[i]) {
      assert draft[i] in items[..|items|];
      var k :| 0 <= k < |items| && items[k] == draft[i];
      WantedIsNovel(s.log, draft[i]);
    }
    forall i, j | 0 <= i < |draft| && 0 <= j < |s.log.proposals| ensures draft[i].id != s.log.proposals[j].id {
      assert draft[i] in items[..|items|];
      var k :| 0 <= k < |items| && items[k] == draft[i];
    }
    forall service, i, j | service in s.drafts && 0 <= i < |draft| && 0 <= j < |s.drafts[service]|
      ensures draft[i].id != s.drafts[service][j].id
    {
      assert draft[i] in items[..|items|];
      var k :| 0 <= k < |items| && items[k] == draft[i];
      assert Disjoint(items, s.drafts[service]);
    }
  }

  lemma DecideSound(log: Log, id: nat, status: Status)
    requires Sound(log) && status != Pending
    ensures Sound(Decided(log, id, status))
  {
    hide Complete;
    if Decided(log, id, status) != log {
      StatusMeans(log.events, id, |log.events|);
      assert Has(log.proposals, id);
    }
  }

  lemma UpdateSound(s: State, id: nat, payload: Payload)
    requires Sound(s.log) && Allowed(s, Update(id, payload))
    ensures Sound(Updated(s.log, id, payload))
  {
    hide Strip, Lower;
    var log, after := s.log, Updated(s.log, id, payload);
    assert forall i :: 0 <= i < |log.proposals| ==> SameFace(log.proposals[i], after.proposals[i]);
    forall q | Has(log.proposals, q) ensures Has(after.proposals, q) {
      var i :| 0 <= i < |log.proposals| && log.proposals[i].id == q;
      assert SameFace(log.proposals[i], after.proposals[i]);
    }
  }

  lemma StepKeeps(s: State, step: Step)
    requires StateOk(s) && Allowed(s, step)
    ensures StateOk(Take(s, step))
  {
    hide KindOf, KeyOf, HashOf;
    match step
    case Decide(id, status) => DecideSound(s.log, id, status);
    case Update(id, payload) => UpdateSound(s, id, payload); OthersReopenNothing(s, step);
    case AppendOthers(ps) => AppendSound(s.log, ps);
    case StartRun(service, groups, configured) => PicksDraft(s, groups, LimitOf(configured));
    case FinishRun(service) =>
      if service in s.drafts {
        AppendSound(s.log, s.drafts[service]);
      }
  }

  lemma {:induction false} HistoryKeeps(s: State, steps: seq<Step>)
    requires StateOk(s) && AllowedRun(s, steps)
    ensures StateOk(TakeAll(s, steps))
    decreases |steps|
  {
    hide StateOk, Take, Allowed;
    if steps != [] {
      StepKeeps(s, steps[0]);
      HistoryKeeps(Take(s, steps[0]), steps[1..]);
    }
  }

  // ---- Main results ----

  /** Every append of a curator run adds only picks that are still novel then. */
  ghost predicate Timely(s: State, steps: seq<Step>)
    decreases |steps|
  {
    steps == [] || (
      && (steps[0].FinishRun? && steps[0].service in s.drafts ==> AllNovel(s.log, s.drafts[steps[0].service]))
      && Timely(Take(s, steps[0]), steps[1..]))
  }

  /** The log repeats nothing at any moment of the history. */
  ghost predicate NeverRepeats(s: State, steps: seq<Step>)
    decreases |steps|
  {
    NoRepeats(s.log) && (steps == [] || NeverRepeats(Take(s, steps[0]), steps[1..]))
  }

  lemma StepRepeats(s: State, step: Step)
    requires StateOk(s) && Allowed(s, step) && NoRepeats(s.log)
    ensures NoRepeats(Take(s, step).log)
            <==> (step.FinishRun? && step.service in s.drafts ==> AllNovel(s.log, s.drafts[step.service]))
  {
    if step.FinishRun? {
      if step.service in s.drafts {
        AppendRepeats(s.log, s.drafts[step.service]);
      }
    } else {
      OthersReopenNothing(s, step);
      StillApart(s.log, Take(s, step).log);
    }
  }

  lemma {:induction false} RepeatsIffLate(s: State, steps: seq<Step>)
    requires StateOk(s) && NoRepeats(s.log) && AllowedRun(s, steps)
    ensures NeverRepeats(s, steps) <==> Timely(s, steps)
    decreases |steps|
  {
    hide StateOk, Take, Allowed, NoRepeats, AllNovel;
    if steps != [] {
      StepKeeps(s, steps[0]);
      StepRepeats(s, steps[0]);
      if NoRepeats(Take(s, steps[0]).log) {
        RepeatsIffLate(Take(s, steps[0]), steps[1..]);
      }
    }
  }

  /** In any history of runs of any number of curator services on one log, mixed with decisions, updates and other
      proposals, two of the curator's proposals repeat each other at some moment if and only if some append adds a pick
      that was no longer novel. */
  lemma HistoryRepeats(steps: seq<Step>)
    requires AllowedRun(EMPTY, steps)
    ensures NeverRepeats(EMPTY, steps) <==> Timely(EMPTY, steps)
  {
    RepeatsIffLate(EMPTY, steps);
  }

  /** No run starts while another has not appended yet. */
  ghost predicate Solo(s: State, steps: seq<Step>)
    decreases |steps|
  {
    steps == [] || ((steps[0].StartRun? ==> s.drafts == map[]) && Solo(Take(s, steps[0]), steps[1..]))
  }

  ghost predicate SoloOk(s: State) {
    && (forall a, b :: a in s.drafts && b in s.drafts ==> a == b)
    && (forall a :: a in s.drafts ==> AllNovel(s.log, s.drafts[a]))
  }

  lemma SoloStep(s: State, step: Step)
    requires StateOk(s) && Allowed(s, step) && SoloOk(s) && (step.StartRun? ==> s.drafts == map[])
    ensures SoloOk(Take(s, step))
  {
    if step.StartRun? {
      PicksDraft(s, step.groups, LimitOf(step.configured));
    } else if !step.FinishRun? {
      OthersReopenNothing(s, step);
      forall a | a in s.drafts ensures AllNovel(Take(s, step).log, s.drafts[a]) {
        StillNovel(s.log, Take(s, step).log, s.drafts[a]);
      }
    } else if step.service !in s.drafts {
    } else {
      assert s.drafts - {step.service} == map[];
    }
  }

  lemma {:induction false} SoloIsTimely(s: State, steps: seq<Step>)
    requires StateOk(s) && SoloOk(s) && AllowedRun(s, steps) && Solo(s, steps)
    ensures Timely(s, steps)
    decreases |steps|
  {
    hide StateOk, Take, Allowed, AllNovel;
    if steps != [] {
      StepKeeps(s, steps[0]);
      SoloStep(s, steps[0]);
      SoloIsTimely(Take(s, steps[0]), steps[1..]);
    }
  }

  lemma {:induction false} NoRepeatsAtEnd(s: State, steps: seq<Step>)
    requires NeverRepeats(s, steps)
    ensures NoRepeats(TakeAll(s, steps).log)
    decreases |steps|
  {
    hide Take, NoRepeats;
    if steps != [] {
      NoRepeatsAtEnd(Take(s, steps[0]), steps[1..]);
    }
  }

  /** In any history of curator runs, one at a time, mixed with decisions, updates and other proposals: no proposal has
      two events and every event is terminal; and of the curator's proposals no two on one topic are pending together,
      and no two are about the same topic in the same state. */
  lemma CuratorNeverRepeats(steps: seq<Step>, i: nat, j: nat)
    requires AllowedRun(EMPTY, steps) && Solo(EMPTY, steps)
    ensures OneEventEach(TakeAll(EMPTY, steps).log.events)
    ensures var log := TakeAll(EMPTY, steps).log;
            i < |log.proposals| && j < |log.proposals| && i != j ==>
              log.proposals[i].id != log.proposals[j].id && Apart(log, log.proposals[i], log.proposals[j])
  {
    HistoryKeeps(EMPTY, steps);
    SoloIsTimely(EMPTY, steps);
    HistoryRepeats(steps);
    NoRepeatsAtEnd(EMPTY, steps);
    hide TakeAll;
    var log := TakeAll(EMPTY, steps).log;
    if i < |log.proposals| && j < |log.proposals| && i != j {
      assert Apart(log, log.proposals[i], log.proposals[j]) || j < i;
      assert Apart(log, log.proposals[j], log.proposals[i]) || i < j;
    }
  }

  /** A proposal at a place in the log, and its status. */
  ghost predicate Stands(log: Log, i: nat, p: Proposal, status: Status) {
    i < |log.proposals| && log.proposals[i] == p && StatusOf(log, p.id) == status
  }

  lemma DecidedStays(s: State, step: Step, i: nat, p: Proposal, status: Status)
    requires StateOk(s) && Allowed(s, step) && Stands(s.log, i, p, status) && status != Pending
    ensures Stands(Take(s, step).log, i, p, status)
  {
    match step
    case Decide(id, st) => StatusAfter(s.log, Event(id, st), p.id);
    case Update(id, payload) =>
      assert forall q :: StatusOf(Updated(s.log, id, payload), q) == StatusOf(s.log, q);
    case _ =>
      assert forall q, ps :: StatusOf(Appended(s.log, ps), q) == StatusOf(s.log, q);
  }

  /** Once a proposal is decided, its status and its payload never change again. */
  lemma {:induction false} DecidedForGood(s: State, steps: seq<Step>, i: nat, p: Proposal, status: Status)
    requires StateOk(s) && AllowedRun(s, steps) && Stands(s.log, i, p, status) && status != Pending
    ensures Stands(TakeAll(s, steps).log, i, p, status)
    decreases |steps|
  {
    hide StateOk, Take, Allowed, Stands;
    if steps != [] {
      StepKeeps(s, steps[0]);
      DecidedStays(s, steps[0], i, p, status);
      DecidedForGood(Take(s, steps[0]), steps[1..], i, p, status);
    }
  }

  // ---- What the conditions are for ----

  ghost function Overlapping(p: Proposal, q: Proposal): seq<Step> {
    [StartRun(0, [[p]], 12), StartRun(1, [[q]], 12), FinishRun(0), FinishRun(1)]
  }

  /** Two services on one log, whose runs both read it before either appends: on any log without repeats, a proposal that
      either of them alone would rightly make is then made twice. */
  lemma OverlappingRunsRepeat(log: Log, p: Proposal, q: Proposal)
    requires Sound(log) && NoRepeats(log) && p.curated && q == p.(id := q.id) && p.id != q.id
    requires Disjoint([p, q], log.proposals) && Wanted(Listed(log), [], p)
    ensures var s := State(log, map[]);
            && AllowedRun(s, Overlapping(p, q))
            && TakeAll(s, Overlapping(p, q)) == State(Appended(log, [p, q]), map[])
            && !Apart(Appended(log, [p, q]), p, q)
  {
    hide KindOf, KeyOf, HashOf;
    WantedToo(Listed(log), p, q);
    PicksOne(log, p);
    PicksOne(log, q);
    TwicePending(log, p, q);
    hide *;
    var steps := Overlapping(p, q);
    OverlapSteps(p, q);
    var one, two := map[0 := [p]], map[0 := [p], 1 := [q]];
    var s0, s1, s2 := State(log, map[]), State(log, one), State(log, two);
    var s3 := State(Appended(log, [p]), two - {0});
    StartTakes(log, map[], 0, p);
    StartTakes(log, one, 1, q);
    FinishTakes(log, two, 0);
    FinishTakes(Appended(log, [p]), two - {0}, 1);
    OverlapIds(log, p, q);
    FourSteps(s0, steps);
    assert map[][0 := [p]] == one && one[1 := [q]] == two;
    assert two[0] == [p] && (two - {0})[1] == [q] && two - {0} - {1} == map[];
    AppendTwice(log, p, q);
  }

  lemma OverlapSteps(p: Proposal, q: Proposal)
    ensures Overlapping(p, q) == [StartRun(0, [[p]], 12), StartRun(1, [[q]], 12), FinishRun(0), FinishRun(1)]
  {
  }

  lemma AppendTwice(log: Log, p: Proposal, q: Proposal)
    ensures Appended(Appended(log, [p]), [q]) == Appended(log, [p, q])
  {
    assert (log.proposals + [p]) + [q] == log.proposals + [p, q];
  }

  lemma StartTakes(log: Log, drafts: map<nat, seq<Proposal>>, service: nat, p: Proposal)
    requires Picks(Listed(log), [p], 12, 1) == [p]
    ensures Take(State(log, drafts), StartRun(service, [[p]], 12)) == State(log, drafts[service := [p]])
    ensures Allowed(State(log, drafts), StartRun(service, [[p]], 12))
            <==> service !in drafts && FreshIds(State(log, drafts), [p]) && p.curated
  {
    hide Picks, Flat, Listed, FreshIds;
    FlatOne(p);
    assert [p][0] == p;
  }

  lemma FinishTakes(log: Log, drafts: map<nat, seq<Proposal>>, service: nat)
    requires service in drafts
    ensures Take(State(log, drafts), FinishRun(service)) == State(Appended(log, drafts[service]), drafts - {service})
    ensures Allowed(State(log, drafts), FinishRun(service))
  {
  }

  lemma OverlapIds(log: Log, p: Proposal, q: Proposal)
    requires p.id != q.id && Disjoint([p, q], log.proposals)
    ensures FreshIds(State(log, map[]), [p]) && FreshIds(State(log, map[0 := [p]]), [q])
  {
    assert [p, q][0] == p && [p, q][1] == q;
  }

  lemma WantedToo(rows: seq<Row>, p: Proposal, q: Proposal)
    requires Wanted(rows, [], p) && q == p.(id := q.id)
    ensures Wanted(rows, [], q)
  {
    hide Strip, Lower;
    assert KindOf(q) == KindOf(p) && KeyOf(q) == KeyOf(p) && HashOf(q) == HashOf(p);
  }

  lemma FlatOne(p: Proposal)
    ensures Flat([[p]], 1) == [p]
  {
    assert [[p]][0] == [p] && Flat([[p]], 0) == [];
  }

  lemma TwicePending(log: Log, p: Proposal, q: Proposal)
    requires Sound(log) && Disjoint([p, q], log.proposals) && p.curated && q == p.(id := q.id)
    ensures !Apart(Appended(log, [p, q]), p, q)
  {
    assert [p, q][0] == p && [p, q][1] == q;
    NewIsPending(log, p.id);
    NewIsPending(log, q.id);
    assert forall x :: StatusOf(Appended(log, [p, q]), x) == StatusOf(log, x);
  }

  lemma FourSteps(s: State, steps: seq<Step>)
    requires |steps| == 4
    ensures var s2 := Take(Take(s, steps[0]), steps[1]);
            && TakeAll(s, steps) == Take(Take(s2, steps[2]), steps[3])
            && (AllowedRun(s, steps)
                <==> Allowed(s, steps[0]) && Allowed(Take(s, steps[0]), steps[1]) && Allowed(s2, steps[2])
                     && Allowed(Take(s2, steps[2]), steps[3]))
  {
    hide Take, Allowed;
    var s1 := Take(s, steps[0]);
    var s2 := Take(s1, steps[1]);
    var s3 := Take(s2, steps[2]);
    var rest1, rest2, rest3 := steps[1..], steps[1..][1..], steps[1..][1..][1..];
    assert rest1[0] == steps[1] && rest2[0] == steps[2] && rest3[0] == steps[3] && rest3[1..] == [];
    assert TakeAll(s, steps) == TakeAll(s1, rest1);
    assert TakeAll(s1, rest1) == TakeAll(s2, rest2);
    assert TakeAll(s2, rest2) == TakeAll(s3, rest3);
    assert AllowedRun(s, steps) <==> Allowed(s, steps[0]) && AllowedRun(s1, rest1);
    assert AllowedRun(s1, rest1) <==> Allowed(s1, steps[1]) && AllowedRun(s2, rest2);
    assert AllowedRun(s2, rest2) <==> Allowed(s2, steps[2]) && AllowedRun(s3, rest3);
  }

  lemma PicksOne(log: Log, p: Proposal)
    requires Wanted(Listed(log), [], p)
    ensures Picks(Listed(log), [p], 12, 1) == [p]
  {
    assert Picks(Listed(log), [p], 12, 0) == [];
  }

  /** An update that changes the state hash keeps the curator's proposals apart exactly when no other of them is about
      the same topic in the new state. */
  lemma UpdateMayRepeat(log: Log, k: nat, payload: Payload)
    requires Sound(log) && NoRepeats(log) && k < |log.proposals| && log.proposals[k].curated
    requires StatusOf(log, log.proposals[k].id) == Pending && payload.curatorKey == log.proposals[k].payload.curatorKey
    ensures var p := log.proposals[k];
            NoRepeats(Updated(log, p.id, payload)) <==>
              forall i :: 0 <= i < |log.proposals| && i != k && log.proposals[i].curated ==>
                TripleOf(log.proposals[i]) != TripleOf(p.(payload := payload))
  {
    hide Strip, Lower;
    var p := log.proposals[k];
    Occurs(log.proposals, p.id, k);
    var after := Updated(log, p.id, payload);
    assert Find(log.proposals, p.id, 0) == k;
    var q := p.(payload := payload);
    assert after.proposals == log.proposals[k := q];
    assert forall x :: StatusOf(after, x) == StatusOf(log, x);
    hide StatusOf, Find;
    forall i | 0 <= i < |log.proposals| && i != k
      ensures Apart(after, after.proposals[i], q) <==> (log.proposals[i].curated ==> TripleOf(log.proposals[i]) != TripleOf(q))
      ensures Apart(after, q, after.proposals[i]) <==> Apart(after, after.proposals[i], q)
    {
      assert after.proposals[i] == log.proposals[i] && after.proposals[k] == q;
      assert Apart(log, log.proposals[i], p) || k < i;
      assert Apart(log, p, log.proposals[i]) || i < k;
    }
    forall i, j | 0 <= i < j < |log.proposals| && i != k && j != k ensures Apart(after, after.proposals[i], after.proposals[j]) {
      assert Apart(log, log.proposals[i], log.proposals[j]);
    }
    if NoRepeats(after) {
      forall i | 0 <= i < |log.proposals| && i != k && log.proposals[i].curated ensures TripleOf(log.proposals[i]) != TripleOf(q) {
        if i < k {
          assert Apart(after, after.proposals[i], after.proposals[k]);
        } else {
          assert Apart(after, after.proposals[k], after.proposals[i]);
        }
      }
    }
  }
}
