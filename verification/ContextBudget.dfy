/** Fitting a prompt into its token budget: history first, then recent-history blocks, retrieval blocks, and profile and
    archived-summary blocks of the current user message. */
module ContextBudget {
  import opened Actions

  datatype Role = System | User | Assistant | Tool

  datatype Block = Block(kind: string, source: string, body: string)

  /** The `content` of a message: a list of blocks, or anything else. */
  datatype Content = Plain(text: string) | Blocks(blocks: seq<Block>)

  /** The rest of a message: the ids of its tool calls, or the call a tool result answers ("" when missing). */
  datatype Info = Info(role: Role, calls: set<string>, callId: string)

  datatype View = View(info: Info, content: Content)

  class Message {
    const info: Info
    var content: Content

    constructor (i: Info, c: Content)
      ensures info == i && content == c
    {
      info := i;
      content := c;
    }

    function Value(): View
      reads this
    {
      View(info, content)
    }
  }

  function Values(ms: seq<Message>): (vs: seq<View>)
    reads ms
    ensures |vs| == |ms| && forall i :: 0 <= i < |ms| ==> vs[i] == ms[i].Value()
  {
    seq(|ms|, i requires 0 <= i < |ms| reads ms => ms[i].Value())
  }

  lemma ValuesSplit(ms: seq<Message>, i: nat)
    requires i <= |ms|
    ensures Values(ms[..i]) == Values(ms)[..i] && Values(ms[i..]) == Values(ms)[i..]
  {
  }

  lemma ValuesJoin(a: seq<Message>, b: seq<Message>, c: seq<Message>)
    ensures Values(a + b + c) == Values(a) + Values(b) + Values(c)
  {
  }

  ghost predicate Distinct(ms: seq<Message>) {
    forall i, j :: 0 <= i < j < |ms| ==> ms[i] != ms[j]
  }

  // ---- Estimates ----

  function Sum(est: View -> nat, vs: seq<View>): nat {
    if vs == [] then 0 else est(vs[0]) + Sum(est, vs[1..])
  }

  lemma {:induction false} SumConcat(est: View -> nat, a: seq<View>, b: seq<View>)
    ensures Sum(est, a + b) == Sum(est, a) + Sum(est, b)
  {
    if a == [] {
      assert a + b == b;
    } else {
      assert (a + b)[1..] == a[1..] + b;
      SumConcat(est, a[1..], b);
    }
  }

  function With(vs: seq<View>, i: nat, c: Content): (r: seq<View>)
    requires i < |vs|
    ensures |r| == |vs|
  {
    vs[i := View(vs[i].info, c)]
  }

  // ---- Tool results need their calls ----

  /** The tool result at `k` answers no call made since `s`. */
  ghost predicate Orphan(vs: seq<View>, s: nat, k: nat) {
    && s <= k < |vs| && vs[k].info.role == Tool && vs[k].info.callId != ""
    && forall j :: s <= j < k && vs[j].info.role == Assistant ==> vs[k].info.callId !in vs[j].info.calls
  }

  ghost predicate Legal(vs: seq<View>, s: nat) {
    s <= |vs| && forall k: nat :: !Orphan(vs, s, k)
  }

  ghost predicate LeastLegal(vs: seq<View>, s: nat) {
    Legal(vs, s) && forall r: nat :: r < s ==> !Legal(vs, r)
  }

  /** find_legal_message_start: the earliest start from which every tool result has its call. */
  method FindLegalMessageStart(vs: seq<View>) returns (start: nat)
    ensures start <= |vs| && LeastLegal(vs, start)
  {
    var declared: set<string> := {};
    start := 0;
    for i := 0 to |vs|
      invariant start <= i
      invariant forall id :: id in declared <==>
                  exists j :: start <= j < i && vs[j].info.role == Assistant && id in vs[j].info.calls
      invariant forall k :: start <= k < i ==> !Orphan(vs, start, k)
      invariant forall r: nat :: r < start ==> !Legal(vs, r)
    {
      var info := vs[i].info;
      if info.role == Assistant {
        declared := declared + info.calls;
      } else if info.role == Tool && info.callId != "" && info.callId !in declared {
        forall r: nat | start <= r <= i ensures !Legal(vs, r) {
          assert Orphan(vs, r, i);
        }
        start := i + 1;
        declared := {};
      }
    }
  }

  ghost function FirstLegal(vs: seq<View>, s: nat): nat
    requires s <= |vs|
    decreases |vs| - s
  {
    if s == |vs| || Legal(vs, s) then s else FirstLegal(vs, s + 1)
  }

  lemma {:induction false} FirstIsLeast(vs: seq<View>, s: nat, r: nat)
    requires s <= r && LeastLegal(vs, r)
    ensures FirstLegal(vs, s) == r
    decreases r - s
  {
    if s < r {
      FirstIsLeast(vs, s + 1, r);
    }
  }

  lemma {:induction false} FirstIsLegal(vs: seq<View>, s: nat)
    requires s <= |vs|
    ensures Legal(vs, FirstLegal(vs, s))
    decreases |vs| - s
  {
    if s < |vs| && !Legal(vs, s) {
      FirstIsLegal(vs, s + 1);
    }
  }

  // ---- History ----

  function PickMessages(ms: seq<Message>, system: bool): (r: seq<Message>)
    ensures |r| <= |ms|
  {
    if ms == [] then []
    else (if (ms[0].info.role == System) == system then [ms[0]] else []) + PickMessages(ms[1..], system)
  }

  function PickViews(vs: seq<View>, system: bool): seq<View> {
    if vs == [] then []
    else (if (vs[0].info.role == System) == system then [vs[0]] else []) + PickViews(vs[1..], system)
  }

  lemma {:induction false} PickValues(ms: seq<Message>, system: bool)
    ensures Values(PickMessages(ms, system)) == PickViews(Values(ms), system)
  {
    if ms != [] {
      assert Values(ms)[1..] == Values(ms[1..]);
      PickValues(ms[1..], system);
      var rest := PickMessages(ms[1..], system);
      assert Values([ms[0]] + rest) == [ms[0].Value()] + Values(rest);
      assert Values([] + rest) == Values(rest);
    }
  }

  lemma {:induction false} PickCounts(ms: seq<Message>)
    ensures |PickMessages(ms, true)| + |PickMessages(ms, false)| == |ms|
  {
    if ms != [] {
      PickCounts(ms[1..]);
    }
  }

  lemma {:induction false} PickFrom(ms: seq<Message>, system: bool)
    ensures forall m :: m in PickMessages(ms, system) ==> m in ms && (m.info.role == System) == system
  {
    if ms != [] {
      PickFrom(ms[1..], system);
    }
  }

  lemma {:induction false} PickDistinct(ms: seq<Message>, system: bool)
    requires Distinct(ms)
    ensures Distinct(PickMessages(ms, system))
  {
    if ms != [] {
      var rest := PickMessages(ms[1..], system);
      PickDistinct(ms[1..], system);
      PickFrom(ms[1..], system);
      forall j | 0 <= j < |rest| ensures rest[j] != ms[0] {
        assert rest[j] in ms[1..];
      }
    }
  }

  /** Where the kept history starts: going back from the end, at least one message, and more while they fit. */
  function FitFrom(est: View -> nat, history: seq<View>, room: nat, k: nat): (r: nat)
    requires k <= |history|
    ensures r <= k
    decreases k
  {
    if k > 0 && (k == |history| || Sum(est, history[k - 1..]) <= room) then FitFrom(est, history, room, k - 1) else k
  }

  ghost function KeptHistory(est: View -> nat, history: seq<View>, room: nat): seq<View> {
    var recent := history[FitFrom(est, history, room, |history|)..];
    FirstIsLegal(recent, 0);
    recent[FirstLegal(recent, 0)..]
  }

  lemma {:induction false} FitFacts(est: View -> nat, history: seq<View>, room: nat, k: nat)
    requires k <= |history| && (k >= |history| - 1 || Sum(est, history[k..]) <= room)
    ensures var r := FitFrom(est, history, room, k);
            && (r >= |history| - 1 || Sum(est, history[r..]) <= room)
            && (r > 0 ==> r < |history| && Sum(est, history[r - 1..]) > room)
    decreases k
  {
    if k > 0 && (k == |history| || Sum(est, history[k - 1..]) <= room) {
      FitFacts(est, history, room, k - 1);
    }
  }

  lemma SuffixSum(est: View -> nat, vs: seq<View>, i: nat)
    requires i <= |vs|
    ensures Sum(est, vs[i..]) <= Sum(est, vs)
  {
    SumConcat(est, vs[..i], vs[i..]);
    assert vs == vs[..i] + vs[i..];
  }

  /** The history that is kept is a suffix whose tool results all have their calls; it fits the room left for history
      unless it is at most one message; and apart from the cut to a legal start it is the longest that fits. */
  lemma HistoryFits(est: View -> nat, history: seq<View>, room: nat)
    ensures var start := FitFrom(est, history, room, |history|);
            var kept := KeptHistory(est, history, room);
            && |kept| <= |history| - start && kept == history[|history| - |kept|..]
            && Legal(kept, 0)
            && (Sum(est, kept) <= room || |kept| <= 1)
            && (forall j :: 0 <= j < start ==> Sum(est, history[j..]) > room)
            && (history != [] ==> start < |history|)
  {
    hide Legal, Sum;
    var start := FitFrom(est, history, room, |history|);
    FitFacts(est, history, room, |history|);
    var recent := history[start..];
    FirstIsLegal(recent, 0);
    var cut := FirstLegal(recent, 0);
    SuffixSum(est, recent, cut);
    LegalAlone(recent, cut);
    forall j | 0 <= j < start ensures Sum(est, history[j..]) > room {
      SuffixSum(est, history[j..], start - 1 - j);
      assert history[j..][start - 1 - j..] == history[start - 1..];
    }
  }

  lemma LegalAlone(vs: seq<View>, cut: nat)
    requires Legal(vs, cut)
    ensures Legal(vs[cut..], 0)
  {
    hide Orphan;
    forall k: nat ensures !Orphan(vs[cut..], 0, k) {
      if Orphan(vs[cut..], 0, k) {
        OrphanShifts(vs, cut, k);
      }
    }
  }

  lemma OrphanShifts(vs: seq<View>, cut: nat, k: nat)
    requires cut <= |vs| && Orphan(vs[cut..], 0, k)
    ensures Orphan(vs, cut, cut + k)
  {
    assert vs[cut..][k] == vs[cut + k];
    forall j | cut <= j < cut + k && vs[j].info.role == Assistant ensures vs[cut + k].info.callId !in vs[j].info.calls {
      assert vs[cut..][j - cut] == vs[j];
    }
  }

  function Room(est: View -> nat, vs: seq<View>, current: nat, budget: int): nat
    requires current < |vs|
  {
    var reserved := Sum(est, PickViews(vs[..current], true) + [vs[current]] + vs[current + 1..]);
    if budget > reserved then budget - reserved else 0
  }

  /** What history may not use: the estimates of the first `n` messages, but for the history before the current one. */
  function Reserved(est: View -> nat, vs: seq<View>, current: nat, n: nat): nat
    requires n <= |vs|
  {
    if n == 0 then 0
    else Reserved(est, vs, current, n - 1) + if n - 1 < current && vs[n - 1].info.role != System then 0 else est(vs[n - 1])
  }

  lemma {:induction false} ReservedAhead(est: View -> nat, vs: seq<View>, current: nat, n: nat)
    requires n <= current <= |vs|
    ensures Sum(est, PickViews(vs[..n], true)) == Reserved(est, vs, current, n)
  {
    if n == 0 {
      assert vs[..0] == [];
    } else {
      ReservedAhead(est, vs, current, n - 1);
      assert vs[..n] == vs[..n - 1] + [vs[n - 1]];
      PickSnoc(vs[..n - 1], vs[n - 1]);
      var picked := PickViews(vs[..n - 1], true);
      SumConcat(est, picked, [vs[n - 1]]);
      assert [vs[n - 1]][1..] == [] && picked + [] == picked;
    }
  }

  lemma {:induction false} PickSnoc(vs: seq<View>, v: View)
    ensures PickViews(vs + [v], true) == PickViews(vs, true) + if v.info.role == System then [v] else []
  {
    if vs == [] {
      assert [v][1..] == [] && [] + [v] == [v];
    } else {
      assert (vs + [v])[1..] == vs[1..] + [v];
      PickSnoc(vs[1..], v);
    }
  }

  lemma {:induction false} ReservedBehind(est: View -> nat, vs: seq<View>, current: nat, n: nat)
    requires current <= n <= |vs|
    ensures Reserved(est, vs, current, n) == Reserved(est, vs, current, current) + Sum(est, vs[current..n])
  {
    if n == current {
      assert vs[current..n] == [];
    } else {
      ReservedBehind(est, vs, current, n - 1);
      assert vs[current..n] == vs[current..n - 1] + [vs[n - 1]];
      SumConcat(est, vs[current..n - 1], [vs[n - 1]]);
      assert [vs[n - 1]][1..] == [];
    }
  }

  /** The share of history is what the budget leaves beside every other message: the system messages before the current
      one, that one, and all after it. */
  lemma RoomIsTheRest(est: View -> nat, vs: seq<View>, current: nat, budget: int)
    requires current < |vs|
    ensures Room(est, vs, current, budget) == if budget > Reserved(est, vs, current, |vs|)
                                              then budget - Reserved(est, vs, current, |vs|) else 0
  {
    var systems := PickViews(vs[..current], true);
    ReservedAhead(est, vs, current, current);
    ReservedBehind(est, vs, current, |vs|);
    assert vs[current..] == [vs[current]] + vs[current + 1..] && vs[current..|vs|] == vs[current..];
    assert systems + [vs[current]] + vs[current + 1..] == systems + vs[current..];
    SumConcat(est, systems, vs[current..]);
  }

  /** _trim_history */
  ghost function TrimmedHistory(est: View -> nat, vs: seq<View>, current: nat, budget: int): seq<View>
    requires current < |vs|
  {
    var history := PickViews(vs[..current], false);
    if history == [] then vs
    else PickViews(vs[..current], true) + KeptHistory(est, history, Room(est, vs, current, budget)) + vs[current..]
  }

  /** The loop of _trim_history, over the history from its end. */
  method FitHistory(est: View -> nat, vs: seq<View>, room: nat) returns (k: nat)
    ensures k == FitFrom(est, vs, room, |vs|)
  {
    k := |vs|;
    var used := 0;
    while k > 0 && (k == |vs| || used + est(vs[k - 1]) <= room)
      invariant k <= |vs| && used == Sum(est, vs[k..])
      invariant FitFrom(est, vs, room, k) == FitFrom(est, vs, room, |vs|)
    {
      assert vs[k - 1..][1..] == vs[k..];
      used := used + est(vs[k - 1]);
      k := k - 1;
    }
    assert k > 0 ==> vs[k - 1..][1..] == vs[k..];
  }

  lemma TrimmedParts(est: View -> nat, vs: seq<View>, current: nat, budget: int, k: nat, start: nat)
    requires current < |vs| && PickViews(vs[..current], false) != []
    requires var history := PickViews(vs[..current], false);
             && k == FitFrom(est, history, Room(est, vs, current, budget), |history|)
             && start <= |history[k..]| && LeastLegal(history[k..], start)
    ensures TrimmedHistory(est, vs, current, budget)
            == PickViews(vs[..current], true) + PickViews(vs[..current], false)[k..][start..] + vs[current..]
  {
    hide LeastLegal;
    FirstIsLeast(PickViews(vs[..current], false)[k..], 0, start);
  }

  method TrimHistory(est: View -> nat, ms: seq<Message>, current: nat, budget: int)
    returns (out: seq<Message>, removed: nat)
    requires current < |ms| && Distinct(ms)
    ensures Values(out) == TrimmedHistory(est, Values(ms), current, budget)
    ensures Distinct(out) && (forall m :: m in out ==> m in ms)
    ensures removed == |ms| - |out| && out[|out| - (|ms| - current)..] == ms[current..]
  {
    hide Sum, LeastLegal, FitFrom, FirstLegal, PickMessages, PickViews, Distinct, Values, Room, KeptHistory;
    var system, history := PickMessages(ms[..current], true), PickMessages(ms[..current], false);
    ValuesSplit(ms, current);
    PickValues(ms[..current], true);
    assert Values(system) == PickViews(Values(ms)[..current], true);
    PickValues(ms[..current], false);
    if history == [] {
      assert TrimmedHistory(est, Values(ms), current, budget) == Values(ms);
      return ms, 0;
    }
    hide TrimmedHistory;
    var k := FitHistory(est, Values(history), Room(est, Values(ms), current, budget));
    var kept := history[k..];
    ValuesSplit(history, k);
    var start := FindLegalMessageStart(Values(kept));
    TrimmedParts(est, Values(ms), current, budget, k, start);
    KeptDistinct(ms, current, k + start);
    assert history[k + start..] == kept[start..];
    ValuesSplit(kept, start);
    kept := kept[start..];
    out := system + kept + ms[current..];
    removed := |history| - |kept|;
    ValuesJoin(system, kept, ms[current..]);
  }

  lemma KeptDistinct(ms: seq<Message>, current: nat, from: nat)
    requires current < |ms| && Distinct(ms)
    requires from <= |PickMessages(ms[..current], false)|
    ensures var out := PickMessages(ms[..current], true) + PickMessages(ms[..current], false)[from..] + ms[current..];
            Distinct(out) && (forall m :: m in out ==> m in ms) && |ms| - |out| == from
  {
    var before, after := ms[..current], ms[current..];
    var system, history := PickMessages(before, true), PickMessages(before, false);
    PickCounts(before);
    PickFrom(before, true);
    PickFrom(before, false);
    PickDistinct(before, true);
    PickDistinct(before, false);
    var kept := history[from..];
    hide PickMessages;
    assert forall m :: m in kept ==> m in history;
    forall m | m in before ensures m !in after {
      var i :| 0 <= i < |before| && before[i] == m;
    }
    DistinctConcat(system, kept);
    DistinctConcat(system + kept, after);
  }

  lemma DistinctConcat(a: seq<Message>, b: seq<Message>)
    requires Distinct(a) && Distinct(b) && forall m :: m in a ==> m !in b
    ensures Distinct(a + b)
  {
    forall i, j | 0 <= i < j < |a + b| ensures (a + b)[i] != (a + b)[j] {
      if i < |a| { assert a[i] in a; }
    }
  }

  // ---- Blocks of the current user message ----

  datatype Tier = RecentHistory | Retrieval | Continuity

  /** What the three stages look for, by `_block_kind` and `_block_source`. */
  function TierOf(b: Block): Option<Tier> {
    if b.source == "recent_history" then Some(RecentHistory)
    else if b.kind != "reference_context" then None
    else if b.source == "user_profile" || b.source == "archived_session_summary" then Some(Continuity)
    else Some(Retrieval)
  }

  /** Which blocks each stage may take: those from the recent history, then all other reference blocks but the profile and
      the archived summary, then these two; no other block is ever taken. */
  lemma TierMeans(b: Block)
    ensures TierOf(b) == Some(RecentHistory) <==> b.source == "recent_history"
    ensures TierOf(b) == Some(Retrieval) <==>
            b.kind == "reference_context" && b.source != "recent_history" && b.source != "user_profile"
            && b.source != "archived_session_summary"
    ensures TierOf(b) == Some(Continuity) <==>
            b.kind == "reference_context" && (b.source == "user_profile" || b.source == "archived_session_summary")
  {
    assert "user_profile" != "recent_history" && "archived_session_summary" != "recent_history";
  }

  function WithoutTo(blocks: seq<Block>, tier: Tier, n: nat): (r: seq<Block>)
    requires n <= |blocks|
    ensures |r| <= n
  {
    if n == 0 then []
    else if TierOf(blocks[n - 1]) == Some(tier) then WithoutTo(blocks, tier, n - 1)
    else WithoutTo(blocks, tier, n - 1) + [blocks[n - 1]]
  }

  function Without(blocks: seq<Block>, tier: Tier): (r: seq<Block>)
    ensures |r| <= |blocks|
  {
    WithoutTo(blocks, tier, |blocks|)
  }

  /** The positions of the blocks of a tier among the first `n`. */
  function Removable(blocks: seq<Block>, tier: Tier, n: nat): (r: seq<nat>)
    requires n <= |blocks|
    ensures |r| <= n && forall i :: 0 <= i < |r| ==> i <= r[i] < n - (|r| - 1 - i)
    ensures forall i :: 0 <= i < |r| ==> TierOf(blocks[r[i]]) == Some(tier)
  {
    if n == 0 then []
    else if TierOf(blocks[n - 1]) != Some(tier) then Removable(blocks, tier, n - 1)
    else Removable(blocks, tier, n - 1) + [n - 1]
  }

  function Popped(kept: seq<Block>, i: nat): seq<Block>
    requires i < |kept|
  {
    kept[..i] + kept[i + 1..]
  }

  /** One stage, as the code does it: pop removable blocks from the last on, writing the content of the last message
      after each, until the estimate fits. */
  function DropFrom(est: View -> nat, vs: seq<View>, kept: seq<Block>, budget: int, removable: seq<nat>): (r: (seq<View>, seq<Block>))
    requires vs != [] && forall i :: 0 <= i < |removable| ==> removable[i] < |kept| - (|removable| - 1 - i)
    ensures |r.0| == |vs|
    decreases |removable|
  {
    if removable == [] || Sum(est, vs) <= budget then (vs, kept)
    else
      var popped := Popped(kept, removable[|removable| - 1]);
      DropFrom(est, With(vs, |vs| - 1, Blocks(popped)), popped, budget, removable[..|removable| - 1])
  }

  function DropTier(est: View -> nat, vs: seq<View>, content: seq<Block>, budget: int, tier: Tier): (r: (seq<View>, seq<Block>))
    requires vs != []
    ensures |r.0| == |vs|
  {
    DropFrom(est, vs, content, budget, Removable(content, tier, |content|))
  }

  lemma RecentTier(b: Block)
    ensures TierOf(b) == Some(RecentHistory) <==> b.source == "recent_history"
  {
  }

  /** _drop_recent_history_blocks: the estimate never changes inside the loop. */
  method DropRecentHistoryBlocks(est: View -> nat, content: seq<Block>, budget: int, ms: seq<Message>)
    returns (kept: seq<Block>, removed: nat)
    ensures kept == if Sum(est, Values(ms)) <= budget then content else Without(content, RecentHistory)
    ensures removed == |content| - |kept|
  {
    hide Sum, Values, TierOf;
    kept, removed := [], 0;
    for i := 0 to |content|
      invariant Sum(est, Values(ms)) <= budget ==> kept == content[..i]
      invariant Sum(est, Values(ms)) > budget ==> kept == WithoutTo(content, RecentHistory, i)
      invariant removed == i - |kept|
    {
      RecentTier(content[i]);
      if Sum(est, Values(ms)) > budget && content[i].source == "recent_history" {
        removed := removed + 1;
      } else {
        kept := kept + [content[i]];
      }
    }
  }

  lemma ValuesWith(ms: seq<Message>, before: seq<View>, i: nat, c: Content)
    requires i < |ms| && |before| == |ms| && ms[i].content == c && ms[i].info == before[i].info
    requires forall j :: 0 <= j < |ms| && j != i ==> ms[j].Value() == before[j]
    ensures Values(ms) == With(before, i, c)
  {
  }

  method SetContent(ms: seq<Message>, i: nat, c: Content)
    requires i < |ms| && Distinct(ms)
    modifies ms[i]
    ensures Values(ms) == With(old(Values(ms)), i, c)
  {
    ms[i].content := c;
    ValuesWith(ms, old(Values(ms)), i, c);
  }

  /** _drop_retrieval_blocks and _drop_continuity_reference_blocks, which differ in the tier alone. */
  method DropBlocks(est: View -> nat, content: seq<Block>, budget: int, ms: seq<Message>, tier: Tier)
    returns (kept: seq<Block>, removed: nat)
    requires ms != [] && Distinct(ms)
    modifies ms[|ms| - 1]
    ensures (Values(ms), kept) == DropTier(est, old(Values(ms)), content, budget, tier)
    ensures removed == |content| - |kept|
  {
    hide Sum, Removable, TierOf, Values, Distinct, Without;
    var removable := Removable(content, tier, |content|);
    kept, removed := content, 0;
    var j := |removable|;
    assert removable[..j] == removable;
    while j > 0 && Sum(est, Values(ms)) > budget
      invariant 0 <= j <= |removable| && |kept| == |content| - removed && removed == |removable| - j
      invariant DropFrom(est, Values(ms), kept, budget, removable[..j]) == DropTier(est, old(Values(ms)), content, budget, tier)
    {
      var index := removable[j - 1];
      assert removable[..j][..j - 1] == removable[..j - 1];
      kept := kept[..index] + kept[index + 1..];
      SetContent(ms, |ms| - 1, Blocks(kept));
      removed := removed + 1;
      j := j - 1;
    }
  }

  // ---- The whole of apply ----

  /** The last user message among the first `n`; -1 when there is none. */
  function LastUserBefore(vs: seq<View>, n: nat): (r: int)
    requires n <= |vs|
    ensures -1 <= r < n && (r >= 0 ==> vs[r].info.role == User)
    ensures forall i :: r < i < n ==> vs[i].info.role != User
  {
    if n == 0 then -1 else if vs[n - 1].info.role == User then n - 1 else LastUserBefore(vs, n - 1)
  }

  function LastUser(vs: seq<View>): (r: int)
    ensures -1 <= r < |vs|
  {
    LastUserBefore(vs, |vs|)
  }

  method LastUserIndex(ms: seq<Message>) returns (index: int)
    ensures index == LastUser(Values(ms))
  {
    index := |ms| - 1;
    while index >= 0 && ms[index].info.role != User
      invariant -1 <= index < |ms|
      invariant LastUserBefore(Values(ms), index + 1) == LastUser(Values(ms))
    {
      index := index - 1;
    }
  }

  lemma LastUserIs(vs: seq<View>, i: nat)
    requires i < |vs| && vs[i].info.role == User && forall j :: i < j < |vs| ==> vs[j].info.role != User
    ensures LastUser(vs) == i
  {
  }

  /** Trimming history leaves the current user message the last one. */
  lemma LastUserStays(est: View -> nat, vs: seq<View>, budget: int)
    requires LastUser(vs) >= 0
    ensures var u := TrimmedHistory(est, vs, LastUser(vs), budget);
            LastUser(u) == |u| - (|vs| - LastUser(vs)) >= 0 && u[LastUser(u)..] == vs[LastUser(vs)..]
  {
    var current := LastUser(vs);
    var u := TrimmedHistory(est, vs, current, budget);
    var at := |u| - (|vs| - current);
    assert at >= 0 && u[at..] == vs[current..];
    forall j | at <= j < |u| ensures u[j] == vs[j - at + current] {
      assert u[at..][j - at] == vs[current..][j - at];
    }
    LastUserIs(u, at);
  }

  function StageTier(est: View -> nat, vs: seq<View>, current: nat, content: seq<Block>, budget: int, tier: Tier)
    : (r: (seq<View>, seq<Block>))
    requires current < |vs|
    ensures |r.0| == |vs|
  {
    var (w, kept) := DropTier(est, vs, content, budget, tier);
    (With(w, current, Blocks(kept)), kept)
  }

  /** The message list after all stages, and the blocks each stage leaves. */
  datatype Staged = Staged(vs: seq<View>, afterRecent: seq<Block>, afterRetrieval: seq<Block>, blocks: seq<Block>)

  function Stages(est: View -> nat, vs: seq<View>, current: nat, budget: int): Staged
    requires current < |vs| && vs[current].content.Blocks?
  {
    var c0 := vs[current].content.blocks;
    var c1 := if Sum(est, vs) <= budget then c0 else Without(c0, RecentHistory);
    var (v2, c2) := StageTier(est, With(vs, current, Blocks(c1)), current, c1, budget, Retrieval);
    var (v3, c3) := StageTier(est, v2, current, c2, budget, Continuity);
    Staged(v3, c1, c2, c3)
  }

  ghost function Applied(est: View -> nat, vs: seq<View>, budget: int): seq<View> {
    if budget <= 0 || Sum(est, vs) <= budget || LastUser(vs) < 0 then vs
    else
      var u := TrimmedHistory(est, vs, LastUser(vs), budget);
      if LastUser(u) < 0 || !u[LastUser(u)].content.Blocks? then u else Stages(est, u, LastUser(u), budget).vs
  }

  datatype Reason = Empty | NoBudget | WithinBudget | NoUserMessage | Trimmed | Unchanged

  datatype Audit =
    | NotApplied(reason: Reason)
    | Untouched(reason: Reason, finalTokens: nat)
    | Outcome(reason: Reason, finalTokens: nat, history: int, recent: int, retrieval: int, continuity: int)

  /** The audit that goes with a result: what each stage removed, and the estimate that is left. */
  ghost function Audited(est: View -> nat, vs: seq<View>, budget: int): Audit {
    if vs == [] then NotApplied(Empty)
    else if budget <= 0 then NotApplied(NoBudget)
    else if Sum(est, vs) <= budget then Untouched(WithinBudget, Sum(est, vs))
    else if LastUser(vs) < 0 then Untouched(NoUserMessage, Sum(est, vs))
    else
      var u, r := TrimmedHistory(est, vs, LastUser(vs), budget), Applied(est, vs, budget);
      var reason := if Sum(est, r) < Sum(est, vs) then Trimmed else Unchanged;
      if LastUser(u) < 0 || !u[LastUser(u)].content.Blocks? then Outcome(reason, Sum(est, r), |vs| - |r|, 0, 0, 0)
      else
        var staged := Stages(est, u, LastUser(u), budget);
        Outcome(reason, Sum(est, r), |vs| - |r|, |u[LastUser(u)].content.blocks| - |staged.afterRecent|,
                |staged.afterRecent| - |staged.afterRetrieval|, |staged.afterRetrieval| - |staged.blocks|)
  }

  /** [self._clone_message(message) for message in messages] */
  method CloneMessages(ms: seq<Message>) returns (clones: seq<Message>)
    ensures Values(clones) == Values(ms) && Distinct(clones)
    ensures forall c :: c in clones ==> fresh(c)
  {
    clones := [];
    for i := 0 to |ms|
      invariant |clones| == i && Distinct(clones)
      invariant forall k :: 0 <= k < i ==> fresh(clones[k]) && clones[k].Value() == old(ms[k].Value())
    {
      var clone := new Message(ms[i].info, ms[i].content);
      clones := clones + [clone];
    }
  }

  function OrZero(n: Option<int>): int {
    if n.Some? then n.value else 0
  }

  /** ContextBudgetManager.apply: nothing the caller holds is modified, and what comes back is as the functions say. */
  method Apply(est: View -> nat, ms: seq<Message>, window: Option<int>, completion: Option<int>, safety: nat)
    returns (out: seq<Message>, audit: Audit)
    ensures forall m :: m in out ==> fresh(m)
    ensures Values(ms) == old(Values(ms))
    ensures Values(out) == Applied(est, Values(ms), OrZero(window) - OrZero(completion) - safety)
    ensures audit == Audited(est, Values(ms), OrZero(window) - OrZero(completion) - safety)
  {
    hide Sum, TrimmedHistory, Stages, Distinct, LastUserBefore, Values, LastUser, TierOf, Without, Removable, DropFrom;
    hide DropTier, StageTier, With, PickViews, PickMessages, Legal, KeptHistory;
    if ms == [] {
      return [], NotApplied(Empty);
    }
    var budget := OrZero(window) - OrZero(completion) - safety;
    var trimmed := CloneMessages(ms);
    if budget <= 0 {
      return trimmed, NotApplied(NoBudget);
    }
    var initial := Sum(est, Values(trimmed));
    if initial <= budget {
      return trimmed, Untouched(WithinBudget, initial);
    }
    var current := LastUserIndex(trimmed);
    if current < 0 {
      return trimmed, Untouched(NoUserMessage, initial);
    }
    assert trimmed[current] in trimmed && trimmed[|trimmed| - 1] in trimmed;
    out, audit := TrimToBudget(est, trimmed, current, budget);
  }

  lemma WhenTrimming(est: View -> nat, vs: seq<View>, budget: int, u: seq<View>, current: nat)
    requires budget > 0 && Sum(est, vs) > budget && LastUser(vs) >= 0
    requires u == TrimmedHistory(est, vs, LastUser(vs), budget) && current < |u| && current == LastUser(u)
    ensures var blocks := u[current].content.Blocks?;
            var r := if blocks then Stages(est, u, current, budget).vs else u;
            var reason := if Sum(est, r) < Sum(est, vs) then Trimmed else Unchanged;
            && Applied(est, vs, budget) == r
            && Audited(est, vs, budget) ==
               if !blocks then Outcome(reason, Sum(est, r), |vs| - |r|, 0, 0, 0)
               else
                 var staged := Stages(est, u, current, budget);
                 Outcome(reason, Sum(est, r), |vs| - |r|, |u[current].content.blocks| - |staged.afterRecent|,
                         |staged.afterRecent| - |staged.afterRetrieval|, |staged.afterRetrieval| - |staged.blocks|)
  {
    hide Sum, TrimmedHistory, Stages, LastUser;
  }

  /** The part of apply that trims the clones. */
  method TrimToBudget(est: View -> nat, clones: seq<Message>, last: nat, budget: int) returns (out: seq<Message>, audit: Audit)
    requires Distinct(clones) && budget > 0 && Sum(est, Values(clones)) > budget
    requires last < |clones| && last == LastUser(Values(clones))
    modifies clones[last], clones[|clones| - 1]
    ensures forall m :: m in out ==> m in clones
    ensures Values(out) == Applied(est, old(Values(clones)), budget)
    ensures audit == Audited(est, old(Values(clones)), budget)
  {
    hide Sum, TrimmedHistory, Stages, Distinct, LastUserBefore, Values, LastUser, TierOf, Without, Removable, DropFrom;
    hide DropTier, StageTier, With, PickViews, PickMessages, Legal, KeptHistory, Applied, Audited;
    var initial := Sum(est, Values(clones));
    LastUserStays(est, Values(clones), budget);
    var trimmed, history := TrimHistory(est, clones, last, budget);
    var current := LastUserIndex(trimmed);
    WhenTrimming(est, Values(clones), budget, Values(trimmed), current);
    assert trimmed[current..] == clones[last..] && trimmed[current..][0] == trimmed[current];
    var recent, retrieval, continuity := 0, 0, 0;
    if trimmed[current].content.Blocks? {
      recent, retrieval, continuity := DropStages(est, trimmed, current, budget);
    }
    out := trimmed;
    var final := Sum(est, Values(trimmed));
    audit := Outcome(if final < initial then Trimmed else Unchanged, final, history, recent, retrieval, continuity);
  }

  /** The three stages of apply, over the content of the current user message. */
  method DropStages(est: View -> nat, ms: seq<Message>, current: nat, budget: int)
    returns (recent: nat, retrieval: nat, continuity: nat)
    requires current < |ms| && ms[current].content.Blocks? && Distinct(ms)
    modifies ms[current], ms[|ms| - 1]
    ensures Values(ms) == Stages(est, old(Values(ms)), current, budget).vs
    ensures var staged := Stages(est, old(Values(ms)), current, budget);
            && recent == |old(ms[current].content.blocks)| - |staged.afterRecent|
            && retrieval == |staged.afterRecent| - |staged.afterRetrieval|
            && continuity == |staged.afterRetrieval| - |staged.blocks|
  {
    hide Sum, Without, Values, Distinct, StageTier, TierOf;
    var content := ms[current].content.blocks;
    content, recent := DropRecentHistoryBlocks(est, content, budget, ms);
    SetContent(ms, current, Blocks(content));
    content, retrieval := DropStage(est, ms, current, content, budget, Retrieval);
    content, continuity := DropStage(est, ms, current, content, budget, Continuity);
  }

  /** A stage that runs only while the estimate is over the budget. */
  method DropStage(est: View -> nat, ms: seq<Message>, current: nat, content: seq<Block>, budget: int, tier: Tier)
    returns (kept: seq<Block>, removed: nat)
    requires current < |ms| && ms[current].content == Blocks(content) && Distinct(ms)
    modifies ms[current], ms[|ms| - 1]
    ensures (Values(ms), kept) == StageTier(est, old(Values(ms)), current, content, budget, tier)
    ensures ms[current].content == Blocks(kept) && removed == |content| - |kept|
  {
    hide Sum, Values, Distinct, Removable;
    kept, removed := content, 0;
    if Sum(est, Values(ms)) > budget {
      kept, removed := DropBlocks(est, content, budget, ms, tier);
      SetContent(ms, current, Blocks(kept));
    } else {
      assert With(Values(ms), current, Blocks(content)) == Values(ms);
    }
  }

  // ---- What the stages amount to ----

  /** The blocks of a tier, or those of none, among the first `n`, in order. */
  function OnlyTo(blocks: seq<Block>, tier: Option<Tier>, n: nat): seq<Block>
    requires n <= |blocks|
  {
    if n == 0 then []
    else if TierOf(blocks[n - 1]) != tier then OnlyTo(blocks, tier, n - 1)
    else OnlyTo(blocks, tier, n - 1) + [blocks[n - 1]]
  }

  function Only(blocks: seq<Block>, tier: Option<Tier>): seq<Block> {
    OnlyTo(blocks, tier, |blocks|)
  }

  /** Without the blocks of a tier from `bound` on. */
  function Cut(blocks: seq<Block>, tier: Tier, bound: nat): (r: seq<Block>)
    requires bound <= |blocks|
    ensures |r| >= bound
  {
    blocks[..bound] + Without(blocks[bound..], tier)
  }

  lemma Associative(a: seq<Block>, b: seq<Block>, c: seq<Block>)
    ensures (a + b) + c == a + (b + c)
  {
  }

  lemma {:induction false} WithoutAfter(b: Block, rest: seq<Block>, tier: Tier, n: nat)
    requires n <= |rest|
    ensures WithoutTo([b] + rest, tier, n + 1) == Without([b], tier) + WithoutTo(rest, tier, n)
  {
    hide TierOf;
    if n == 0 {
      assert WithoutTo([b] + rest, tier, 0) == [] == WithoutTo([b], tier, 0);
    } else {
      WithoutAfter(b, rest, tier, n - 1);
      var last := rest[n - 1];
      assert ([b] + rest)[n] == last;
      if TierOf(last) != Some(tier) {
        Associative(Without([b], tier), WithoutTo(rest, tier, n - 1), [last]);
      }
    }
  }

  lemma WithoutHead(blocks: seq<Block>, tier: Tier, i: nat)
    requires i < |blocks|
    ensures Without(blocks[i..], tier)
            == (if TierOf(blocks[i]) == Some(tier) then [] else [blocks[i]]) + Without(blocks[i + 1..], tier)
  {
    assert blocks[i..] == [blocks[i]] + blocks[i + 1..];
    WithoutAfter(blocks[i], blocks[i + 1..], tier, |blocks[i + 1..]|);
    assert WithoutTo([blocks[i]], tier, 0) == [];
  }

  lemma CutKeeps(blocks: seq<Block>, tier: Tier, n: nat)
    requires 0 < n <= |blocks| && TierOf(blocks[n - 1]) != Some(tier)
    ensures Cut(blocks, tier, n) == Cut(blocks, tier, n - 1)
  {
    WithoutHead(blocks, tier, n - 1);
    assert blocks[..n] == blocks[..n - 1] + [blocks[n - 1]];
  }

  lemma CutPops(blocks: seq<Block>, tier: Tier, n: nat)
    requires 0 < n <= |blocks| && TierOf(blocks[n - 1]) == Some(tier)
    ensures Popped(Cut(blocks, tier, n), n - 1) == Cut(blocks, tier, n - 1)
  {
    WithoutHead(blocks, tier, n - 1);
  }

  function WithLast(vs: seq<View>, blocks: seq<Block>): seq<View>
    requires vs != []
  {
    With(vs, |vs| - 1, Blocks(blocks))
  }

  /** The loop of a stage, entered with everything of the tier from `n` on popped. */
  function DropAt(est: View -> nat, vs: seq<View>, content: seq<Block>, budget: int, tier: Tier, n: nat): (seq<View>, seq<Block>)
    requires vs != [] && n <= |content|
  {
    DropFrom(est, WithLast(vs, Cut(content, tier, n)), Cut(content, tier, n), budget, Removable(content, tier, n))
  }

  lemma DropAtPops(est: View -> nat, vs: seq<View>, content: seq<Block>, budget: int, tier: Tier, n: nat)
    requires vs != [] && 0 < n <= |content| && TierOf(content[n - 1]) == Some(tier)
    requires Sum(est, WithLast(vs, Cut(content, tier, n))) > budget
    ensures DropAt(est, vs, content, budget, tier, n) == DropAt(est, vs, content, budget, tier, n - 1)
  {
    hide Sum, Cut, TierOf;
    CutPops(content, tier, n);
    assert Removable(content, tier, n)[..|Removable(content, tier, n)| - 1] == Removable(content, tier, n - 1);
    assert With(WithLast(vs, Cut(content, tier, n)), |vs| - 1, Blocks(Cut(content, tier, n - 1)))
        == WithLast(vs, Cut(content, tier, n - 1));
  }

  lemma DropAtKeeps(est: View -> nat, vs: seq<View>, content: seq<Block>, budget: int, tier: Tier, n: nat)
    requires vs != [] && 0 < n <= |content| && TierOf(content[n - 1]) != Some(tier)
    ensures DropAt(est, vs, content, budget, tier, n) == DropAt(est, vs, content, budget, tier, n - 1)
  {
    hide Sum, Cut, TierOf;
    CutKeeps(content, tier, n);
    assert Removable(content, tier, n) == Removable(content, tier, n - 1);
  }

  /** The loop stopped at `bound`: what is left fits or has no more of the tier, and the last pop was needed. */
  ghost predicate StopsAt(est: View -> nat, vs: seq<View>, content: seq<Block>, budget: int, tier: Tier, n: nat, bound: nat)
    requires vs != [] && bound <= n <= |content|
  {
    && (Sum(est, WithLast(vs, Cut(content, tier, bound))) <= budget
        || forall i :: 0 <= i < bound ==> TierOf(content[i]) != Some(tier))
    && (bound == n
        || (TierOf(content[bound]) == Some(tier) && Sum(est, WithLast(vs, Cut(content, tier, bound + 1))) > budget))
  }

  /** When what it shortens is the last message, a stage stops at the first cut, from the end, that fits. */
  lemma {:induction false} DropCuts(est: View -> nat, vs: seq<View>, content: seq<Block>, budget: int, tier: Tier, n: nat)
    returns (bound: nat)
    requires vs != [] && n <= |content|
    ensures bound <= n && StopsAt(est, vs, content, budget, tier, n, bound)
    ensures DropAt(est, vs, content, budget, tier, n)
            == (WithLast(vs, Cut(content, tier, bound)), Cut(content, tier, bound))
  {
    hide Sum, Cut, TierOf, WithLast, DropAt;
    if n == 0 || Sum(est, WithLast(vs, Cut(content, tier, n))) <= budget {
      bound := n;
      DropAtStops(est, vs, content, budget, tier, n);
    } else if TierOf(content[n - 1]) == Some(tier) {
      DropAtPops(est, vs, content, budget, tier, n);
      bound := DropCuts(est, vs, content, budget, tier, n - 1);
    } else {
      DropAtKeeps(est, vs, content, budget, tier, n);
      CutKeeps(content, tier, n);
      bound := DropCuts(est, vs, content, budget, tier, n - 1);
      if bound == n - 1 {
        bound := n;
      }
    }
  }

  lemma DropAtStops(est: View -> nat, vs: seq<View>, content: seq<Block>, budget: int, tier: Tier, n: nat)
    requires vs != [] && n <= |content| && (n == 0 || Sum(est, WithLast(vs, Cut(content, tier, n))) <= budget)
    ensures DropAt(est, vs, content, budget, tier, n) == (WithLast(vs, Cut(content, tier, n)), Cut(content, tier, n))
  {
  }

  lemma {:induction false} OnlyPrefix(a: seq<Block>, b: seq<Block>, tier: Option<Tier>, n: nat)
    requires n <= |a| <= |b| && a == b[..|a|]
    ensures OnlyTo(b, tier, n) == OnlyTo(a, tier, n)
  {
    hide TierOf;
    if n > 0 {
      OnlyPrefix(a, b, tier, n - 1);
      assert a[n - 1] == b[n - 1];
    }
  }

  lemma {:induction false} OnlyAfter(a: seq<Block>, b: seq<Block>, tier: Option<Tier>, n: nat)
    requires n <= |b|
    ensures OnlyTo(a + b, tier, |a| + n) == Only(a, tier) + OnlyTo(b, tier, n)
  {
    hide TierOf;
    if n == 0 {
      OnlyPrefix(a, a + b, tier, |a|);
    } else {
      OnlyAfter(a, b, tier, n - 1);
      assert (a + b)[|a| + n - 1] == b[n - 1];
      if TierOf(b[n - 1]) == tier {
        Associative(Only(a, tier), OnlyTo(b, tier, n - 1), [b[n - 1]]);
      }
    }
  }

  lemma OnlyConcat(a: seq<Block>, b: seq<Block>, tier: Option<Tier>)
    ensures Only(a + b, tier) == Only(a, tier) + Only(b, tier)
  {
    OnlyAfter(a, b, tier, |b|);
  }

  lemma {:induction false} OnlyWithoutTo(a: seq<Block>, dropped: Tier, tier: Option<Tier>, n: nat)
    requires n <= |a|
    ensures Only(WithoutTo(a, dropped, n), tier) == if tier == Some(dropped) then [] else OnlyTo(a, tier, n)
  {
    hide TierOf;
    if n > 0 {
      var before := WithoutTo(a, dropped, n - 1);
      OnlyWithoutTo(a, dropped, tier, n - 1);
      OnlyConcat(before, [a[n - 1]], tier);
      OnlyOne(a[n - 1], tier);
      hide Only;
      assert WithoutTo(a, dropped, n) == if TierOf(a[n - 1]) == Some(dropped) then before else before + [a[n - 1]];
    }
  }

  lemma OnlyWithout(a: seq<Block>, dropped: Tier, tier: Option<Tier>)
    ensures Only(Without(a, dropped), tier) == if tier == Some(dropped) then [] else Only(a, tier)
  {
    OnlyWithoutTo(a, dropped, tier, |a|);
  }

  lemma OnlyOne(b: Block, tier: Option<Tier>)
    ensures Only([b], tier) == if TierOf(b) == tier then [b] else []
  {
    assert OnlyTo([b], tier, 0) == [];
  }

  lemma {:induction false} OnlyNone(a: seq<Block>, tier: Tier, n: nat)
    requires n <= |a| && forall i :: 0 <= i < n ==> TierOf(a[i]) != Some(tier)
    ensures OnlyTo(a, Some(tier), n) == []
  {
    hide TierOf;
    if n > 0 {
      OnlyNone(a, tier, n - 1);
    }
  }

  /** A cut takes the last blocks of its tier and touches no other. */
  lemma OnlyCut(blocks: seq<Block>, tier: Tier, bound: nat, o: Option<Tier>)
    requires bound <= |blocks|
    ensures o != Some(tier) ==> Only(Cut(blocks, tier, bound), o) == Only(blocks, o)
    ensures Only(Cut(blocks, tier, bound), Some(tier)) == Only(blocks[..bound], Some(tier)) <= Only(blocks, Some(tier))
  {
    assert blocks == blocks[..bound] + blocks[bound..];
    OnlyConcat(blocks[..bound], blocks[bound..], o);
    OnlyConcat(blocks[..bound], blocks[bound..], Some(tier));
    OnlyConcat(blocks[..bound], Without(blocks[bound..], tier), o);
    OnlyConcat(blocks[..bound], Without(blocks[bound..], tier), Some(tier));
    OnlyWithout(blocks[bound..], tier, o);
    OnlyWithout(blocks[bound..], tier, Some(tier));
  }

  /** What a stage does to the blocks of the last message: nothing if the estimate fits; else it drops the last ones of
      its tier and no others, until the estimate fits or none is left. */
  ghost predicate StageDone(est: View -> nat, vs: seq<View>, content: seq<Block>, kept: seq<Block>, budget: int, tier: Tier)
    requires vs != []
  {
    && (Sum(est, WithLast(vs, content)) <= budget ==> kept == content)
    && (Sum(est, WithLast(vs, kept)) <= budget || Only(kept, Some(tier)) == [])
    && (forall o :: o != Some(tier) ==> Only(kept, o) == Only(content, o))
    && Only(kept, Some(tier)) <= Only(content, Some(tier))
  }

  lemma StageFacts(est: View -> nat, vs: seq<View>, content: seq<Block>, budget: int, tier: Tier) returns (bound: nat)
    requires vs != []
    ensures bound <= |content| && StopsAt(est, vs, content, budget, tier, |content|, bound)
    ensures var kept := Cut(content, tier, bound);
            && StageTier(est, WithLast(vs, content), |vs| - 1, content, budget, tier) == (WithLast(vs, kept), kept)
            && StageDone(est, vs, content, kept, budget, tier)
  {
    hide Sum, Only, TierOf, Cut, StageTier, StageDone, DropAt, StopsAt;
    bound := DropCuts(est, vs, content, budget, tier, |content|);
    CutAll(content, tier);
    StageIsDrop(est, vs, content, Cut(content, tier, bound), budget, tier);
    if Sum(est, WithLast(vs, content)) <= budget {
      DropAtStops(est, vs, content, budget, tier, |content|);
    }
    CutDone(est, vs, content, budget, tier, bound);
  }

  lemma StageIsDrop(est: View -> nat, vs: seq<View>, content: seq<Block>, kept: seq<Block>, budget: int, tier: Tier)
    requires vs != [] && Cut(content, tier, |content|) == content
    requires DropAt(est, vs, content, budget, tier, |content|) == (WithLast(vs, kept), kept)
    ensures StageTier(est, WithLast(vs, content), |vs| - 1, content, budget, tier) == (WithLast(vs, kept), kept)
  {
    hide Sum, Removable, DropFrom, Cut;
    assert DropAt(est, vs, content, budget, tier, |content|) == DropTier(est, WithLast(vs, content), content, budget, tier);
    assert With(WithLast(vs, kept), |vs| - 1, Blocks(kept)) == WithLast(vs, kept);
  }

  lemma CutDone(est: View -> nat, vs: seq<View>, content: seq<Block>, budget: int, tier: Tier, bound: nat)
    requires vs != [] && bound <= |content| && StopsAt(est, vs, content, budget, tier, |content|, bound)
    requires Sum(est, WithLast(vs, content)) <= budget ==> Cut(content, tier, bound) == content
    ensures StageDone(est, vs, content, Cut(content, tier, bound), budget, tier)
  {
    OnlyCut(content, tier, bound, None);
    OnlyCut(content, tier, bound, Some(RecentHistory));
    OnlyCut(content, tier, bound, Some(Retrieval));
    OnlyCut(content, tier, bound, Some(Continuity));
    var kept := Cut(content, tier, bound);
    hide Sum, OnlyTo, TierOf, Cut, WithLast;
    if forall i :: 0 <= i < bound ==> TierOf(content[i]) != Some(tier) {
      OnlyNone(content[..bound], tier, bound);
    }
    forall o | o != Some(tier) ensures Only(kept, o) == Only(content, o) {
      AnyTier(o);
    }
  }

  lemma AnyTier(o: Option<Tier>)
    ensures o in [None, Some(RecentHistory), Some(Retrieval), Some(Continuity)]
  {
    match o
    case None =>
    case Some(tier) => match tier case RecentHistory => case Retrieval => case Continuity =>
  }

  lemma CutAll(content: seq<Block>, tier: Tier)
    ensures Cut(content, tier, |content|) == content
  {
    assert content[|content|..] == [];
  }

  /** Every block outside the tiers is kept, and of each tier the first ones; a profile or archived-summary block goes
      only when no retrieval and no recent-history block is left, a retrieval block only when no recent-history block
      is left; recent history goes altogether or not at all. */
  ghost predicate Ordered(before: seq<Block>, after: seq<Block>) {
    && Only(after, None) == Only(before, None)
    && (forall tier :: Only(after, Some(tier)) <= Only(before, Some(tier)))
    && (Only(after, Some(Continuity)) != Only(before, Some(Continuity)) ==>
          Only(after, Some(Retrieval)) == [] && Only(after, Some(RecentHistory)) == [])
    && (Only(after, Some(Retrieval)) != Only(before, Some(Retrieval)) ==> Only(after, Some(RecentHistory)) == [])
    && (Only(after, Some(RecentHistory)) == Only(before, Some(RecentHistory)) || Only(after, Some(RecentHistory)) == [])
  }

  /** Tier order: when the current user message is the last message, apply drops its blocks in strict order, keeps all of
      them if the estimate fits already, and ends with an estimate that fits or no removable block. */
  lemma TierOrder(est: View -> nat, vs: seq<View>, budget: int)
    requires vs != [] && vs[|vs| - 1].content.Blocks?
    ensures var before := vs[|vs| - 1].content.blocks;
            var staged := Stages(est, vs, |vs| - 1, budget);
            var after := staged.blocks;
            && staged.vs == WithLast(vs, after)
            && Ordered(before, after)
            && (Sum(est, staged.vs) <= budget || forall tier :: Only(after, Some(tier)) == [])
            && (Sum(est, vs) <= budget ==> after == before)
  {
    var before := vs[|vs| - 1].content.blocks;
    assert WithLast(vs, before) == vs;
    var c1 := if Sum(est, vs) <= budget then before else Without(before, RecentHistory);
    OnlyWithout(before, RecentHistory, None);
    OnlyWithout(before, RecentHistory, Some(RecentHistory));
    OnlyWithout(before, RecentHistory, Some(Retrieval));
    OnlyWithout(before, RecentHistory, Some(Continuity));
    var b2 := StageFacts(est, vs, c1, budget, Retrieval);
    var c2 := Cut(c1, Retrieval, b2);
    var b3 := StageFacts(est, vs, c2, budget, Continuity);
    var c3 := Cut(c2, Continuity, b3);
    hide Sum, Only, Without, Cut, StageTier, StopsAt, WithLast;
    assert Stages(est, vs, |vs| - 1, budget) == Staged(WithLast(vs, c3), c1, c2, c3) by {
      assert With(vs, |vs| - 1, Blocks(c1)) == WithLast(vs, c1);
    }
    InOrder(est, vs, before, c1, c2, c3, budget);
  }

  lemma InOrder(est: View -> nat, vs: seq<View>, c0: seq<Block>, c1: seq<Block>, c2: seq<Block>, c3: seq<Block>, budget: int)
    requires vs != [] && WithLast(vs, c0) == vs
    requires Only(c1, None) == Only(c0, None) && Only(c1, Some(Retrieval)) == Only(c0, Some(Retrieval))
    requires Only(c1, Some(Continuity)) == Only(c0, Some(Continuity))
    requires if Sum(est, vs) <= budget then c1 == c0 else Only(c1, Some(RecentHistory)) == []
    requires StageDone(est, vs, c1, c2, budget, Retrieval) && StageDone(est, vs, c2, c3, budget, Continuity)
    ensures Ordered(c0, c3) && (Sum(est, vs) <= budget ==> c3 == c0)
    ensures Sum(est, WithLast(vs, c3)) <= budget || forall tier :: Only(c3, Some(tier)) == []
  {
    hide Sum, Only, WithLast;
    forall tier ensures Only(c3, Some(tier)) <= Only(c0, Some(tier)) {
      match tier case RecentHistory => case Retrieval => case Continuity =>
    }
    if Sum(est, WithLast(vs, c3)) > budget {
      forall tier ensures Only(c3, Some(tier)) == [] {
        match tier case RecentHistory => case Retrieval => case Continuity =>
      }
    }
  }

  /** The same about apply itself, history trimming included. */
  lemma ApplyKeepsTierOrder(est: View -> nat, vs: seq<View>, budget: int)
    requires budget > 0 && vs != [] && LastUser(vs) == |vs| - 1 && vs[|vs| - 1].content.Blocks?
    ensures var r := Applied(est, vs, budget);
            && r != [] && r[|r| - 1].info == vs[|vs| - 1].info && r[|r| - 1].content.Blocks?
            && Ordered(vs[|vs| - 1].content.blocks, r[|r| - 1].content.blocks)
            && (Sum(est, r) <= budget || forall tier :: Only(r[|r| - 1].content.blocks, Some(tier)) == [])
  {
    hide TrimmedHistory, Stages, Ordered, Only, Sum, LastUser;
    if Sum(est, vs) <= budget {
      OrderedSame(vs[|vs| - 1].content.blocks);
    } else {
      LastUserStays(est, vs, budget);
      var u := TrimmedHistory(est, vs, |vs| - 1, budget);
      assert u[|u| - 1..][0] == vs[|vs| - 1..][0];
      TierOrder(est, u, budget);
    }
  }

  lemma OrderedSame(blocks: seq<Block>)
    ensures Ordered(blocks, blocks)
  {
  }

  // ---- When the current user message is not the last message ----

  /** The recent-history stage was not enough, and there is something left to drop. */
  predicate Clobbers(est: View -> nat, vs: seq<View>, current: nat, budget: int)
    requires current < |vs| && vs[current].content.Blocks?
  {
    var c0 := vs[current].content.blocks;
    var c1 := if Sum(est, vs) <= budget then c0 else Without(c0, RecentHistory);
    && Sum(est, With(vs, current, Blocks(c1))) > budget
    && (Only(c1, Some(Retrieval)) != [] || Only(c1, Some(Continuity)) != [])
  }

  lemma {:induction false} NothingRemovable(content: seq<Block>, tier: Tier, n: nat)
    requires n <= |content|
    ensures |Removable(content, tier, n)| == |OnlyTo(content, Some(tier), n)|
  {
    hide TierOf;
    if n > 0 {
      NothingRemovable(content, tier, n - 1);
    }
  }

  lemma {:induction false} DropWritesLast(est: View -> nat, vs: seq<View>, kept: seq<Block>, budget: int, removable: seq<nat>)
    requires vs != [] && forall i :: 0 <= i < |removable| ==> removable[i] < |kept| - (|removable| - 1 - i)
    ensures var (w, left) := DropFrom(est, vs, kept, budget, removable);
            w[|vs| - 1] == if removable != [] && Sum(est, vs) > budget then View(vs[|vs| - 1].info, Blocks(left))
                           else vs[|vs| - 1]
    decreases |removable|
  {
    hide Sum;
    if removable != [] && Sum(est, vs) > budget {
      var popped := Popped(kept, removable[|removable| - 1]);
      DropWritesLast(est, With(vs, |vs| - 1, Blocks(popped)), popped, budget, removable[..|removable| - 1]);
    }
  }

  /** The stage drops something. */
  predicate Drops(est: View -> nat, vs: seq<View>, content: seq<Block>, budget: int, tier: Tier) {
    Sum(est, vs) > budget && Only(content, Some(tier)) != []
  }

  lemma StageLast(est: View -> nat, vs: seq<View>, current: nat, content: seq<Block>, budget: int, tier: Tier)
    requires current < |vs| - 1 && vs[current].content == Blocks(content)
    ensures var (w, left) := StageTier(est, vs, current, content, budget, tier);
            w[|vs| - 1] == if Drops(est, vs, content, budget, tier) then View(vs[|vs| - 1].info, Blocks(left)) else vs[|vs| - 1]
    ensures !Drops(est, vs, content, budget, tier) ==> StageTier(est, vs, current, content, budget, tier) == (vs, content)
  {
    hide Sum, Removable, OnlyTo;
    NothingRemovable(content, tier, |content|);
    DropWritesLast(est, vs, content, budget, Removable(content, tier, |content|));
    assert With(vs, current, Blocks(content)) == vs;
  }

  /** The stages write `messages[-1]`: a message after the current user message keeps its content when the estimate fits
      after the recent-history stage or nothing else is removable, and otherwise gets the blocks left of the current
      user message in its place, whatever its content was. */
  lemma StagesLast(est: View -> nat, vs: seq<View>, current: nat, budget: int)
    requires current < |vs| - 1 && vs[current].content.Blocks?
    ensures |Stages(est, vs, current, budget).vs| == |vs|
    ensures var staged := Stages(est, vs, current, budget);
            staged.vs[|vs| - 1] == if Clobbers(est, vs, current, budget) then View(vs[|vs| - 1].info, Blocks(staged.blocks))
                                   else vs[|vs| - 1]
  {
    var c0 := vs[current].content.blocks;
    var c1 := if Sum(est, vs) <= budget then c0 else Without(c0, RecentHistory);
    var v1 := With(vs, current, Blocks(c1));
    hide Sum, Without, Only, StageTier;
    StageLast(est, v1, current, c1, budget, Retrieval);
    var (v2, c2) := StageTier(est, v1, current, c1, budget, Retrieval);
    StageCurrent(est, v1, current, c1, budget, Retrieval);
    StageLast(est, v2, current, c2, budget, Continuity);
    if Drops(est, v1, c1, budget, Retrieval) {
      assert Clobbers(est, vs, current, budget);
    }
  }

  /** So in apply itself: the last message keeps what it said if and only if the stages stop short of writing it, or it
      happened to consist of the very blocks they write. */
  lemma TrailingMessageKept(est: View -> nat, vs: seq<View>, budget: int)
    requires budget > 0 && Sum(est, vs) > budget && 0 <= LastUser(vs) < |vs| - 1
    requires vs[LastUser(vs)].content.Blocks?
    ensures var u := TrimmedHistory(est, vs, LastUser(vs), budget);
            && 0 <= LastUser(u) < |u| - 1 && u[LastUser(u)] == vs[LastUser(vs)]
            && (Last(Applied(est, vs, budget)) == Some(vs[|vs| - 1])
                <==> !Clobbers(est, u, LastUser(u), budget)
                     || vs[|vs| - 1].content == Blocks(Stages(est, u, LastUser(u), budget).blocks))
  {
    hide Sum, TrimmedHistory, Stages, Clobbers, LastUser;
    LastUserStays(est, vs, budget);
    var u := TrimmedHistory(est, vs, LastUser(vs), budget);
    var tail := |vs| - LastUser(vs);
    assert u[LastUser(u)..][0] == vs[LastUser(vs)..][0] && u[LastUser(u)..][tail - 1] == vs[LastUser(vs)..][tail - 1];
    StagesLast(est, u, LastUser(u), budget);
  }

  function Last(vs: seq<View>): Option<View> {
    if vs == [] then None else Some(vs[|vs| - 1])
  }

  lemma StageCurrent(est: View -> nat, vs: seq<View>, current: nat, content: seq<Block>, budget: int, tier: Tier)
    requires current < |vs|
    ensures var r := StageTier(est, vs, current, content, budget, tier);
            r.0[current].content == Blocks(r.1)
  {
  }

  // ---- What the audit says ----

  /** Whatever the messages are, a stage leaves its tier's first blocks and every block of no or another tier. */
  lemma {:induction false} LeftIsCut(est: View -> nat, vs: seq<View>, content: seq<Block>, budget: int, tier: Tier, n: nat)
    returns (bound: nat)
    requires vs != [] && n <= |content|
    ensures bound <= n
    ensures DropFrom(est, vs, Cut(content, tier, n), budget, Removable(content, tier, n)).1 == Cut(content, tier, bound)
    decreases n
  {
    hide Sum, Cut, TierOf;
    bound := n;
    if n > 0 && TierOf(content[n - 1]) != Some(tier) {
      CutKeeps(content, tier, n);
      bound := LeftIsCut(est, vs, content, budget, tier, n - 1);
    } else if n > 0 && Sum(est, vs) > budget {
      CutPops(content, tier, n);
      assert Removable(content, tier, n)[..|Removable(content, tier, n)| - 1] == Removable(content, tier, n - 1);
      bound := LeftIsCut(est, With(vs, |vs| - 1, Blocks(Cut(content, tier, n - 1))), content, budget, tier, n - 1);
    }
  }

  lemma StageLeaves(est: View -> nat, vs: seq<View>, current: nat, content: seq<Block>, budget: int, tier: Tier, o: Option<Tier>)
    requires current < |vs|
    ensures var kept := StageTier(est, vs, current, content, budget, tier).1;
            if o == Some(tier) then Only(kept, o) <= Only(content, o) else Only(kept, o) == Only(content, o)
  {
    hide Sum, DropFrom, Removable, Only, TierOf, Cut;
    CutAll(content, tier);
    var bound := LeftIsCut(est, vs, content, budget, tier, |content|);
    OnlyCut(content, tier, bound, o);
  }

  lemma {:induction false} TierSizes(blocks: seq<Block>, n: nat)
    requires n <= |blocks|
    ensures n == |OnlyTo(blocks, None, n)| + |OnlyTo(blocks, Some(RecentHistory), n)| + |OnlyTo(blocks, Some(Retrieval), n)|
                 + |OnlyTo(blocks, Some(Continuity), n)|
  {
    hide TierOf;
    if n > 0 {
      TierSizes(blocks, n - 1);
      AnyTier(TierOf(blocks[n - 1]));
    }
  }

  /** How many blocks of a tier there are in `before` and no more in `after`. */
  function Gone(before: seq<Block>, after: seq<Block>, tier: Tier): int {
    |Only(before, Some(tier))| - |Only(after, Some(tier))|
  }

  lemma StageSizes(est: View -> nat, vs: seq<View>, current: nat, content: seq<Block>, budget: int, tier: Tier)
    requires current < |vs|
    ensures var kept := StageTier(est, vs, current, content, budget, tier).1;
            && |content| - |kept| == Gone(content, kept, tier)
            && forall other :: other != tier ==> Gone(content, kept, other) == 0
  {
    var kept := StageTier(est, vs, current, content, budget, tier).1;
    TierSizes(content, |content|);
    TierSizes(kept, |kept|);
    StageLeaves(est, vs, current, content, budget, tier, None);
    StageLeaves(est, vs, current, content, budget, tier, Some(RecentHistory));
    StageLeaves(est, vs, current, content, budget, tier, Some(Retrieval));
    StageLeaves(est, vs, current, content, budget, tier, Some(Continuity));
    hide StageTier, OnlyTo;
    forall other | other != tier ensures Gone(content, kept, other) == 0 {
      AnyTier(Some(other));
    }
  }

  lemma GoneInAll(a: seq<Block>, b: seq<Block>, c: seq<Block>, d: seq<Block>, tier: Tier)
    ensures Gone(a, d, tier) == Gone(a, b, tier) + Gone(b, c, tier) + Gone(c, d, tier)
  {
    hide Only;
  }

  lemma RecentSizes(content: seq<Block>)
    ensures var kept := Without(content, RecentHistory);
            && |content| - |kept| == Gone(content, kept, RecentHistory)
            && Gone(content, kept, Retrieval) == Gone(content, kept, Continuity) == 0
  {
    TierSizes(content, |content|);
    TierSizes(Without(content, RecentHistory), |Without(content, RecentHistory)|);
    OnlyWithout(content, RecentHistory, None);
    OnlyWithout(content, RecentHistory, Some(RecentHistory));
    OnlyWithout(content, RecentHistory, Some(Retrieval));
    OnlyWithout(content, RecentHistory, Some(Continuity));
  }

  /** The three counts of the stages are how many blocks of each tier the current user message has lost. */
  lemma StagesCount(est: View -> nat, vs: seq<View>, current: nat, budget: int)
    requires current < |vs| && vs[current].content.Blocks?
    ensures var staged, before := Stages(est, vs, current, budget), vs[current].content.blocks;
            && |staged.vs| == |vs| && staged.vs[current].content == Blocks(staged.blocks)
            && |before| - |staged.afterRecent| == Gone(before, staged.blocks, RecentHistory)
            && |staged.afterRecent| - |staged.afterRetrieval| == Gone(before, staged.blocks, Retrieval)
            && |staged.afterRetrieval| - |staged.blocks| == Gone(before, staged.blocks, Continuity)
  {
    hide Sum, Without, Only, StageTier, TierOf;
    var c0 := vs[current].content.blocks;
    var c1 := if Sum(est, vs) <= budget then c0 else Without(c0, RecentHistory);
    RecentSizes(c0);
    var v1 := With(vs, current, Blocks(c1));
    var (v2, c2) := StageTier(est, v1, current, c1, budget, Retrieval);
    StageSizes(est, v1, current, c1, budget, Retrieval);
    StageSizes(est, v2, current, c2, budget, Continuity);
    StageCurrent(est, v2, current, c2, budget, Continuity);
    var (v3, c3) := StageTier(est, v2, current, c2, budget, Continuity);
    GoneInAll(c0, c1, c2, c3, RecentHistory);
    GoneInAll(c0, c1, c2, c3, Retrieval);
    GoneInAll(c0, c1, c2, c3, Continuity);
  }

  /** When apply trims, its audit gives the estimate of what it returns, how many messages went, whether the estimate went
      down, and for each tier how many of its blocks the current user message lost. */
  lemma AuditMeans(est: View -> nat, vs: seq<View>, budget: int)
    requires budget > 0 && Sum(est, vs) > budget && LastUser(vs) >= 0
    ensures var audit, r := Audited(est, vs, budget), Applied(est, vs, budget);
            var at := |r| - (|vs| - LastUser(vs));
            && audit.Outcome? && audit.finalTokens == Sum(est, r) && audit.history == |vs| - |r|
            && audit.reason == (if Sum(est, r) < Sum(est, vs) then Trimmed else Unchanged)
            && 0 <= at < |r| && r[at].content.Blocks? == vs[LastUser(vs)].content.Blocks?
            && (if vs[LastUser(vs)].content.Blocks? then
                  var before, after := vs[LastUser(vs)].content.blocks, r[at].content.blocks;
                  && audit.recent == Gone(before, after, RecentHistory) && audit.retrieval == Gone(before, after, Retrieval)
                  && audit.continuity == Gone(before, after, Continuity)
                else audit.recent == audit.retrieval == audit.continuity == 0)
  {
    hide Sum, TrimmedHistory, Stages, LastUser, Gone;
    LastUserStays(est, vs, budget);
    var u := TrimmedHistory(est, vs, LastUser(vs), budget);
    var current := LastUser(u);
    WhenTrimming(est, vs, budget, u, current);
    assert u[current..][0] == vs[LastUser(vs)..][0];
    if u[current].content.Blocks? {
      StagesCount(est, u, current, budget);
    }
  }

  /** When it does not trim, what it returns has the content it was given, and the audit says why. */
  lemma NothingToTrim(est: View -> nat, vs: seq<View>, budget: int)
    requires vs == [] || budget <= 0 || Sum(est, vs) <= budget || LastUser(vs) < 0
    ensures Applied(est, vs, budget) == vs
    ensures Audited(est, vs, budget) ==
            if vs == [] then NotApplied(Empty)
            else if budget <= 0 then NotApplied(NoBudget)
            else Untouched(if Sum(est, vs) <= budget then WithinBudget else NoUserMessage, Sum(est, vs))
  {
    hide Sum;
  }
}
