/** Turns of a conversation: splitting a message list into turns, finding where the hot part starts, and moving what
    lies before it to the warm buffer. */
module TurnPipeline {
  import opened Actions
  import opened ContextBudget

  /** A stored message; `delivery` marks an assistant message sent on the assistant's own initiative. */
  datatype Entry = Entry(info: Info, body: string, delivery: bool)

  /** One user message and everything up to the next one. */
  datatype Exchange = Exchange(user: Entry, rest: seq<Entry>)

  predicate IsUser(m: Entry) {
    m.info.role == User
  }

  function Viewed(ms: seq<Entry>): (vs: seq<View>)
    ensures |vs| == |ms| && forall i :: 0 <= i < |ms| ==> vs[i] == View(ms[i].info, Plain(ms[i].body))
  {
    seq(|ms|, i requires 0 <= i < |ms| => View(ms[i].info, Plain(ms[i].body)))
  }

  // ---- Splitting ----

  /** The state of the splitting loop after `n` messages. */
  datatype Progress = Progress(turns: seq<Exchange>, current: Option<Exchange>)

  function Closed(p: Progress): seq<Exchange> {
    if p.current.Some? then p.turns + [p.current.value] else p.turns
  }

  function Next(p: Progress, m: Entry): Progress {
    if IsUser(m) then Progress(Closed(p), Some(Exchange(m, [])))
    else if p.current.None? then p
    else p.(current := Some(p.current.value.(rest := p.current.value.rest + [m])))
  }

  function SplitTo(ms: seq<Entry>, n: nat): Progress
    requires n <= |ms|
  {
    if n == 0 then Progress([], None) else Next(SplitTo(ms, n - 1), ms[n - 1])
  }

  function Split(ms: seq<Entry>): seq<Exchange> {
    Closed(SplitTo(ms, |ms|))
  }

  /** _split_messages_by_turn */
  method SplitMessagesByTurn(messages: seq<Entry>) returns (turns: seq<Exchange>)
    ensures turns == Split(messages)
  {
    turns := [];
    var currentUser: Option<Entry> := None;
    var currentAssistants: seq<Entry> := [];
    for i := 0 to |messages|
      invariant SplitTo(messages, i)
             == Progress(turns, if currentUser.Some? then Some(Exchange(currentUser.value, currentAssistants)) else None)
    {
      if messages[i].info.role == User {
        if currentUser.Some? {
          turns := turns + [Exchange(currentUser.value, currentAssistants)];
        }
        currentUser := Some(messages[i]);
        currentAssistants := [];
      } else if currentUser.Some? {
        currentAssistants := currentAssistants + [messages[i]];
      }
    }
    if currentUser.Some? {
      turns := turns + [Exchange(currentUser.value, currentAssistants)];
    }
  }

  function Spoken(t: Exchange): seq<Entry> {
    [t.user] + t.rest
  }

  function FlattenTo(turns: seq<Exchange>, n: nat): seq<Entry>
    requires n <= |turns|
  {
    if n == 0 then [] else FlattenTo(turns, n - 1) + Spoken(turns[n - 1])
  }

  function Flatten(turns: seq<Exchange>): seq<Entry> {
    FlattenTo(turns, |turns|)
  }

  /** The position of the first user message among the first `n`; `n` when there is none. */
  function FirstUser(ms: seq<Entry>, n: nat): (f: nat)
    requires n <= |ms|
    ensures f <= n && (f < n ==> IsUser(ms[f])) && forall i :: 0 <= i < f ==> !IsUser(ms[i])
  {
    if n == 0 then 0
    else
      var f := FirstUser(ms, n - 1);
      if f < n - 1 then f else if IsUser(ms[n - 1]) then n - 1 else n
  }

  lemma FlattenZero(turns: seq<Exchange>)
    ensures FlattenTo(turns, 0) == []
  {
  }

  lemma FlattenAt(turns: seq<Exchange>, n: nat)
    requires n < |turns|
    ensures FlattenTo(turns, n + 1) == FlattenTo(turns, n) + Spoken(turns[n])
  {
  }

  lemma {:induction false} FlattenPrefix(a: seq<Exchange>, b: seq<Exchange>, n: nat)
    requires n <= |a| <= |b| && a == b[..|a|]
    ensures FlattenTo(b, n) == FlattenTo(a, n)
  {
    if n > 0 {
      hide FlattenTo, Spoken;
      FlattenPrefix(a, b, n - 1);
      assert a[n - 1] == b[n - 1];
      FlattenAt(a, n - 1);
      FlattenAt(b, n - 1);
    }
  }

  lemma FlattenSnoc(turns: seq<Exchange>, t: Exchange)
    ensures Flatten(turns + [t]) == Flatten(turns) + Spoken(t)
  {
    FlattenPrefix(turns, turns + [t], |turns|);
  }

  lemma FlattenNone()
    ensures Flatten([]) == []
  {
  }

  lemma FlattenGrows(turns: seq<Exchange>, t: Exchange, m: Entry)
    ensures Flatten(turns) + Spoken(t.(rest := t.rest + [m])) == (Flatten(turns) + Spoken(t)) + [m]
  {
    hide Flatten;
    assert Spoken(t.(rest := t.rest + [m])) == Spoken(t) + [m];
  }

  lemma FlattenNext(p: Progress, m: Entry)
    ensures Flatten(Closed(Next(p, m)))
         == if IsUser(m) || p.current.Some? then Flatten(Closed(p)) + [m] else Flatten(Closed(p))
    ensures Next(p, m).current.None? <==> p.current.None? && !IsUser(m)
    ensures Next(p, m).current.None? ==> Next(p, m).turns == p.turns
  {
    if IsUser(m) {
      FlattenSnoc(Closed(p), Exchange(m, []));
      assert Spoken(Exchange(m, [])) == [m];
    } else if p.current.Some? {
      var t := p.current.value;
      FlattenSnoc(p.turns, t);
      FlattenSnoc(p.turns, t.(rest := t.rest + [m]));
      FlattenGrows(p.turns, t, m);
    }
  }

  lemma SplitNext(ms: seq<Entry>, n: nat)
    requires n < |ms|
    ensures SplitTo(ms, n + 1) == Next(SplitTo(ms, n), ms[n])
    ensures FirstUser(ms, n + 1) == if FirstUser(ms, n) < n || IsUser(ms[n]) then FirstUser(ms, n) else n + 1
  {
  }

  lemma SplitStart(ms: seq<Entry>)
    ensures SplitTo(ms, 0) == Progress([], None) && Flatten(Closed(SplitTo(ms, 0))) == [] && FirstUser(ms, 0) == 0
  {
  }

  lemma {:induction false} FlattenSplitTo(ms: seq<Entry>, n: nat)
    requires n <= |ms|
    ensures Flatten(Closed(SplitTo(ms, n))) == ms[FirstUser(ms, n)..n]
    ensures SplitTo(ms, n).current.None? <==> FirstUser(ms, n) == n
    ensures SplitTo(ms, n).current.None? ==> SplitTo(ms, n).turns == []
  {
    hide *;
    NothingYet(ms, n);
    if n == 0 {
      SplitStart(ms);
    } else {
      FlattenSplitTo(ms, n - 1);
      SplitNext(ms, n - 1);
      FlattenNext(SplitTo(ms, n - 1), ms[n - 1]);
      var f := FirstUser(ms, n - 1);
      if f < n - 1 || IsUser(ms[n - 1]) {
        SliceSnoc(ms, f, n);
      } else {
        NothingYet(ms, n - 1);
      }
    }
  }

  lemma SliceSnoc(ms: seq<Entry>, f: nat, n: nat)
    requires f < n <= |ms|
    ensures ms[f..n] == ms[f..n - 1] + [ms[n - 1]]
  {
  }

  lemma NothingYet(ms: seq<Entry>, n: nat)
    requires n <= |ms|
    ensures ms[n..n] == []
  {
  }

  /** Flattening the split gives the input from its first user message on. */
  lemma FlattenSplit(ms: seq<Entry>)
    ensures Flatten(Split(ms)) == ms[FirstUser(ms, |ms|)..]
  {
    FlattenSplitTo(ms, |ms|);
  }

  ghost predicate WellFormed(t: Exchange) {
    IsUser(t.user) && forall i :: 0 <= i < |t.rest| ==> !IsUser(t.rest[i])
  }

  lemma {:induction false} SplitPrefix(a: seq<Entry>, b: seq<Entry>, n: nat)
    requires n <= |a| <= |b| && a == b[..|a|]
    ensures SplitTo(b, n) == SplitTo(a, n)
  {
    if n > 0 {
      SplitPrefix(a, b, n - 1);
      assert a[n - 1] == b[n - 1];
    }
  }

  lemma {:induction false} SplitTurn(a: seq<Entry>, t: Exchange, k: nat)
    requires WellFormed(t) && k <= |t.rest|
    ensures SplitTo(a + Spoken(t), |a| + 1 + k) == Progress(Split(a), Some(Exchange(t.user, t.rest[..k])))
  {
    var all := a + Spoken(t);
    if k == 0 {
      SplitPrefix(a, all, |a|);
      assert all[|a|] == t.user;
    } else {
      SplitTurn(a, t, k - 1);
      assert all[|a| + k] == t.rest[k - 1];
      assert t.rest[..k] == t.rest[..k - 1] + [t.rest[k - 1]];
    }
  }

  /** Splitting a flattened list of well-formed turns gives the turns back, whatever stands before them. */
  lemma {:induction false} SplitFlatten(turns: seq<Exchange>, n: nat)
    requires n <= |turns| && forall i :: 0 <= i < |turns| ==> WellFormed(turns[i])
    ensures Split(FlattenTo(turns, n)) == turns[..n]
  {
    if n > 0 {
      SplitFlatten(turns, n - 1);
      var a, t := FlattenTo(turns, n - 1), turns[n - 1];
      SplitTurn(a, t, |t.rest|);
      assert t.rest[..|t.rest|] == t.rest;
      assert turns[..n] == turns[..n - 1] + [t];
    }
  }

  /** A cut at a user message splits the turns into those before and those after. */
  lemma {:induction false} SplitAtUser(ms: seq<Entry>, h: nat, n: nat)
    requires h < n <= |ms| && IsUser(ms[h])
    ensures var p, q := SplitTo(ms, n), SplitTo(ms[h..], n - h);
            p.turns == Split(ms[..h]) + q.turns && p.current == q.current && q.current.Some?
  {
    var tail := ms[h..];
    assert tail[n - 1 - h] == ms[n - 1];
    if n == h + 1 {
      SplitPrefix(ms[..h], ms, h);
      assert SplitTo(tail, 0) == Progress([], None);
    } else {
      SplitAtUser(ms, h, n - 1);
    }
  }

  // ---- Where the hot part starts ----

  /** [i for i, m in enumerate(messages) if m.get("role") == "user"], over the first `n` */
  function UserIndices(ms: seq<Entry>, n: nat): (r: seq<nat>)
    requires n <= |ms|
    ensures |r| <= n && forall j :: 0 <= j < |r| ==> r[j] < n && IsUser(ms[r[j]])
  {
    if n == 0 then []
    else if IsUser(ms[n - 1]) then UserIndices(ms, n - 1) + [n - 1]
    else UserIndices(ms, n - 1)
  }

  /** Exactly `j` user messages come before the one at index `j`. */
  lemma {:induction false} UsersBefore(ms: seq<Entry>, n: nat, j: nat)
    requires n <= |ms| && j < |UserIndices(ms, n)|
    ensures UserIndices(ms, UserIndices(ms, n)[j]) == UserIndices(ms, n)[..j]
  {
    if j < |UserIndices(ms, n - 1)| {
      UsersBefore(ms, n - 1, j);
    }
  }

  /** The list has every user message, in order. */
  lemma {:induction false} UsersListed(ms: seq<Entry>, n: nat)
    requires n <= |ms|
    ensures forall i :: 0 <= i < n && IsUser(ms[i]) ==> i in UserIndices(ms, n)
    ensures forall j, k :: 0 <= j < k < |UserIndices(ms, n)| ==> UserIndices(ms, n)[j] < UserIndices(ms, n)[k]
  {
    if n > 0 {
      UsersListed(ms, n - 1);
      var before := UserIndices(ms, n - 1);
      forall i | 0 <= i < n && IsUser(ms[i]) ensures i in UserIndices(ms, n) {
        if i < n - 1 {
          var j :| 0 <= j < |before| && before[j] == i;
          assert UserIndices(ms, n)[j] == i;
        } else {
          assert UserIndices(ms, n)[|before|] == i;
        }
      }
    }
  }

  method PreviousUser(ms: seq<Entry>, start: nat) returns (found: bool, u: nat)
    requires start <= |ms|
    ensures found ==> u < start && IsUser(ms[u]) && NoUser(ms, u + 1, start)
    ensures !found ==> NoUser(ms, 0, start)
  {
    u := start;
    while u > 0
      invariant u <= start && NoUser(ms, u, start)
    {
      u := u - 1;
      if ms[u].info.role == User {
        return true, u;
      }
    }
    found := false;
  }

  ghost predicate NoUser(ms: seq<Entry>, lo: int, hi: int)
    requires 0 <= lo && hi <= |ms|
  {
    forall i :: lo <= i < hi ==> !IsUser(ms[i])
  }

  /** Every tool result from `s` on answers a call made since. */
  ghost predicate LegalFrom(ms: seq<Entry>, s: nat) {
    Legal(Viewed(ms), s)
  }

  lemma LegalShift(ms: seq<Entry>, s: nat, k: nat)
    requires s + k <= |ms|
    ensures LegalFrom(ms[s..], k) <==> LegalFrom(ms, s + k)
  {
    var part, all := Viewed(ms[s..]), Viewed(ms);
    assert forall i :: 0 <= i < |part| ==> part[i] == all[s + i];
    forall i: nat | i < |part| ensures Orphan(part, k, i) <==> Orphan(all, s + k, s + i) {
      if Orphan(part, k, i) {
        forall j | s + k <= j < s + i && all[j].info.role == Assistant ensures all[s + i].info.callId !in all[j].info.calls {
          assert part[j - s] == all[j];
        }
      }
    }
    if LegalFrom(ms[s..], k) {
      var first: nat := s + k;
      forall i: nat | first <= i < |all| ensures !Orphan(all, first, i) {
        assert !Orphan(part, k, i - s);
        assert s + (i - s) == i;
      }
    }
    if LegalFrom(ms, s + k) {
      forall i: nat ensures !Orphan(part, k, i) {
        if i < |part| {
          assert !Orphan(all, s + k, s + i);
        }
      }
    }
  }

  /** A turn starts here, or a delivery that belongs to the turn after it. */
  predicate Aligned(ms: seq<Entry>, start: nat) {
    start < |ms| && (IsUser(ms[start]) || (ms[start].delivery && start + 1 < |ms| && IsUser(ms[start + 1])))
  }

  function LimitOf(maxTurns: int): nat {
    if maxTurns > 0 then maxTurns else 50
  }

  /** The user message `limit` turns from the end, or a delivery right before it. */
  function Wish(ms: seq<Entry>, limit: nat): (from: nat)
    requires 0 < limit < |UserIndices(ms, |ms|)|
    ensures Aligned(ms, from) && from <= UserIndices(ms, |ms|)[|UserIndices(ms, |ms|)| - limit]
  {
    var u := UserIndices(ms, |ms|)[|UserIndices(ms, |ms|)| - limit];
    if u > 0 && ms[u - 1].delivery then u - 1 else u
  }

  /** Where the hot part may start: at the wish, or at an earlier user message. */
  predicate Candidate(ms: seq<Entry>, from: nat, x: nat) {
    x == from || (x < from && x < |ms| && IsUser(ms[x]))
  }

  /** The latest candidate from which no tool result lacks its call; where there is none, the first such place from the
      first user message on. */
  ghost predicate HotFrom(ms: seq<Entry>, from: nat, start: nat) {
    && start <= |ms| && LegalFrom(ms, start)
    && ((Candidate(ms, from, start) && forall x: nat :: x > start && Candidate(ms, from, x) ==> !LegalFrom(ms, x))
        || ((forall x: nat :: Candidate(ms, from, x) ==> !LegalFrom(ms, x))
            && FirstUser(ms, |ms|) <= start && forall r: nat :: FirstUser(ms, |ms|) <= r < start ==> !LegalFrom(ms, r)))
  }

  ghost predicate HotStart(ms: seq<Entry>, maxTurns: int, start: nat) {
    if |UserIndices(ms, |ms|)| <= LimitOf(maxTurns) then start == 0
    else HotFrom(ms, Wish(ms, LimitOf(maxTurns)), start)
  }

  /** _find_hot_start_idx */
  method FindHotStartIdx(ms: seq<Entry>, maxTurns: int) returns (start: nat)
    ensures start <= |ms| && HotStart(ms, maxTurns, start)
  {
    hide Legal, LeastLegal, UserIndices, Viewed, Aligned, HotFrom;
    var limit := if maxTurns > 0 then maxTurns else 50;
    var users := UserIndices(ms, |ms|);
    if |users| <= limit {
      return 0;
    }
    start := users[|users| - limit];
    if start > 0 && ms[start - 1].delivery {
      start := start - 1;
    }
    WishFollows(ms, limit);
    start := Widen(ms, start);
  }

  lemma WishFollows(ms: seq<Entry>, limit: nat)
    requires 0 < limit < |UserIndices(ms, |ms|)|
    ensures FirstUser(ms, |ms|) <= Wish(ms, limit)
  {
    hide UserIndices, FirstUser;
    var users := UserIndices(ms, |ms|);
    UsersBefore(ms, |ms|, |users| - limit);
    var u := users[|users| - limit];
    assert |UserIndices(ms, u)| == |users| - limit;
    assert UserIndices(ms, u)[0] < u && IsUser(ms[UserIndices(ms, u)[0]]);
  }

  /** The loop of _find_hot_start_idx, back to earlier user messages until no tool result lacks its call, and the step
      over what still lacks it. */
  method Widen(ms: seq<Entry>, from: nat) returns (start: nat)
    requires FirstUser(ms, |ms|) <= from < |ms|
    ensures start <= |ms| && HotFrom(ms, from, start)
  {
    hide Legal, Viewed;
    start := from;
    var legal: nat := FindLegalMessageStart(Viewed(ms[start..]));
    LeastAt(ms, start, legal);
    while start > 0 && legal != 0
      invariant FirstUser(ms, |ms|) <= start <= from && Candidate(ms, from, start)
      invariant forall x: nat :: x > start && Candidate(ms, from, x) ==> !LegalFrom(ms, x)
      invariant legal <= |ms| - start && LegalFrom(ms, start + legal)
      invariant forall r: nat :: start <= r < start + legal ==> !LegalFrom(ms, r)
      decreases start
    {
      var found, u := PreviousUser(ms, start);
      if !found {
        break;
      }
      start := u;
      legal := FindLegalMessageStart(Viewed(ms[start..]));
      LeastAt(ms, start, legal);
    }
    start := start + legal;
  }

  lemma LeastAt(ms: seq<Entry>, start: nat, legal: nat)
    requires start <= |ms| && legal <= |ms| - start && LeastLegal(Viewed(ms[start..]), legal)
    ensures LegalFrom(ms, start + legal)
    ensures forall r: nat :: start <= r < start + legal ==> !LegalFrom(ms, r)
  {
    LegalShift(ms, start, legal);
    forall r: nat | start <= r < start + legal ensures !LegalFrom(ms, r) {
      LegalShift(ms, start, r - start);
    }
  }

  lemma LegalCandidate(ms: seq<Entry>, from: nat, start: nat, first: nat)
    requires HotFrom(ms, from, start) && Candidate(ms, from, first) && LegalFrom(ms, first)
    ensures Candidate(ms, from, start)
  {
    hide Candidate, LegalFrom;
  }

  lemma CandidateAligned(ms: seq<Entry>, limit: nat, x: nat)
    requires 0 < limit < |UserIndices(ms, |ms|)| && Candidate(ms, Wish(ms, limit), x)
    ensures Aligned(ms, x) && x <= UserIndices(ms, |ms|)[|UserIndices(ms, |ms|)| - limit]
  {
    hide Wish, UserIndices;
  }

  /** Every tool result of the hot part has its call in it; and if from the first user message on every tool result of the
      history has its call, the cut is at a user message or at a delivery right before one, and keeps at least the last
      `maxTurns` turns. */
  lemma HotPart(ms: seq<Entry>, maxTurns: int, start: nat)
    requires HotStart(ms, maxTurns, start) && start > 0
    ensures start <= |ms| && LegalFrom(ms[start..], 0)
    ensures LegalFrom(ms, FirstUser(ms, |ms|)) ==>
              var limit := if maxTurns > 0 then maxTurns else 50;
              && Aligned(ms, start) && limit < |UserIndices(ms, |ms|)|
              && start <= UserIndices(ms, |ms|)[|UserIndices(ms, |ms|)| - limit]
  {
    var limit, from, first := LimitOf(maxTurns), Wish(ms, LimitOf(maxTurns)), FirstUser(ms, |ms|);
    assert HotFrom(ms, from, start) && start <= |ms| && LegalFrom(ms, start);
    hide LegalFrom, FirstUser, Wish, UserIndices, HotFrom, HotStart, Aligned;
    LegalShift(ms, start, 0);
    WishFollows(ms, limit);
    if LegalFrom(ms, first) {
      assert Candidate(ms, from, first);
      hide Candidate;
      LegalCandidate(ms, from, start, first);
      CandidateAligned(ms, limit, start);
    }
  }

  // ---- Spilling ----

  /** What the session metadata hold as warm buffer: nothing, an entry whose messages or count cannot be read, or one that
      can. */
  datatype Stored = NoBuffer | Unreadable | Buffer(messages: seq<Entry>, turnCount: int)

  function WarmOf(stored: Stored): seq<Entry> {
    if stored.Buffer? then stored.messages else []
  }

  function CountOf(stored: Stored): int {
    if stored.Buffer? then stored.turnCount else 0
  }

  /** The part of a session that the spill touches. */
  class Session {
    var messages: seq<Entry>
    var lastConsolidated: nat
    var stored: Stored

    /** WarmStore.append; it raises exactly when the stored buffer cannot be read. */
    method Append(user: Entry, rest: seq<Entry>) returns (ok: bool)
      modifies this`stored
      ensures ok <==> !old(stored).Unreadable?
      ensures stored == if ok then Buffer(WarmOf(old(stored)) + Spoken(Exchange(user, rest)), CountOf(old(stored)) + 1)
                        else old(stored)
    {
      if stored.Unreadable? {
        return false;
      }
      var warm := WarmOf(stored) + [user];
      for i := 0 to |rest|
        invariant warm == WarmOf(stored) + [user] + rest[..i]
      {
        warm := warm + [rest[i]];
      }
      assert warm == WarmOf(stored) + Spoken(Exchange(user, rest));
      stored := Buffer(warm, CountOf(stored) + 1);
      ok := true;
    }

    /** _spill_overflow_into_warm_store at a given cut.  It fails at its first append or not at all, and then it has
        changed nothing. */
    method Spill(cut: nat)
      requires cut <= |messages|
      modifies this
      ensures var turns := Split(old(messages[..cut]));
              if cut == 0 || (old(stored).Unreadable? && turns != []) then
                messages == old(messages) && lastConsolidated == old(lastConsolidated) && stored == old(stored)
              else
                && messages == old(messages[cut..])
                && lastConsolidated == (if old(lastConsolidated) > cut then old(lastConsolidated) - cut else 0)
                && stored == if turns == [] then old(stored)
                             else Buffer(WarmOf(old(stored)) + Flatten(turns), CountOf(old(stored)) + |turns|)
    {
      if cut == 0 {
        return;
      }
      var turns := SplitMessagesByTurn(messages[..cut]);
      for i := 0 to |turns|
        invariant messages == old(messages) && lastConsolidated == old(lastConsolidated)
        invariant i > 0 ==> !old(stored).Unreadable?
        invariant stored == if i == 0 then old(stored)
                            else Buffer(WarmOf(old(stored)) + FlattenTo(turns, i), CountOf(old(stored)) + i)
      {
        var ok := Append(turns[i].user, turns[i].rest);
        if !ok {
          return;
        }
      }
      messages := messages[cut..];
      lastConsolidated := if lastConsolidated > cut then lastConsolidated - cut else 0;
    }
  }

  // ---- What one spill conserves ----

  /** A completed spill at any cut: the warm buffer gains the spilled messages in order, all but those before their first
      user message, and the hot part is the rest; so with the warm buffer before it nothing is lost but those orphans. */
  lemma SpillConserves(messages: seq<Entry>, cut: nat)
    requires cut <= |messages|
    ensures var spilled := messages[..cut];
            var orphans := spilled[..FirstUser(spilled, cut)];
            && orphans + (Flatten(Split(spilled)) + messages[cut..]) == messages
            && (forall i :: 0 <= i < |orphans| ==> !IsUser(orphans[i]))
  {
    var spilled := messages[..cut];
    FlattenSplit(spilled);
    assert spilled == spilled[..FirstUser(spilled, cut)] + spilled[FirstUser(spilled, cut)..];
    assert messages == spilled + messages[cut..];
  }

  lemma {:induction false} FlattenJoin(a: seq<Exchange>, b: seq<Exchange>, n: nat)
    requires n <= |b|
    ensures FlattenTo(a + b, |a| + n) == Flatten(a) + FlattenTo(b, n)
  {
    hide FlattenTo, Spoken;
    if n == 0 {
      FlattenPrefix(a, a + b, |a|);
      FlattenZero(b);
      assert Flatten(a) + [] == Flatten(a);
    } else {
      FlattenJoin(a, b, n - 1);
      FlattenAt(a + b, |a| + n - 1);
      FlattenAt(b, n - 1);
      Associative(Flatten(a), FlattenTo(b, n - 1), Spoken(b[n - 1]));
    }
  }

  lemma Associative(a: seq<Entry>, b: seq<Entry>, c: seq<Entry>)
    ensures (a + b) + c == a + (b + c)
  {
  }

  lemma {:induction false} SplitSkips(ms: seq<Entry>, cut: nat, n: nat)
    requires cut + n <= |ms| && NoUser(ms, 0, cut)
    ensures SplitTo(ms, cut + n) == SplitTo(ms[cut..], n)
    decreases cut + n
  {
    if n > 0 {
      SplitSkips(ms, cut, n - 1);
      assert ms[cut..][n - 1] == ms[cut + n - 1];
    } else if cut > 0 {
      SplitSkips(ms, cut - 1, 0);
      assert SplitTo(ms[cut - 1..], 0) == Progress([], None);
    }
  }

  lemma SplitNone(ms: seq<Entry>)
    requires NoUser(ms, 0, |ms|)
    ensures Split(ms) == []
  {
    SplitSkips(ms, |ms|, 0);
  }

  /** The turns before and after a cut are the turns of the history if and only if the cut is at the end, at a user
      message, or before any turn has begun. */
  lemma WholeTurnsMove(ms: seq<Entry>, cut: nat)
    requires cut <= |ms|
    ensures Split(ms[..cut]) + Split(ms[cut..]) == Split(ms) <==> cut == |ms| || IsUser(ms[cut]) || NoUser(ms, 0, cut)
  {
    var before, after := ms[..cut], ms[cut..];
    if cut == |ms| {
      assert before == ms;
      SplitNone(after);
    } else if IsUser(ms[cut]) {
      SplitAtUser(ms, cut, |ms|);
    } else if NoUser(ms, 0, cut) {
      SplitNone(before);
      SplitSkips(ms, cut, |after|);
    } else {
      MidTurnLoses(ms, cut);
    }
  }

  /** A cut within a turn loses at least the message it is at. */
  lemma MidTurnLoses(ms: seq<Entry>, cut: nat)
    requires cut < |ms| && !IsUser(ms[cut]) && !NoUser(ms, 0, cut)
    ensures Split(ms[..cut]) + Split(ms[cut..]) != Split(ms)
  {
    hide FlattenTo, Split, FirstUser;
    var before, after := ms[..cut], ms[cut..];
    FlattenSplit(before);
    FlattenSplit(after);
    FlattenSplit(ms);
    FlattenJoin(Split(before), Split(after), |Split(after)|);
    var f, g, i := FirstUser(ms, |ms|), FirstUser(before, cut), FirstUser(after, |after|);
    assert f <= g by {
      var j :| 0 <= j < cut && IsUser(ms[j]);
      assert before[j] == ms[j];
      if g < cut { assert before[g] == ms[g]; }
    }
    assert i > 0 by {
      assert after[0] == ms[cut];
    }
    assert |Flatten(Split(ms))| > |Flatten(Split(before))| + |Flatten(Split(after))|;
  }

  /** The unconsolidated tail is unchanged by a completed spill exactly when `last_consolidated` is at or past the cut. */
  lemma TailUnchanged(messages: seq<Entry>, cut: nat, consolidated: nat)
    requires cut <= |messages| && consolidated <= |messages|
    ensures var after := if consolidated > cut then consolidated - cut else 0;
            messages[cut..][after..] == messages[consolidated..] <==> cut <= consolidated
  {
    if consolidated < cut {
      assert |messages[cut..][0..]| < |messages[consolidated..]|;
    }
  }

  // ---- What any number of spills conserve ----

  function Last(cuts: seq<nat>): nat {
    if cuts == [] then 0 else cuts[|cuts| - 1]
  }

  /** The places of the history where a spill cut it, from 0 on. */
  ghost predicate Increasing(cuts: seq<nat>, end: nat) {
    && cuts != [] && cuts[0] == 0 && Last(cuts) <= end
    && forall i, j :: 0 <= i < j < |cuts| ==> cuts[i] < cuts[j]
  }

  /** Between its two cuts no user message comes before the message, so its spill took it for an orphan. */
  ghost predicate OrphanIn(h: seq<Entry>, cuts: seq<nat>, k: nat, p: nat) {
    k + 1 < |cuts| && cuts[k] <= p < cuts[k + 1] && p < |h| && NoUser(h, cuts[k], p + 1)
  }

  /** The message was spilled and is not in the warm buffer. */
  ghost predicate Missing(h: seq<Entry>, cuts: seq<nat>, p: nat) {
    exists k: nat :: OrphanIn(h, cuts, k, p)
  }

  /** What the spills have put into the warm buffer of the first `n` messages. */
  ghost function Kept(h: seq<Entry>, cuts: seq<nat>, n: nat): seq<Entry>
    requires n <= |h|
  {
    if n == 0 then []
    else if Missing(h, cuts, n - 1) then Kept(h, cuts, n - 1)
    else Kept(h, cuts, n - 1) + [h[n - 1]]
  }

  lemma {:induction false} KeptGrows(h: seq<Entry>, more: seq<Entry>, cuts: seq<nat>, n: nat)
    requires n <= |h|
    ensures Kept(h + more, cuts, n) == Kept(h, cuts, n)
  {
    if n > 0 {
      var p, all := n - 1, h + more;
      KeptGrows(h, more, cuts, p);
      forall k: nat ensures OrphanIn(all, cuts, k, p) <==> OrphanIn(h, cuts, k, p) {
        assert forall i :: 0 <= i <= p ==> all[i] == h[i];
      }
      assert Missing(all, cuts, p) <==> Missing(h, cuts, p) by {
        if Missing(h, cuts, p) {
          var k: nat :| OrphanIn(h, cuts, k, p);
          assert OrphanIn(all, cuts, k, p);
        }
      }
    }
  }

  /** One more cut. */
  ghost predicate CutAgain(h: seq<Entry>, cuts: seq<nat>, cut: nat, more: seq<nat>) {
    more == cuts + [cut] && cuts != [] && Increasing(more, |h|)
  }

  lemma MissingBefore(h: seq<Entry>, cuts: seq<nat>, cut: nat, more: seq<nat>, p: nat)
    requires CutAgain(h, cuts, cut, more) && p < Last(cuts)
    ensures Missing(h, more, p) <==> Missing(h, cuts, p)
  {
    assert forall i :: 0 <= i < |cuts| ==> more[i] == cuts[i];
    if Missing(h, cuts, p) {
      var k: nat :| OrphanIn(h, cuts, k, p);
      assert OrphanIn(h, more, k, p);
    }
    if Missing(h, more, p) {
      var k: nat :| OrphanIn(h, more, k, p);
      assert OrphanIn(h, cuts, k, p);
    }
  }

  lemma {:induction false} KeptBefore(h: seq<Entry>, cuts: seq<nat>, cut: nat, more: seq<nat>, n: nat)
    requires CutAgain(h, cuts, cut, more) && n <= Last(cuts) <= |h|
    ensures Kept(h, more, n) == Kept(h, cuts, n)
  {
    hide CutAgain;
    if n > 0 {
      KeptBefore(h, cuts, cut, more, n - 1);
      MissingBefore(h, cuts, cut, more, n - 1);
    }
  }

  lemma MissingWithin(h: seq<Entry>, cuts: seq<nat>, cut: nat, more: seq<nat>, p: nat)
    requires CutAgain(h, cuts, cut, more) && Last(cuts) <= p < cut <= |h|
    ensures Missing(h, more, p) <==> NoUser(h, Last(cuts), p + 1)
  {
    var last := |cuts| - 1;
    assert more[last] == cuts[last] && more[last + 1] == cut;
    assert OrphanIn(h, more, last, p) <==> NoUser(h, cuts[last], p + 1);
    if Missing(h, more, p) {
      var k: nat :| OrphanIn(h, more, k, p);
      assert k + 1 <= last ==> more[k + 1] <= more[last];
    }
  }

  /** The position of the first user message from `lo` on and before `n`; `n` when there is none. */
  function UserFrom(h: seq<Entry>, lo: nat, n: nat): (f: nat)
    requires lo <= n <= |h|
    ensures lo <= f <= n && (f < n ==> IsUser(h[f])) && NoUser(h, lo, f)
    decreases n - lo
  {
    if lo == n || IsUser(h[lo]) then lo else UserFrom(h, lo + 1, n)
  }

  lemma UserFromMore(h: seq<Entry>, lo: nat, n: nat)
    requires lo < n <= |h|
    ensures UserFrom(h, lo, n) == if NoUser(h, lo, n) then n else UserFrom(h, lo, n - 1)
    ensures !NoUser(h, lo, n) ==> UserFrom(h, lo, n) < n
    ensures NoUser(h, lo, n) ==> UserFrom(h, lo, n - 1) == n - 1
  {
    var f, g := UserFrom(h, lo, n - 1), UserFrom(h, lo, n);
    assert f < g ==> !IsUser(h[f]) || f == n - 1;
  }

  lemma KeptNext(h: seq<Entry>, cuts: seq<nat>, n: nat)
    requires n < |h|
    ensures Kept(h, cuts, n + 1) == if Missing(h, cuts, n) then Kept(h, cuts, n) else Kept(h, cuts, n) + [h[n]]
  {
  }

  /** One more spill keeps its part of the history from its first user message on. */
  lemma {:induction false} KeptWithin(h: seq<Entry>, cuts: seq<nat>, cut: nat, more: seq<nat>, n: nat)
    requires CutAgain(h, cuts, cut, more) && Last(cuts) <= n <= cut <= |h|
    ensures Kept(h, more, n) == Kept(h, cuts, Last(cuts)) + h[UserFrom(h, Last(cuts), n)..n]
    decreases n
  {
    hide Kept, Missing, CutAgain, Last, NoUser, IsUser;
    var last := Last(cuts);
    var kept := Kept(h, cuts, last);
    if n == last {
      KeptBefore(h, cuts, cut, more, n);
      NothingYet(h, n);
      assert kept + [] == kept;
    } else {
      KeptWithin(h, cuts, cut, more, n - 1);
      MissingWithin(h, cuts, cut, more, n - 1);
      KeptNext(h, more, n - 1);
      UserFromMore(h, last, n);
      hide UserFrom;
      if NoUser(h, last, n) {
        NothingYet(h, n);
        NothingYet(h, n - 1);
      } else {
        KeptOne(kept, h, UserFrom(h, last, n), n);
      }
    }
  }

  lemma KeptOne(kept: seq<Entry>, h: seq<Entry>, f: nat, n: nat)
    requires f < n <= |h|
    ensures (kept + h[f..n - 1]) + [h[n - 1]] == kept + h[f..n]
  {
    SliceSnoc(h, f, n);
    Associative(kept, h[f..n - 1], [h[n - 1]]);
  }

  /** A turn's messages are saved, or the overflow is spilled. */
  datatype Move = Save(entries: seq<Entry>) | Overflow

  function Extended(h: seq<Entry>, move: Move): seq<Entry> {
    if move.Save? then h + move.entries else h
  }

  /** The session's first messages and all that was saved by the first `n` moves. */
  function History(start: seq<Entry>, moves: seq<Move>, n: nat): seq<Entry>
    requires n <= |moves|
  {
    if n == 0 then start else Extended(History(start, moves, n - 1), moves[n - 1])
  }

  /** The tool result at `k` answers a call made since `u`. */
  predicate Answered(ms: seq<Entry>, u: nat, k: nat)
    requires u <= k < |ms|
  {
    ms[k].info.role == Tool && ms[k].info.callId != "" ==>
      exists j :: u <= j < k && ms[j].info.role == Assistant && ms[k].info.callId in ms[j].info.calls
  }

  /** In every turn the tool results answer calls of the same turn. */
  ghost predicate TurnLocal(ms: seq<Entry>) {
    forall u: nat, k: nat :: u <= k < |ms| && IsUser(ms[u]) && NoUser(ms, u + 1, k + 1) ==> Answered(ms, u, k)
  }

  function LastUserTo(ms: seq<Entry>, n: nat): (u: nat)
    requires n <= |ms| && FirstUser(ms, n) < n
    ensures u < n && IsUser(ms[u]) && forall i :: u < i < n ==> !IsUser(ms[i])
  {
    if IsUser(ms[n - 1]) then n - 1 else LastUserTo(ms, n - 1)
  }

  /** Any part of such a history is legal from its first user message on. */
  lemma TurnLocalLegal(h: seq<Entry>, base: nat)
    requires TurnLocal(h) && base <= |h|
    ensures LegalFrom(h[base..], FirstUser(h[base..], |h[base..]|))
  {
    var ms := h[base..];
    var f, vs := FirstUser(ms, |ms|), Viewed(ms);
    forall k: nat ensures !Orphan(vs, f, k) {
      if f <= k < |ms| {
        assert IsUser(ms[f]);
        assert FirstUser(ms, k + 1) < k + 1;
        var u := LastUserTo(ms, k + 1);
        assert u >= f;
        assert ms[u] == h[base + u] && ms[k] == h[base + k];
        assert NoUser(h, base + u + 1, base + k + 1) by {
          forall i | base + u + 1 <= i < base + k + 1 ensures !IsUser(h[i]) {
            assert h[i] == ms[i - base];
          }
        }
        assert Answered(h, base + u, base + k);
        if ms[k].info.role == Tool && ms[k].info.callId != "" {
          var j :| base + u <= j < base + k && h[j].info.role == Assistant && h[base + k].info.callId in h[j].info.calls;
          assert ms[j - base] == h[j] && vs[j - base].info == h[j].info;
        }
      }
    }
  }

  lemma TurnLocalBefore(h: seq<Entry>, more: seq<Entry>)
    requires TurnLocal(h + more)
    ensures TurnLocal(h)
  {
    var all := h + more;
    assert forall i :: 0 <= i < |h| ==> all[i] == h[i];
    forall u: nat, k: nat | u <= k < |h| && IsUser(h[u]) && NoUser(h, u + 1, k + 1) ensures Answered(h, u, k) {
      assert Answered(all, u, k);
    }
  }

  ghost predicate AllAligned(h: seq<Entry>, cuts: seq<nat>) {
    forall k :: 1 <= k < |cuts| ==> Aligned(h, cuts[k])
  }

  /** A delivery kept at the front of the hot part by one spill, and not the front any more. */
  ghost predicate LeftAt(h: seq<Entry>, cuts: seq<nat>, p: nat) {
    p < |h| && h[p].delivery && !IsUser(h[p]) && exists k :: 1 <= k < |cuts| - 1 && cuts[k] == p
  }

  /** So on aligned cuts the messages lost are those before the first user message of all, and the deliveries at which an
      earlier spill cut. */
  lemma MissingDeliveries(h: seq<Entry>, cuts: seq<nat>, p: nat)
    requires Increasing(cuts, |h|) && AllAligned(h, cuts) && p < Last(cuts)
    ensures Missing(h, cuts, p) <==> NoUser(h, 0, p + 1) || LeftAt(h, cuts, p)
  {
    if Missing(h, cuts, p) {
      var k: nat :| OrphanIn(h, cuts, k, p);
      if k > 0 {
        assert Aligned(h, cuts[k]);
        assert cuts[k] == p;
      }
    }
    if LeftAt(h, cuts, p) {
      var k :| 1 <= k < |cuts| - 1 && cuts[k] == p;
      assert OrphanIn(h, cuts, k, p);
    }
    if NoUser(h, 0, p + 1) {
      if p < cuts[1] {
        assert OrphanIn(h, cuts, 0, p);
      } else {
        assert Aligned(h, cuts[1]);
        assert cuts[1] == p;
        assert OrphanIn(h, cuts, 1, p);
      }
    }
  }

  /** The history so far, the hot part and the warm buffer after some moves. */
  ghost predicate Moved(before: seq<Entry>, h: seq<Entry>, cuts: seq<nat>, messages: seq<Entry>, warm: seq<Entry>) {
    && Increasing(cuts, |h|)
    && messages == h[Last(cuts)..]
    && warm == before + Kept(h, cuts, Last(cuts))
    && (TurnLocal(h) ==> AllAligned(h, cuts))
  }

  lemma SaveMoves(before: seq<Entry>, h: seq<Entry>, cuts: seq<nat>, messages: seq<Entry>, warm: seq<Entry>, more: seq<Entry>)
    requires Moved(before, h, cuts, messages, warm)
    ensures Moved(before, h + more, cuts, messages + more, warm)
  {
    var last := Last(cuts);
    KeptGrows(h, more, cuts, last);
    assert (h + more)[last..] == h[last..] + more;
    if TurnLocal(h + more) {
      TurnLocalBefore(h, more);
      forall k | 1 <= k < |cuts| ensures Aligned(h + more, cuts[k]) {
        assert Aligned(h, cuts[k]);
      }
    }
  }

  lemma MoreCuts(h: seq<Entry>, cuts: seq<nat>, next: nat)
    requires Increasing(cuts, |h|) && Last(cuts) < next <= |h|
    ensures Increasing(cuts + [next], |h|) && Last(cuts + [next]) == next
    ensures AllAligned(h, cuts) && Aligned(h, next) ==> AllAligned(h, cuts + [next])
  {
    var more := cuts + [next];
    forall i, j | 0 <= i < j < |more| ensures more[i] < more[j] {
      assert i < |cuts| - 1 ==> cuts[i] < cuts[|cuts| - 1];
    }
  }

  lemma SpillKept(h: seq<Entry>, cuts: seq<nat>, next: nat)
    requires Increasing(cuts, |h|) && Last(cuts) < next <= |h|
    ensures Kept(h, cuts + [next], next) == Kept(h, cuts, Last(cuts)) + Flatten(Split(h[Last(cuts)..next]))
  {
    MoreCuts(h, cuts, next);
    KeptWithin(h, cuts, next, cuts + [next], next);
    FlattenSplit(h[Last(cuts)..next]);
    FromUser(h, Last(cuts), next);
  }

  lemma FromUser(h: seq<Entry>, lo: nat, n: nat)
    requires lo <= n <= |h|
    ensures h[lo..n][FirstUser(h[lo..n], n - lo)..] == h[UserFrom(h, lo, n)..n]
  {
    var part := h[lo..n];
    var f, g := FirstUser(part, n - lo), UserFrom(h, lo, n);
    assert f < n - lo ==> h[lo + f] == part[f];
    assert g < n ==> part[g - lo] == h[g];
    assert g == lo + f;
  }

  lemma SpillAligned(h: seq<Entry>, base: nat, maxTurns: int, cut: nat)
    requires TurnLocal(h) && base <= |h| && 0 < cut && HotStart(h[base..], maxTurns, cut)
    ensures Aligned(h, base + cut)
  {
    TurnLocalLegal(h, base);
    HotPart(h[base..], maxTurns, cut);
  }

  lemma MovedHot(before: seq<Entry>, h: seq<Entry>, cuts: seq<nat>, messages: seq<Entry>, warm: seq<Entry>)
    requires Moved(before, h, cuts, messages, warm)
    ensures Increasing(cuts, |h|) && Last(cuts) + |messages| == |h| && messages == h[Last(cuts)..]
    ensures warm == before + Kept(h, cuts, Last(cuts)) && (TurnLocal(h) ==> AllAligned(h, cuts))
  {
  }

  lemma SliceTwice(h: seq<Entry>, last: nat, cut: nat)
    requires last + cut <= |h|
    ensures h[last..][..cut] == h[last..last + cut] && h[last..][cut..] == h[last + cut..]
  {
  }

  lemma SpillMoves(
    before: seq<Entry>, h: seq<Entry>, cuts: seq<nat>, messages: seq<Entry>, warm: seq<Entry>, maxTurns: int, cut: nat)
    requires Moved(before, h, cuts, messages, warm)
    requires 0 < cut <= |messages| && HotStart(messages, maxTurns, cut)
    ensures Moved(before, h, cuts + [Last(cuts) + cut], messages[cut..], warm + Flatten(Split(messages[..cut])))
  {
    hide Moved, Increasing, HotStart, Last, Flatten, Split;
    MovedHot(before, h, cuts, messages, warm);
    SliceTwice(h, Last(cuts), cut);
    SpillMovesAt(before, h, cuts, warm, maxTurns, cut);
  }

  lemma SpillMovesAt(before: seq<Entry>, h: seq<Entry>, cuts: seq<nat>, warm: seq<Entry>, maxTurns: int, cut: nat)
    requires Increasing(cuts, |h|) && Moved(before, h, cuts, h[Last(cuts)..], warm)
    requires 0 < cut <= |h| - Last(cuts) && HotStart(h[Last(cuts)..], maxTurns, cut)
    ensures Increasing(cuts + [Last(cuts) + cut], |h|)
    ensures Moved(before, h, cuts + [Last(cuts) + cut], h[Last(cuts) + cut..],
                  warm + Flatten(Split(h[Last(cuts)..Last(cuts) + cut])))
  {
    hide *;
    var next: nat := Last(cuts) + cut;
    var kept, gain := Kept(h, cuts, Last(cuts)), Flatten(Split(h[Last(cuts)..next]));
    MovedHot(before, h, cuts, h[Last(cuts)..], warm);
    MoreCuts(h, cuts, next);
    if TurnLocal(h) {
      SpillAligned(h, Last(cuts), maxTurns, cut);
    }
    SpillKept(h, cuts, next);
    Associative(before, kept, gain);
    MovedThus(before, h, cuts + [next], warm + gain);
  }

  lemma MovedThus(before: seq<Entry>, h: seq<Entry>, cuts: seq<nat>, warm: seq<Entry>)
    requires Increasing(cuts, |h|) && Last(cuts) <= |h| && warm == before + Kept(h, cuts, Last(cuts))
    requires TurnLocal(h) ==> AllAligned(h, cuts)
    ensures Moved(before, h, cuts, h[Last(cuts)..], warm)
  {
  }

  /** Missing are the messages before the first user message, and the deliveries at which a spill before the last one cut
      the history. */
  ghost predicate OnlyDeliveriesLost(h: seq<Entry>, cuts: seq<nat>) {
    forall p: nat :: p < Last(cuts) && p < |h| ==> (Missing(h, cuts, p) <==> NoUser(h, 0, p + 1) || LeftAt(h, cuts, p))
  }

  lemma MovedLoses(before: seq<Entry>, h: seq<Entry>, cuts: seq<nat>, messages: seq<Entry>, warm: seq<Entry>)
    requires Moved(before, h, cuts, messages, warm)
    ensures TurnLocal(h) ==> OnlyDeliveriesLost(h, cuts)
  {
    if TurnLocal(h) {
      forall p: nat | p < Last(cuts) && p < |h| ensures Missing(h, cuts, p) <==> NoUser(h, 0, p + 1) || LeftAt(h, cuts, p) {
        MissingDeliveries(h, cuts, p);
      }
    }
  }

  lemma HistoryNext(start: seq<Entry>, moves: seq<Move>, n: nat)
    requires n < |moves|
    ensures History(start, moves, n + 1) == Extended(History(start, moves, n), moves[n])
  {
  }

  lemma FirstMove(before: seq<Entry>, start: seq<Entry>)
    ensures Moved(before, start, [0], start, before)
  {
    assert start[0..] == start;
    assert before + Kept(start, [0], 0) == before;
  }

  method MakeMove(session: Session, move: Move, maxTurns: int, ghost before: seq<Entry>, ghost h: seq<Entry>, ghost cuts: seq<nat>)
    returns (ghost more: seq<nat>)
    requires Moved(before, h, cuts, session.messages, WarmOf(session.stored))
    modifies session
    ensures Moved(before, Extended(h, move), more, session.messages, WarmOf(session.stored))
  {
    hide Moved;
    match move
    case Save(entries) =>
      more := cuts;
      SaveMoves(before, h, cuts, session.messages, WarmOf(session.stored), entries);
      session.messages := session.messages + entries;
    case Overflow =>
      more := SpillOverflow(session, maxTurns, before, h, cuts);
  }

  method SpillOverflow(session: Session, maxTurns: int, ghost before: seq<Entry>, ghost h: seq<Entry>, ghost cuts: seq<nat>)
    returns (ghost more: seq<nat>)
    requires Moved(before, h, cuts, session.messages, WarmOf(session.stored))
    modifies session
    ensures Moved(before, h, more, session.messages, WarmOf(session.stored))
  {
    hide Moved, Flatten, Split, HotStart;
    var cut := FindHotStartIdx(session.messages, maxTurns);
    more := cuts;
    ghost var warm, turns := WarmOf(session.stored), Split(session.messages[..cut]);
    if cut > 0 && !(session.stored.Unreadable? && turns != []) {
      SpillMoves(before, h, cuts, session.messages, warm, maxTurns, cut);
      more := cuts + [Last(cuts) + cut];
      if turns == [] {
        FlattenNone();
        assert warm + [] == warm;
      }
    }
    session.Spill(cut);
  }

  /** Any run of saves and spills: the history is cut at growing places, the hot part is what follows the last of them, and
      the warm buffer has gained, in order, exactly what is not missing before it.  When every turn's tool results answer
      calls of the same turn, only deliveries are lost, and what precedes the first user message. */
  method Converse(session: Session, moves: seq<Move>, maxTurns: int) returns (ghost cuts: seq<nat>)
    modifies session
    ensures var h := History(old(session.messages), moves, |moves|);
            && Moved(old(WarmOf(session.stored)), h, cuts, session.messages, WarmOf(session.stored))
            && (TurnLocal(h) ==> OnlyDeliveriesLost(h, cuts))
  {
    ghost var start, before := session.messages, WarmOf(session.stored);
    cuts := [0];
    FirstMove(before, start);
    assert History(start, moves, 0) == start;
    hide Moved, TurnLocal, OnlyDeliveriesLost, History, Extended;
    for i := 0 to |moves|
      invariant Moved(before, History(start, moves, i), cuts, session.messages, WarmOf(session.stored))
    {
      ghost var h := History(start, moves, i);
      HistoryNext(start, moves, i);
      cuts := MakeMove(session, moves[i], maxTurns, before, h, cuts);
    }
    MovedLoses(before, History(start, moves, |moves|), cuts, session.messages, WarmOf(session.stored));
  }

  /** Without tool results the hot part starts at the wish. */
  lemma StartsAtWish(ms: seq<Entry>, maxTurns: int, start: nat)
    requires HotStart(ms, maxTurns, start) && LimitOf(maxTurns) < |UserIndices(ms, |ms|)|
    requires forall i :: 0 <= i < |ms| ==> ms[i].info.role != Tool
    ensures start == Wish(ms, LimitOf(maxTurns))
  {
    var from := Wish(ms, LimitOf(maxTurns));
    assert LegalFrom(ms, from);
    assert Candidate(ms, from, from);
  }

  lemma ThreeIndices(x: Entry, y: Entry, z: Entry)
    requires IsUser(z) && IsUser(x) != IsUser(y)
    ensures UserIndices([x, y, z], 3) == [if IsUser(x) then 0 else 1, 2]
  {
    var ms := [x, y, z];
    assert UserIndices(ms, 1) == if IsUser(x) then [0] else [];
    assert UserIndices(ms, 2) == [if IsUser(x) then 0 else 1];
  }

  lemma SplitShort(x: Entry, u: Entry)
    requires IsUser(u) && !IsUser(x)
    ensures Split([u]) == [Exchange(u, [])] && Split([x, u]) == [Exchange(u, [])]
    ensures Flatten([Exchange(u, [])]) == [u]
  {
    assert SplitTo([u], 1) == Next(SplitTo([u], 0), u);
    assert SplitTo([x, u], 1) == Next(SplitTo([x, u], 0), x);
    assert SplitTo([x, u], 2) == Next(SplitTo([x, u], 1), u);
    assert FlattenTo([Exchange(u, [])], 0) == [];
  }

  /** An input: the delivery d stays at the front of the hot part when the turn it followed is spilled, and the next spill
      drops it. */
  method DeliveryIsDropped(session: Session, a: Entry, d: Entry, b: Entry, c: Entry)
    requires session.messages == [] && session.stored == NoBuffer
    requires IsUser(a) && IsUser(b) && IsUser(c) && d.delivery && d.info.role == Assistant && !b.delivery
    modifies session
    ensures session.messages == [c] && WarmOf(session.stored) == [a, b]
  {
    hide HotStart, Split, Flatten, UserIndices;
    SplitShort(d, a);
    SplitShort(d, b);
    ThreeIndices(a, d, b);
    ThreeIndices(d, b, c);
    session.messages := [a, d, b];
    var cut := FindHotStartIdx(session.messages, 1);
    StartsAtWish([a, d, b], 1, cut);
    assert cut == 1 && [a, d, b][..1] == [a] && [a, d, b][1..] == [d, b];
    session.Spill(cut);
    assert session.messages == [d, b] && WarmOf(session.stored) == [a];
    session.messages := session.messages + [c];
    assert session.messages == [d, b, c];
    cut := FindHotStartIdx(session.messages, 1);
    StartsAtWish([d, b, c], 1, cut);
    assert cut == 2 && [d, b, c][..2] == [d, b] && [d, b, c][2..] == [c];
    session.Spill(cut);
    assert [a] + [b] == [a, b];
  }
}
