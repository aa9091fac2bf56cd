/** Recovery of an interrupted turn: replaying a checkpoint onto the session and closing a turn of which only the user
    message was saved. */
module TurnPersist {
  import opened Actions

  datatype Role = User | Assistant | Tool | OtherRole

  /** What `checkpoint_message_key` compares. */
  datatype Key = Key(role: Role, content: string, callId: Option<string>, name: string, rest: string)

  datatype Message = Message(key: Key, timestamp: Option<int>)

  datatype Call = Call(id: Option<string>, name: Option<string>)

  /** The `runtime_checkpoint` entry: absent, not a dictionary, or a dictionary.  List items that are not dictionaries
      are None, as is an assistant message that is not one. */
  datatype Checkpoint =
    | Absent
    | NotADict
    | Turn(assistant: Option<Message>, results: seq<Option<Message>>, calls: seq<Option<Call>>)

  /** A session: its messages and the two metadata entries; an absent pending flag is None. */
  datatype Saved = Saved(messages: seq<Message>, checkpoint: Checkpoint, pending: Option<bool>)

  class Session {
    var messages: seq<Message>
    var checkpoint: Checkpoint
    var pending: Option<bool>
    var disk: Saved

    function State(): Saved
      reads this
    {
      Saved(messages, checkpoint, pending)
    }

    method Save()
      modifies this`disk
      ensures disk == State()
    {
      disk := Saved(messages, checkpoint, pending);
    }

    /** The process dies and the session is loaded again. */
    method CrashAndReload()
      modifies this
      ensures State() == disk == old(disk)
    {
      messages, checkpoint, pending := disk.messages, disk.checkpoint, disk.pending;
    }
  }

  const INTERRUPTED_TOOL := "Error: Task interrupted before this tool finished."
  const INTERRUPTED_TURN := "Error: Task interrupted before a response was generated."

  // ---- What a checkpoint restores ----

  function Stamped(m: Message, now: int): Message {
    if m.timestamp.Some? then m else m.(timestamp := Some(now))
  }

  function StampedAll(items: seq<Option<Message>>, now: int, n: nat): seq<Message>
    requires n <= |items|
  {
    if n == 0 then []
    else if items[n - 1].None? then StampedAll(items, now, n - 1)
    else StampedAll(items, now, n - 1) + [Stamped(items[n - 1].value, now)]
  }

  function Interrupted(c: Call, now: int): Message {
    var name := if c.name.Some? && c.name.value != "" then c.name.value else "tool";
    Message(Key(Tool, INTERRUPTED_TOOL, c.id, name, ""), Some(now))
  }

  function InterruptedAll(calls: seq<Option<Call>>, now: int, n: nat): seq<Message>
    requires n <= |calls|
  {
    if n == 0 then []
    else if calls[n - 1].None? then InterruptedAll(calls, now, n - 1)
    else InterruptedAll(calls, now, n - 1) + [Interrupted(calls[n - 1].value, now)]
  }

  function Restorable(cp: Checkpoint, now: int): seq<Message>
    requires cp.Turn?
  {
    (if cp.assistant.Some? then [Stamped(cp.assistant.value, now)] else [])
    + StampedAll(cp.results, now, |cp.results|)
    + InterruptedAll(cp.calls, now, |cp.calls|)
  }

  /** How many of the first `n` items are there at all. */
  function Given<T>(items: seq<Option<T>>, n: nat): nat
    requires n <= |items|
  {
    if n == 0 then 0 else Given(items, n - 1) + if items[n - 1].Some? then 1 else 0
  }

  lemma {:induction false} GivenGrows<T>(items: seq<Option<T>>, i: nat, n: nat)
    requires i < n <= |items| && items[i].Some?
    ensures Given(items, i) < Given(items, n)
  {
    if i + 1 < n {
      GivenGrows(items, i, n - 1);
    }
  }

  lemma {:induction false} StampedAt(items: seq<Option<Message>>, now: int, n: nat, i: nat)
    requires i < n <= |items|
    ensures |StampedAll(items, now, n)| == Given(items, n)
    ensures items[i].Some? ==>
              Given(items, i) < Given(items, n)
              && StampedAll(items, now, n)[Given(items, i)].key == items[i].value.key
              && StampedAll(items, now, n)[Given(items, i)].timestamp
                 == if items[i].value.timestamp.Some? then items[i].value.timestamp else Some(now)
  {
    if n == 1 {
      assert StampedAll(items, now, 0) == [];
    } else {
      StampedAt(items, now, n - 1, if i < n - 1 then i else 0);
    }
  }

  lemma {:induction false} InterruptedAt(calls: seq<Option<Call>>, now: int, n: nat, i: nat)
    requires i < n <= |calls|
    ensures |InterruptedAll(calls, now, n)| == Given(calls, n)
    ensures calls[i].Some? ==>
              Given(calls, i) < Given(calls, n)
              && InterruptedAll(calls, now, n)[Given(calls, i)] == Unfinished(calls[i].value.id, calls[i].value.name, now)
  {
    if n == 1 {
      assert InterruptedAll(calls, now, 0) == [];
    } else {
      InterruptedAt(calls, now, n - 1, if i < n - 1 then i else 0);
    }
  }

  /** The result that stands for a call that did not finish. */
  function Unfinished(id: Option<string>, name: Option<string>, now: int): Message {
    Message(Key(Tool, "Error: Task interrupted before this tool finished.", id,
                if name == None || name == Some("") then "tool" else name.value, ""),
            Some(now))
  }

  /** What a checkpoint dictionary restores: the assistant message if there is one; then, in order, every result that is a
      dictionary, with its key unchanged; then, in order, for every pending call that is one a Tool message with the call's
      id, its name or "tool", and the text for an interrupted tool; and nothing else. */
  ghost predicate RestoresAll(cp: Checkpoint, b: seq<Message>, now: int)
    requires cp.Turn?
  {
    var a := if cp.assistant.Some? then 1 else 0;
    var r := Given(cp.results, |cp.results|);
    && |b| == a + r + Given(cp.calls, |cp.calls|)
    && (cp.assistant.Some? ==> b[0].key == cp.assistant.value.key)
    && (forall i :: 0 <= i < |cp.results| && cp.results[i].Some? ==>
          a + Given(cp.results, i) < a + r && b[a + Given(cp.results, i)].key == cp.results[i].value.key)
    && (forall i :: 0 <= i < |cp.calls| && cp.calls[i].Some? ==>
          a + r + Given(cp.calls, i) < |b|
          && b[a + r + Given(cp.calls, i)] == Unfinished(cp.calls[i].value.id, cp.calls[i].value.name, now))
  }

  lemma StampedSize(items: seq<Option<Message>>, now: int)
    ensures |StampedAll(items, now, |items|)| == Given(items, |items|)
  {
    if items != [] {
      StampedAt(items, now, |items|, 0);
    }
  }

  lemma InterruptedSize(calls: seq<Option<Call>>, now: int)
    ensures |InterruptedAll(calls, now, |calls|)| == Given(calls, |calls|)
  {
    if calls != [] {
      InterruptedAt(calls, now, |calls|, 0);
    }
  }

  lemma CheckpointContent(cp: Checkpoint, now: int)
    requires cp.Turn?
    ensures RestoresAll(cp, Restorable(cp, now), now)
  {
    hide StampedAll, InterruptedAll, Given;
    var b, rs, cs := Restorable(cp, now), StampedAll(cp.results, now, |cp.results|), InterruptedAll(cp.calls, now, |cp.calls|);
    var a := if cp.assistant.Some? then 1 else 0;
    StampedSize(cp.results, now);
    InterruptedSize(cp.calls, now);
    assert forall j :: 0 <= j < |rs| ==> b[a + j] == rs[j];
    assert forall j :: 0 <= j < |cs| ==> b[a + |rs| + j] == cs[j];
    forall i | 0 <= i < |cp.results| && cp.results[i].Some?
      ensures Given(cp.results, i) < |rs| && rs[Given(cp.results, i)].key == cp.results[i].value.key
    {
      StampedAt(cp.results, now, |cp.results|, i);
    }
    forall i | 0 <= i < |cp.calls| && cp.calls[i].Some?
      ensures Given(cp.calls, i) < |cs|
      ensures cs[Given(cp.calls, i)] == Unfinished(cp.calls[i].value.id, cp.calls[i].value.name, now)
    {
      InterruptedAt(cp.calls, now, |cp.calls|, i);
    }
  }

  // ---- Overlap ----

  /** The last `n` messages of `a` are, key by key, the first `n` of `b`. */
  predicate Overlaps(a: seq<Message>, b: seq<Message>, n: nat) {
    n <= |a| && n <= |b| && forall i :: 0 <= i < n ==> a[|a| - n + i].key == b[i].key
  }

  /** The largest overlap of at most `n` messages. */
  function Overlap(a: seq<Message>, b: seq<Message>, n: nat): (size: nat)
    requires n <= |a| && n <= |b|
    ensures size <= n && Overlaps(a, b, size)
    ensures forall m :: size < m <= n ==> !Overlaps(a, b, m)
  {
    if n == 0 || Overlaps(a, b, n) then n else Overlap(a, b, n - 1)
  }

  function Shorter(a: seq<Message>, b: seq<Message>): nat {
    if |a| < |b| then |a| else |b|
  }

  /** The session's messages with what the checkpoint adds. */
  function Extended(a: seq<Message>, b: seq<Message>): (r: seq<Message>)
    ensures a <= r
  {
    a + b[Overlap(a, b, Shorter(a, b))..]
  }

  /** `r` ends, key by key, with `b`. */
  predicate EndsWith(r: seq<Message>, b: seq<Message>) {
    |b| <= |r| && forall i :: 0 <= i < |b| ==> r[|r| - |b| + i].key == b[i].key
  }

  lemma OverlapStep(a: seq<Message>, b: seq<Message>, n: nat)
    requires n <= |a| && n <= |b|
    ensures Overlap(a, b, n) == if n == 0 || Overlaps(a, b, n) then n else Overlap(a, b, n - 1)
  {
  }

  lemma SlicesOverlap(a: seq<Message>, b: seq<Message>, n: nat)
    requires n <= |a| && n <= |b|
    ensures Overlaps(a, b, n) <==> forall i :: 0 <= i < n ==> a[|a| - n..][i].key == b[..n][i].key
  {
    if forall i :: 0 <= i < n ==> a[|a| - n..][i].key == b[..n][i].key {
      forall i | 0 <= i < n ensures a[|a| - n + i].key == b[i].key {
        assert a[|a| - n..][i].key == b[..n][i].key;
      }
    }
  }

  method FindOverlap(a: seq<Message>, b: seq<Message>) returns (overlap: nat)
    ensures overlap == Overlap(a, b, Shorter(a, b))
  {
    hide Overlap, Overlaps;
    overlap := 0;
    var size := Shorter(a, b);
    OverlapStep(a, b, 0);
    while size > 0
      invariant 0 <= size <= Shorter(a, b) && overlap == 0
      invariant Overlap(a, b, size) == Overlap(a, b, Shorter(a, b))
    {
      var existing, restored := a[|a| - size..], b[..size];
      SlicesOverlap(a, b, size);
      OverlapStep(a, b, size);
      if forall i :: 0 <= i < size ==> existing[i].key == restored[i].key {
        return size;
      }
      size := size - 1;
    }
  }

  /** The extension ends with the restored messages, and no shorter extension of the session does. */
  lemma ShortestExtension(a: seq<Message>, b: seq<Message>, other: seq<Message>)
    ensures EndsWith(Extended(a, b), b)
    ensures EndsWith(a + other, b) ==> |Extended(a, b)| <= |a + other|
  {
    var size := Overlap(a, b, Shorter(a, b));
    var r := Extended(a, b);
    forall i | 0 <= i < |b| ensures r[|r| - |b| + i].key == b[i].key {
      if i < size {
        assert a[|a| - size + i].key == b[i].key;
      }
    }
    if EndsWith(a + other, b) && |other| < |b| {
      var n := |b| - |other|;
      forall i | 0 <= i < n ensures a[|a| - n + i].key == b[i].key {
        assert (a + other)[|a + other| - |b| + i].key == b[i].key;
      }
      assert Overlaps(a, b, n);
    }
  }

  lemma FullOverlap(r: seq<Message>, b: seq<Message>, c: seq<Message>)
    requires EndsWith(r, b) && |b| == |c| && forall i :: 0 <= i < |b| ==> b[i].key == c[i].key
    ensures |c| <= |r| && Overlaps(r, c, |c|)
  {
    forall i | 0 <= i < |c| ensures r[|r| - |c| + i].key == c[i].key {
      assert r[|r| - |b| + i].key == b[i].key;
    }
  }

  /** Replaying the same messages again adds nothing, even if they are stamped with another time. */
  lemma ExtendedAgain(a: seq<Message>, b: seq<Message>, c: seq<Message>)
    requires |b| == |c| && forall i :: 0 <= i < |b| ==> b[i].key == c[i].key
    ensures Extended(Extended(a, b), c) == Extended(a, b)
  {
    var r := Extended(a, b);
    hide Overlaps, EndsWith;
    ShortestExtension(a, b, []);
    FullOverlap(r, b, c);
    OverlapStep(r, c, |c|);
    hide Overlap;
    assert c[|c|..] == [] && r + [] == r;
  }

  lemma {:induction false} SameKeys(cp: Checkpoint, now: int, later: int)
    requires cp.Turn?
    ensures var b, c := Restorable(cp, now), Restorable(cp, later);
            |b| == |c| && forall i :: 0 <= i < |b| ==> b[i].key == c[i].key
  {
    StampedKeys(cp.results, now, later, |cp.results|);
    InterruptedKeys(cp.calls, now, later, |cp.calls|);
  }

  lemma {:induction false} StampedKeys(items: seq<Option<Message>>, now: int, later: int, n: nat)
    requires n <= |items|
    ensures var b, c := StampedAll(items, now, n), StampedAll(items, later, n);
            |b| == |c| && forall i :: 0 <= i < |b| ==> b[i].key == c[i].key
  {
    if n > 0 {
      StampedKeys(items, now, later, n - 1);
    }
  }

  lemma {:induction false} InterruptedKeys(calls: seq<Option<Call>>, now: int, later: int, n: nat)
    requires n <= |calls|
    ensures var b, c := InterruptedAll(calls, now, n), InterruptedAll(calls, later, n);
            |b| == |c| && forall i :: 0 <= i < |b| ==> b[i].key == c[i].key
  {
    if n > 0 {
      InterruptedKeys(calls, now, later, n - 1);
    }
  }

  // ---- The restore sequence ----

  function CheckpointRestored(s: Saved, now: int): Saved {
    if !s.checkpoint.Turn? then s
    else Saved(Extended(s.messages, Restorable(s.checkpoint, now)), Absent, None)
  }

  predicate Truthy(flag: Option<bool>) {
    flag.Some? && flag.value
  }

  predicate EndsWithUser(messages: seq<Message>) {
    messages != [] && messages[|messages| - 1].key.role == User
  }

  function TurnClosed(s: Saved, now: int): Saved {
    if !Truthy(s.pending) then s
    else
      var answer := Message(Key(Assistant, INTERRUPTED_TURN, None, "", ""), Some(now));
      Saved(if EndsWithUser(s.messages) then s.messages + [answer] else s.messages, s.checkpoint, None)
  }

  function Recovered(s: Saved, now: int): Saved {
    TurnClosed(CheckpointRestored(s, now), now)
  }

  method RestoreCheckpoint(session: Session, now: int) returns (restored: bool)
    modifies session`messages, session`checkpoint, session`pending
    ensures session.State() == CheckpointRestored(old(session.State()), now)
    ensures restored <==> old(session.checkpoint).Turn?
  {
    var cp := session.checkpoint;
    if !cp.Turn? {
      return false;
    }
    var messages := [];
    if cp.assistant.Some? {
      messages := [Stamped(cp.assistant.value, now)];
    }
    ghost var first := messages;
    for i := 0 to |cp.results|
      invariant messages == first + StampedAll(cp.results, now, i)
    {
      if cp.results[i].Some? {
        messages := messages + [Stamped(cp.results[i].value, now)];
      }
    }
    ghost var done := messages;
    for i := 0 to |cp.calls|
      invariant messages == done + InterruptedAll(cp.calls, now, i)
    {
      if cp.calls[i].Some? {
        messages := messages + [Interrupted(cp.calls[i].value, now)];
      }
    }
    var overlap := FindOverlap(session.messages, messages);
    session.messages := session.messages + messages[overlap..];
    session.pending := None;
    session.checkpoint := Absent;
    restored := true;
  }

  method RestorePendingUserTurn(session: Session, now: int) returns (restored: bool)
    modifies session`messages, session`pending
    ensures session.State() == TurnClosed(old(session.State()), now)
    ensures restored <==> Truthy(old(session.pending))
  {
    if !Truthy(session.pending) {
      return false;
    }
    if |session.messages| > 0 && session.messages[|session.messages| - 1].key.role == User {
      session.messages := session.messages + [Message(Key(Assistant, INTERRUPTED_TURN, None, "", ""), Some(now))];
    }
    session.pending := None;
    restored := true;
  }

  /** The restore part of state_restore, run before every turn. */
  method StateRestore(session: Session, now: int)
    modifies session
    ensures session.State() == Recovered(old(session.State()), now)
    ensures session.disk == session.State() || (session.disk == old(session.disk) && session.State() == old(session.State()))
  {
    var restored := RestoreCheckpoint(session, now);
    if restored {
      session.Save();
    }
    restored := RestorePendingUserTurn(session, now);
    if restored {
      session.Save();
    }
  }

  /** persist_user_message_early */
  method PersistUserMessageEarly(session: Session, content: Option<string>, media: seq<string>, pendingAsk: Option<string>, now: int)
    returns (persisted: bool)
    modifies session
    ensures persisted <==> (pendingAsk.None? || pendingAsk.value == "")
                           && ((content.Some? && Strip(content.value) != "") || exists p :: p in media && p != "")
    ensures !persisted ==> session.State() == old(session.State()) && session.disk == old(session.disk)
    ensures persisted ==> session.disk == session.State() && session.checkpoint == old(session.checkpoint)
                          && Truthy(session.pending)
                          && session.messages == old(session.messages)
                             + [Message(Key(User, if content.Some? then content.value else "", None, "", ""), Some(now))]
  {
    var hasMedia := exists p :: p in media && p != "";
    if (pendingAsk.None? || pendingAsk.value == "") && ((content.Some? && Strip(content.value) != "") || hasMedia) {
      var text := if content.Some? then content.value else "";
      session.messages := session.messages + [Message(Key(User, text, None, "", ""), Some(now))];
      session.pending := Some(true);
      session.Save();
      return true;
    }
    persisted := false;
  }

  // ---- What recovery guarantees ----

  /** Recovery always ends with the pending flag off, and with the checkpoint gone exactly when it was absent or a
      dictionary; running it again, at any later time, changes nothing. */
  lemma RecoveryClears(s: Saved, now: int, later: int)
    ensures !Truthy(Recovered(s, now).pending)
    ensures Recovered(s, now).checkpoint == Absent <==> s.checkpoint != NotADict
    ensures Recovered(Recovered(s, now), later) == Recovered(s, now)
    ensures s.messages <= Recovered(s, now).messages
  {
  }

  /** Restoring a checkpoint that is still on disk after it was restored adds nothing. */
  lemma RestoringTwice(s: Saved, now: int, later: int)
    requires s.checkpoint.Turn?
    ensures CheckpointRestored(CheckpointRestored(s, now).(checkpoint := s.checkpoint), later).messages
         == CheckpointRestored(s, now).messages
  {
    SameKeys(s.checkpoint, now, later);
    ExtendedAgain(s.messages, Restorable(s.checkpoint, now), Restorable(s.checkpoint, later));
  }

  lemma ExtensionEnds(a: seq<Message>, b: seq<Message>)
    ensures EndsWithUser(Extended(a, b)) <==> EndsWithUser(if b == [] then a else b)
  {
    ShortestExtension(a, b, []);
    var r := Extended(a, b);
    if b != [] {
      assert r[|r| - |b| + (|b| - 1)].key == b[|b| - 1].key;
    }
  }

  /** An early-persisted user message is left unanswered by recovery exactly when a checkpoint dictionary is there that
      restores nothing, or whose last restored message is itself a user message. */
  lemma DanglingUserMessage(s: Saved, now: int)
    requires Truthy(s.pending) && EndsWithUser(s.messages)
    ensures EndsWithUser(Recovered(s, now).messages) <==>
            s.checkpoint.Turn? && (Restorable(s.checkpoint, now) == [] || EndsWithUser(Restorable(s.checkpoint, now)))
  {
    if s.checkpoint.Turn? {
      ExtensionEnds(s.messages, Restorable(s.checkpoint, now));
    }
  }

  /** A tool message of the session answers this call. */
  ghost predicate Answered(messages: seq<Message>, id: Option<string>) {
    exists i :: 0 <= i < |messages| && messages[i].key.role == Tool && messages[i].key.callId == id
  }

  ghost predicate HasKey(messages: seq<Message>, key: Key) {
    exists i :: 0 <= i < |messages| && messages[i].key == key
  }

  lemma HasAnswer(messages: seq<Message>, key: Key)
    requires HasKey(messages, key) && key.role == Tool
    ensures Answered(messages, key.callId)
  {
  }

  lemma EndsWithKey(r: seq<Message>, u: seq<Message>, b: seq<Message>, j: nat)
    requires EndsWith(r, b) && r <= u && j < |b|
    ensures HasKey(u, b[j].key)
  {
    assert u[|r| - |b| + j] == r[|r| - |b| + j];
  }

  lemma RecoveredGrows(s: Saved, now: int)
    requires s.checkpoint.Turn?
    ensures Extended(s.messages, Restorable(s.checkpoint, now)) <= Recovered(s, now).messages
  {
    hide Extended, Restorable;
  }

  /** Every restored message is in the recovered session, key by key. */
  lemma RestoredStays(s: Saved, now: int, j: nat)
    requires s.checkpoint.Turn? && j < |Restorable(s.checkpoint, now)|
    ensures HasKey(Recovered(s, now).messages, Restorable(s.checkpoint, now)[j].key)
  {
    hide *;
    var b := Restorable(s.checkpoint, now);
    ShortestExtension(s.messages, b, []);
    RecoveredGrows(s, now);
    EndsWithKey(Extended(s.messages, b), Recovered(s, now).messages, b, j);
  }

  lemma ResultAnswered(s: Saved, now: int, i: nat)
    requires s.checkpoint.Turn? && i < |s.checkpoint.results| && s.checkpoint.results[i].Some?
    requires s.checkpoint.results[i].value.key.role == Tool
    ensures Answered(Recovered(s, now).messages, s.checkpoint.results[i].value.key.callId)
  {
    var cp := s.checkpoint;
    CheckpointContent(cp, now);
    hide Restorable, Given, Recovered;
    var j := (if cp.assistant.Some? then 1 else 0) + Given(cp.results, i);
    assert Restorable(cp, now)[j].key == cp.results[i].value.key;
    RestoredStays(s, now, j);
    HasAnswer(Recovered(s, now).messages, cp.results[i].value.key);
  }

  lemma PendingAnswered(s: Saved, now: int, i: nat)
    requires s.checkpoint.Turn? && i < |s.checkpoint.calls| && s.checkpoint.calls[i].Some?
    ensures Answered(Recovered(s, now).messages, s.checkpoint.calls[i].value.id)
  {
    var cp := s.checkpoint;
    CheckpointContent(cp, now);
    hide Restorable, Given, Recovered;
    var j := (if cp.assistant.Some? then 1 else 0) + Given(cp.results, |cp.results|) + Given(cp.calls, i);
    assert Restorable(cp, now)[j] == Unfinished(cp.calls[i].value.id, cp.calls[i].value.name, now);
    RestoredStays(s, now, j);
    HasAnswer(Recovered(s, now).messages, Restorable(cp, now)[j].key);
  }

  /** Recovery leaves no call of the checkpoint open: each one with a result, and each one still pending, is answered. */
  lemma CallsAnswered(s: Saved, now: int)
    requires s.checkpoint.Turn?
    ensures forall i :: 0 <= i < |s.checkpoint.results| && s.checkpoint.results[i].Some?
                        && s.checkpoint.results[i].value.key.role == Tool ==>
              Answered(Recovered(s, now).messages, s.checkpoint.results[i].value.key.callId)
    ensures forall i :: 0 <= i < |s.checkpoint.calls| && s.checkpoint.calls[i].Some? ==>
              Answered(Recovered(s, now).messages, s.checkpoint.calls[i].value.id)
  {
    hide Answered, Recovered;
    forall i | 0 <= i < |s.checkpoint.results| && s.checkpoint.results[i].Some?
               && s.checkpoint.results[i].value.key.role == Tool
      ensures Answered(Recovered(s, now).messages, s.checkpoint.results[i].value.key.callId)
    {
      ResultAnswered(s, now, i);
    }
    forall i | 0 <= i < |s.checkpoint.calls| && s.checkpoint.calls[i].Some?
      ensures Answered(Recovered(s, now).messages, s.checkpoint.calls[i].value.id)
    {
      PendingAnswered(s, now, i);
    }
  }

  /** Closing a turn adds the answer for an interrupted turn if and only if the flag is on and the user spoke last, and
      changes nothing else but the flag. */
  lemma ClosingAnswers(s: Saved, now: int)
    ensures var u := TurnClosed(s, now);
            && (s.pending == Some(true) ==> u.pending.None?) && (s.pending != Some(true) ==> u == s)
            && u.checkpoint == s.checkpoint
            && u.messages == if s.pending == Some(true) && s.messages != [] && s.messages[|s.messages| - 1].key.role == User
                             then s.messages + [Message(Key(Assistant, "Error: Task interrupted before a response was generated.",
                                                            None, "", ""), Some(now))]
                             else s.messages
  {
  }

  /** set_checkpoint */
  method SetCheckpoint(session: Session, payload: Checkpoint)
    modifies session`checkpoint, session`disk
    ensures session.checkpoint == payload && session.disk == session.State()
  {
    session.checkpoint := payload;
    session.Save();
  }

  /** A turn that saved its user message and any number of checkpoints and then died: after a reload and a recovery the
      message is still there, directly after the history; it is answered, unless the last checkpoint is a dictionary
      that leaves it dangling; and dying again during recovery loses and repeats nothing. */
  method InterruptedTurn(session: Session, text: string, checkpoints: seq<Checkpoint>, now: int, later: int, again: int)
    requires Strip(text) != "" && session.checkpoint == Absent
    modifies session
    ensures |session.messages| > |old(session.messages)|
    ensures session.messages[..|old(session.messages)|] == old(session.messages)
    ensures session.messages[|old(session.messages)|].key == Key(User, text, None, "", "")
    ensures var last := if checkpoints == [] then Absent else checkpoints[|checkpoints| - 1];
            EndsWithUser(session.messages) <==>
              last.Turn? && (Restorable(last, later) == [] || EndsWithUser(Restorable(last, later)))
    ensures !Truthy(session.pending)
  {
    hide Extended, Restorable, Strip;
    var _ := PersistUserMessageEarly(session, Some(text), [], None, now);
    ghost var history := old(session.messages);
    ghost var saved := session.messages;
    for i := 0 to |checkpoints|
      invariant session.messages == saved && Truthy(session.pending) && session.disk == session.State()
      invariant session.checkpoint == if i == 0 then Absent else checkpoints[i - 1]
    {
      SetCheckpoint(session, checkpoints[i]);
    }
    session.CrashAndReload();
    ghost var dead := session.State();
    DanglingUserMessage(dead, later);
    RecoveryClears(dead, later, again);
    StateRestore(session, later);
    session.CrashAndReload();
    StateRestore(session, again);
    assert saved <= session.messages && saved[..|history|] == history;
  }
}
