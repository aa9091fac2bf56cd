/** The confirmation file and the stores that read it through a signature cache: every locked section, done in place
    on the list it reads, has exactly the effect on the file that the corresponding function has on the table. */
module ConfirmationStore {
  import opened Actions
  import opened Confirmations

  // ---- What a file holds ----

  /** An entry of the `confirmations` list: not a dictionary, one that `from_dict` refuses, or a record. */
  datatype Entry = NotADict | Malformed | Record(c: Confirmation)

  datatype Content = Missing | Unreadable | Items(entries: seq<Entry>)

  function DictsIn(entries: seq<Entry>): seq<Entry> {
    if entries == [] then []
    else (if entries[0].NotADict? then [] else [entries[0]]) + DictsIn(entries[1..])
  }

  /** A fresh parse of the file. */
  function Dicts(content: Content): seq<Entry> {
    if content.Items? then DictsIn(content.entries) else []
  }

  function RecordsIn(entries: seq<Entry>): seq<Confirmation> {
    if entries == [] then []
    else (if entries[0].Record? then [entries[0].c] else []) + RecordsIn(entries[1..])
  }

  function Records(content: Content): seq<Confirmation> {
    RecordsIn(Dicts(content))
  }

  /** How many of the first `n` entries are records. */
  function RecordsAmong(entries: seq<Entry>, n: nat): nat
    requires n <= |entries|
  {
    if n == 0 then 0 else RecordsAmong(entries, n - 1) + if entries[n - 1].Record? then 1 else 0
  }

  lemma {:induction false} AmongShift(entries: seq<Entry>, n: nat)
    requires 0 < n <= |entries|
    ensures RecordsAmong(entries, n) == RecordsAmong(entries[1..], n - 1) + if entries[0].Record? then 1 else 0
  {
    if n > 1 {
      AmongShift(entries, n - 1);
      assert entries[1..][n - 2] == entries[n - 1];
    }
  }

  lemma {:induction false} OnlyDictsMatter(entries: seq<Entry>)
    ensures RecordsIn(DictsIn(entries)) == RecordsIn(entries)
  {
    if entries != [] {
      var rest := DictsIn(entries[1..]);
      OnlyDictsMatter(entries[1..]);
      assert ([entries[0]] + rest)[1..] == rest && [] + rest == rest;
    }
  }

  lemma {:induction false} RecordAt(entries: seq<Entry>, i: nat)
    requires i < |entries|
    ensures |RecordsIn(entries)| == RecordsAmong(entries, |entries|)
    ensures entries[i].Record? ==>
              RecordsAmong(entries, i) < |RecordsIn(entries)| && RecordsIn(entries)[RecordsAmong(entries, i)] == entries[i].c
  {
    AmongShift(entries, |entries|);
    if i > 0 {
      AmongShift(entries, i);
      assert entries[1..][i - 1] == entries[i];
      RecordAt(entries[1..], i - 1);
    } else if |entries| > 1 {
      RecordAt(entries[1..], 0);
    }
  }

  /** What a file that can be read gives: the records among its entries, all of them, in order, whatever stands between. */
  lemma RecordsAre(entries: seq<Entry>)
    ensures var r := Records(Items(entries));
            && |r| == RecordsAmong(entries, |entries|)
            && forall i :: 0 <= i < |entries| && entries[i].Record? ==>
                 RecordsAmong(entries, i) < |r| && r[RecordsAmong(entries, i)] == entries[i].c
  {
    OnlyDictsMatter(entries);
    hide RecordsIn, DictsIn;
    forall i | 0 <= i < |entries| && entries[i].Record?
      ensures RecordsAmong(entries, i) < |RecordsIn(entries)| && RecordsIn(entries)[RecordsAmong(entries, i)] == entries[i].c
    {
      RecordAt(entries, i);
    }
    if entries != [] {
      RecordAt(entries, 0);
    } else {
      NoRecords();
    }
  }

  lemma NoRecords()
    ensures RecordsIn([]) == []
  {
  }

  ghost predicate Unique(r: seq<Confirmation>) {
    forall i, j :: 0 <= i < j < |r| ==> r[i].id != r[j].id
  }

  ghost function TableOf(r: seq<Confirmation>): (t: Table)
    requires Unique(r)
    ensures forall i :: 0 <= i < |r| ==> r[i].id in t && t[r[i].id] == r[i]
    ensures forall id :: id in t ==> exists i :: 0 <= i < |r| && r[i].id == id
  {
    map c | c in r :: c.id := c
  }

  lemma TableUpdate(r: seq<Confirmation>, i: nat, d: Confirmation)
    requires Unique(r) && i < |r| && d.id == r[i].id
    ensures Unique(r[i := d]) && TableOf(r[i := d]) == TableOf(r)[d.id := d]
  {
    var u := r[i := d];
    assert u[i] == d && forall k :: 0 <= k < |r| && k != i ==> u[k] == r[k];
    forall id ensures id in TableOf(u) <==> id in TableOf(r)[d.id := d] {
      if id in TableOf(r) && id != d.id {
        var k :| 0 <= k < |r| && r[k].id == id;
        assert u[k] == r[k];
      }
    }
  }

  lemma TableAppend(r: seq<Confirmation>, d: Confirmation)
    requires Unique(r) && d.id !in TableOf(r)
    ensures Unique(r + [d]) && TableOf(r + [d]) == TableOf(r)[d.id := d]
  {
    var u := r + [d];
    assert forall k :: 0 <= k < |r| ==> u[k] == r[k];
    assert u[|r|] == d;
    forall id ensures id in TableOf(u) <==> id in TableOf(r)[d.id := d] {
      if id in TableOf(r) {
        var k :| 0 <= k < |r| && r[k].id == id;
        assert u[k].id == id;
      }
    }
  }

  lemma NotListed(r: seq<Confirmation>, id: nat)
    requires Unique(r) && forall k :: 0 <= k < |r| ==> r[k].id != id
    ensures id !in TableOf(r)
  {
  }

  // ---- Sorting by (created_at, confirmation_id) ----

  predicate Before(a: Confirmation, b: Confirmation) {
    a.createdAt < b.createdAt || (a.createdAt == b.createdAt && a.id <= b.id)
  }

  predicate Sorted(r: seq<Confirmation>) {
    forall i, j :: 0 <= i < j < |r| ==> Before(r[i], r[j])
  }

  function Insert(c: Confirmation, r: seq<Confirmation>): (s: seq<Confirmation>)
    ensures multiset(s) == multiset(r) + multiset{c}
    ensures |s| == |r| + 1
  {
    if r == [] || Before(c, r[0]) then [c] + r
    else
      assert r == [r[0]] + r[1..];
      [r[0]] + Insert(c, r[1..])
  }

  function SortRecords(r: seq<Confirmation>): (s: seq<Confirmation>)
    ensures multiset(s) == multiset(r) && |s| == |r|
  {
    if r == [] then []
    else
      assert r == [r[0]] + r[1..];
      Insert(r[0], SortRecords(r[1..]))
  }

  lemma {:induction false} InsertSorted(c: Confirmation, r: seq<Confirmation>)
    requires Sorted(r)
    ensures Sorted(Insert(c, r))
  {
    if r != [] && !Before(c, r[0]) {
      var rest, tail := r[1..], Insert(c, r[1..]);
      InsertSorted(c, rest);
      forall j | 0 <= j < |tail| ensures Before(r[0], tail[j]) {
        assert tail[j] in multiset(rest) + multiset{c};
      }
    }
  }

  lemma {:induction false} SortSorts(r: seq<Confirmation>)
    ensures Sorted(SortRecords(r))
    ensures forall i, j :: 0 <= i < j < |r| ==>
              var a, b := SortRecords(r)[i], SortRecords(r)[j];
              a.createdAt < b.createdAt || (a.createdAt == b.createdAt && a.id <= b.id)
  {
    if r != [] {
      SortSorts(r[1..]);
      InsertSorted(r[0], SortRecords(r[1..]));
    }
  }

  lemma {:induction false} InsertUnique(c: Confirmation, r: seq<Confirmation>)
    requires Unique(r) && forall k :: 0 <= k < |r| ==> r[k].id != c.id
    ensures Unique(Insert(c, r))
  {
    if r != [] && !Before(c, r[0]) {
      var rest, tail := r[1..], Insert(c, r[1..]);
      InsertUnique(c, rest);
      forall j | 0 <= j < |tail| ensures tail[j].id != r[0].id {
        assert tail[j] in multiset(rest) + multiset{c};
      }
    }
  }

  /** Sorting neither adds, drops nor duplicates an id. */
  lemma {:induction false} SortKeepsTable(r: seq<Confirmation>)
    requires Unique(r)
    ensures Unique(SortRecords(r)) && TableOf(SortRecords(r)) == TableOf(r)
  {
    hide TableOf, Before, Insert;
    if r != [] {
      var rest := r[1..];
      SortKeepsTable(rest);
      var sorted := SortRecords(rest);
      forall k | 0 <= k < |sorted| ensures sorted[k].id != r[0].id {
        assert sorted[k] in multiset(rest);
      }
      InsertUnique(r[0], sorted);
    }
    SameMembers(r, SortRecords(r));
  }

  lemma SameMembers(r: seq<Confirmation>, s: seq<Confirmation>)
    requires Unique(r) && Unique(s) && multiset(r) == multiset(s)
    ensures TableOf(r) == TableOf(s)
  {
    assert forall c :: c in r <==> c in multiset(r);
    assert forall c :: c in s <==> c in multiset(s);
  }

  function Entries(r: seq<Confirmation>): (e: seq<Entry>)
    ensures |e| == |r| && forall i :: 0 <= i < |r| ==> e[i] == Record(r[i])
  {
    seq(|r|, i requires 0 <= i < |r| => Record(r[i]))
  }

  lemma {:induction false} EntriesParse(r: seq<Confirmation>)
    ensures DictsIn(Entries(r)) == Entries(r) && RecordsIn(Entries(r)) == r
  {
    if r != [] {
      assert Entries(r)[1..] == Entries(r[1..]);
      EntriesParse(r[1..]);
    }
  }

  // ---- The file and the stores ----

  /** The pending-confirmations file.  `stamp` numbers its writes: each gives a signature never seen before. */
  class ConfirmationFile {
    var content: Content
    var stamp: nat

    /** (st_mtime_ns, st_size), or None when there is no file */
    function Signature(): Option<nat>
      reads this
    {
      if content.Missing? then None else Some(stamp)
    }

    ghost predicate Valid()
      reads this
    {
      Unique(Records(content))
    }

    ghost function Table(): Table
      reads this
      requires Valid()
    {
      TableOf(Records(content))
    }
  }

  class PendingConfirmationStore {
    const file: ConfirmationFile
    var cachedSignature: Option<nat>
    var cachedRaw: seq<Entry>

    /** Whenever the cache would be used, it holds what a fresh parse of the file gives. */
    ghost predicate Agrees()
      reads this, file
    {
      cachedSignature.Some? ==>
        cachedSignature.value <= file.stamp && (cachedSignature == file.Signature() ==> cachedRaw == Dicts(file.content))
    }

    predicate Hit()
      reads this, file
    {
      file.Signature().Some? && file.Signature() == cachedSignature
    }

    constructor (f: ConfirmationFile)
      ensures file == f && Agrees()
    {
      file := f;
      cachedSignature := None;
      cachedRaw := [];
    }

    /** What the next load returns when the file can be read. */
    function Seen(): seq<Entry>
      reads this, file
    {
      if Hit() then cachedRaw else Dicts(file.content)
    }

    /** _load_raw_confirmations_unlocked; `fails` is a read that raises although the file is there. */
    method Load(fails: bool) returns (raw: seq<Entry>)
      modifies this
      ensures !fails || old(Hit()) ==> raw == old(Seen()) && (old(Agrees()) ==> raw == Dicts(file.content) && Agrees())
      ensures fails && !old(Hit()) ==> raw == [] && (Agrees() <==> Dicts(file.content) == [])
      ensures cachedSignature == file.Signature() && (cachedSignature.Some? ==> cachedRaw == raw)
    {
      var signature := file.Signature();
      if signature.Some? && signature == cachedSignature {
        return cachedRaw;
      }
      raw := if fails then [] else Dicts(file.content);
      cachedRaw := raw;
      cachedSignature := file.Signature();
    }

    /** read_all_unlocked */
    method ReadAll() returns (records: seq<Confirmation>)
      modifies this
      ensures records == RecordsIn(old(Seen()))
      ensures old(Agrees()) ==> records == Records(file.content) && Agrees()
    {
      var items := Load(false);
      records := [];
      for i := 0 to |items|
        invariant records + RecordsIn(items[i..]) == RecordsIn(items)
      {
        if items[i].Record? {
          records := records + [items[i].c];
        }
        assert items[i..][1..] == items[i + 1..];
      }
    }

    /** write_all_unlocked */
    method WriteAll(records: seq<Confirmation>)
      requires Unique(records)
      modifies this, file
      ensures Agrees() && file.stamp == old(file.stamp) + 1
      ensures file.Valid() && file.Table() == TableOf(records)
      ensures Records(file.content) == SortRecords(records) && Sorted(Records(file.content))
    {
      hide Before, Insert, TableOf, DictsIn, RecordsIn;
      var sorted := SortRecords(records);
      file.content := Items(Entries(sorted));
      file.stamp := file.stamp + 1;
      cachedRaw := Entries(sorted);
      cachedSignature := file.Signature();
      EntriesParse(sorted);
      SortSorts(records);
      SortKeepsTable(records);
    }

    /** What every locked section keeps. */
    twostate predicate Kept()
      reads this, file
    {
      && Agrees() && file.Valid()
      && old(file.stamp) <= file.stamp
      && (file.stamp == old(file.stamp) ==> file.content == old(file.content))
      && (old(Sorted(Records(file.content))) || file.stamp != old(file.stamp) ==> Sorted(Records(file.content)))
    }

    /** next(... if confirmation_id == id), as a position; the length when there is none */
    static method Find(records: seq<Confirmation>, id: nat) returns (k: nat)
      ensures k <= |records| && (k < |records| ==> records[k].id == id)
      ensures forall j :: 0 <= j < k ==> records[j].id != id
    {
      k := 0;
      while k < |records| && records[k].id != id
        invariant k <= |records| && forall j :: 0 <= j < k ==> records[j].id != id
      {
        k := k + 1;
      }
    }

    method Upsert(c: Confirmation)
      requires Agrees() && file.Valid()
      modifies this, file
      ensures Kept()
      ensures file.Table() == old(file.Table())[c.id := c]
    {
      var records := ReadAll();
      var k := Find(records, c.id);
      if k < |records| {
        TableUpdate(records, k, c);
        records := records[k := c];
      } else {
        NotListed(records, c.id);
        TableAppend(records, c);
        records := records + [c];
      }
      WriteAll(records);
    }

    method Get(id: nat) returns (found: Option<Confirmation>)
      requires Agrees() && file.Valid()
      modifies this
      ensures Kept()
      ensures found == if id in file.Table() then Some(file.Table()[id]) else None
    {
      var records := ReadAll();
      for i := 0 to |records|
        invariant forall k :: 0 <= k < i ==> records[k].id != id
      {
        if records[i].id == id {
          return Some(records[i]);
        }
      }
      NotListed(records, id);
      found := None;
    }

    method ClaimConsumption(id: nat, now: int, kinds: set<Kind>) returns (claimed: Option<Confirmation>)
      requires Agrees() && file.Valid()
      modifies this, file
      ensures Kept()
      ensures (file.Table(), claimed) == Claim(old(file.Table()), id, now, kinds)
    {
      var records := ReadAll();
      for i := 0 to |records|
        invariant forall k :: 0 <= k < i ==> records[k].id != id
        invariant file.content == old(file.content) && file.stamp == old(file.stamp) && Agrees()
      {
        var c := records[i];
        if c.id == id {
          if Lapsed(c, now) {
            TableUpdate(records, i, Lapse(c));
            records := records[i := Lapse(c)];
            WriteAll(records);
            return None;
          }
          if c.kind !in kinds || c.status != ConfirmedOnce || c.consumedAt.Some? {
            return None;
          }
          c := c.(consumedAt := Some(now));
          TableUpdate(records, i, c);
          records := records[i := c];
          WriteAll(records);
          return Some(c);
        }
      }
      NotListed(records, id);
      claimed := None;
    }

    method ExpireConfirmationIfNeeded(id: nat, now: int) returns (found: Option<Confirmation>)
      requires Agrees() && file.Valid()
      modifies this, file
      ensures Kept()
      ensures (file.Table(), found) == ExpireIfNeeded(old(file.Table()), id, now)
    {
      var records := ReadAll();
      for i := 0 to |records|
        invariant forall k :: 0 <= k < i ==> records[k].id != id
        invariant file.content == old(file.content) && file.stamp == old(file.stamp) && Agrees()
      {
        var c := records[i];
        if c.id == id {
          if Lapsed(c, now) {
            c := Lapse(c);
            TableUpdate(records, i, c);
            records := records[i := c];
            WriteAll(records);
          }
          return Some(c);
        }
      }
      NotListed(records, id);
      found := None;
    }

    method ResolveUserReply(id: nat, now: int, reply: Reply, caller: Option<string>) returns (decision: Resolution)
      requires Agrees() && file.Valid()
      modifies this, file
      ensures Kept()
      ensures (file.Table(), decision) == Resolve(old(file.Table()), id, now, reply, caller)
    {
      var records := ReadAll();
      var k := Find(records, id);
      if k == |records| {
        NotListed(records, id);
        return ResolvedUnclear;
      }
      var target := records[k];
      if Lapsed(target, now) {
        target, decision := target.(status := Expired), ResolvedExpired;
      } else if target.kind == Notification {
        return ResolvedRejected;
      } else if target.status != Pending {
        return ResolvedUnclear;
      } else if target.ownerId.Some? && caller.Some? && caller.value != target.ownerId.value {
        return ResolvedRejected;
      } else {
        match reply {
          case Confirms => target, decision := target.(status := ConfirmedOnce), ResolvedConfirmed;
          case Rejects => target, decision := target.(status := Rejected), ResolvedRejected;
          case Persists => target, decision := target.(status := ConfirmedPersistent), ResolvedPersistent;
          case Unclear => return ResolvedUnclear;
        }
      }
      TableUpdate(records, k, target);
      WriteAll(records[k := target]);
    }

    /** The loop of expire_old over the list it read. */
    static method SweepRecords(before: seq<Confirmation>, now: int) returns (records: seq<Confirmation>, changed: nat)
      requires Unique(before)
      ensures |records| == |before| && forall k :: 0 <= k < |records| ==> records[k] == Sweep(before[k], now)
      ensures changed == |Swept(before, |before|, now)| && (changed == 0 ==> records == before)
    {
      hide Swept, Unique;
      records, changed := before, 0;
      SweptNone(before, now);
      for i := 0 to |records|
        invariant |records| == |before| && changed == |Swept(before, i, now)|
        invariant forall k :: 0 <= k < i ==> records[k] == Sweep(before[k], now)
        invariant forall k :: i <= k < |before| ==> records[k] == before[k]
        invariant changed == 0 ==> records == before
      {
        SweptNext(before, i, now);
        if (records[i].status == Pending || records[i].status == Notified) && Lapsed(records[i], now) {
          records := records[i := records[i].(status := Expired)];
          changed := changed + 1;
        }
      }
    }

    method ExpireOldRecords(now: int) returns (changed: nat)
      requires Agrees() && file.Valid()
      modifies this, file
      ensures Kept()
      ensures file.Table() == ExpireOld(old(file.Table()), now)
      ensures changed == |set id | id in old(file.Table()) && Sweepable(old(file.Table())[id], now)|
    {
      hide Swept, Sweep, Sweepable, TableOf, ExpireOld;
      var before := ReadAll();
      var records;
      records, changed := SweepRecords(before, now);
      SweepTable(before, records, now);
      SweptIds(before, now);
      if changed > 0 {
        WriteAll(records);
      }
    }

    method RetryConfirmation(id: nat, requestedBy: Option<string>, now: int, ttl: nat, newId: nat) returns (r: RetryResult)
      requires Agrees() && file.Valid() && newId !in file.Table()
      modifies this, file
      ensures Kept()
      ensures (file.Table(), r) == Retry(old(file.Table()), id, requestedBy, now, ttl, newId)
    {
      var records := ReadAll();
      var k := Find(records, id);
      if k == |records| {
        NotListed(records, id);
        return NotFound;
      }
      var target := records[k];
      if target.kind != ActionConfirmation && target.kind != ToolApproval {
        return NotAllowed;
      }
      if target.status != Expired || target.consumedAt.Some? {
        return NotAllowed;
      }
      if !Present(target.snapshot.action) || target.prompt == "" || target.decisionReason == "" {
        return NotAllowed;
      }
      if target.retry.count + 1 > MAX_RETRIES {
        return LimitReached;
      }
      var retried := RetryOf(target, requestedBy, now, ttl, newId);
      TableAppend(records, retried);
      WriteAll(records + [retried]);
      r := Retried(retried);
    }

    /** One locked section, whichever it is. */
    method Do(op: Op)
      requires Agrees() && file.Valid() && Legal(file.Table(), op)
      modifies this, file
      ensures Kept()
      ensures file.Table() == Apply(old(file.Table()), op)
    {
      match op
      case DoCreate(c) => Upsert(c);
      case DoClaim(id, now, kinds) => var _ := ClaimConsumption(id, now, kinds);
      case DoExpire(id, now) => var _ := ExpireConfirmationIfNeeded(id, now);
      case DoResolve(id, now, reply, caller) => var _ := ResolveUserReply(id, now, reply, caller);
      case DoExpireOld(now) => var _ := ExpireOldRecords(now);
      case DoRetry(id, who, now, ttl, newId) => var _ := RetryConfirmation(id, who, now, ttl, newId);
    }
  }

  /** A table entry is one of the listed records. */
  lemma Listed(r: seq<Confirmation>, id: nat) returns (k: nat)
    requires Unique(r) && id in TableOf(r)
    ensures k < |r| && r[k].id == id && TableOf(r)[id] == r[k]
  {
    k :| 0 <= k < |r| && r[k].id == id;
  }

  lemma SweepTable(r: seq<Confirmation>, s: seq<Confirmation>, now: int)
    requires Unique(r) && |s| == |r| && forall k :: 0 <= k < |r| ==> s[k] == Sweep(r[k], now)
    ensures Unique(s) && TableOf(s) == ExpireOld(TableOf(r), now)
  {
    assert forall k :: 0 <= k < |r| ==> s[k].id == r[k].id;
    assert Unique(s);
    hide Sweep, Unique, TableOf;
    var t, u := TableOf(s), ExpireOld(TableOf(r), now);
    forall id | id in u ensures id in t && t[id] == u[id] {
      var k := Listed(r, id);
      assert s[k].id == id;
    }
    forall id | id in t ensures id in u {
      var k := Listed(s, id);
      assert r[k].id == id;
    }
  }

  /** The ids that a sweep of the first `n` records expires. */
  ghost function Swept(r: seq<Confirmation>, n: nat, now: int): set<nat>
    requires n <= |r|
  {
    set k | 0 <= k < n && Sweepable(r[k], now) :: r[k].id
  }

  lemma SweptNone(r: seq<Confirmation>, now: int)
    ensures |Swept(r, 0, now)| == 0
  {
    assert Swept(r, 0, now) == {};
  }

  lemma SweptNext(r: seq<Confirmation>, n: nat, now: int)
    requires Unique(r) && n < |r|
    ensures Swept(r, n + 1, now) == Swept(r, n, now) + if Sweepable(r[n], now) then {r[n].id} else {}
    ensures |Swept(r, n + 1, now)| == |Swept(r, n, now)| + if Sweepable(r[n], now) then 1 else 0
  {
    hide Sweepable;
    assert r[n].id !in Swept(r, n, now);
  }

  lemma SweptIds(r: seq<Confirmation>, now: int)
    requires Unique(r)
    ensures Swept(r, |r|, now) == set id | id in TableOf(r) && Sweepable(TableOf(r)[id], now)
  {
    hide Sweepable, Unique, TableOf;
    forall id | id in TableOf(r) && Sweepable(TableOf(r)[id], now) ensures id in Swept(r, |r|, now) {
      var k := Listed(r, id);
    }
  }

  // ---- Any number of stores on one file ----

  ghost predicate Share(file: ConfirmationFile, stores: seq<PendingConfirmationStore>)
    reads file, stores
  {
    forall i :: 0 <= i < |stores| ==> stores[i].file == file && stores[i].Agrees()
  }

  /** One store takes a step; all of them still agree with the file. */
  method Turn(file: ConfirmationFile, stores: seq<PendingConfirmationStore>, i: nat, op: Op)
    requires file.Valid() && Share(file, stores) && i < |stores| && Legal(file.Table(), op)
    modifies file, stores
    ensures file.Valid() && Share(file, stores)
    ensures file.Table() == Apply(old(file.Table()), op)
    ensures old(Sorted(Records(file.content))) ==> Sorted(Records(file.content))
  {
    var actor := stores[i];
    actor.Do(op);
    // whoever wrote gave the file a signature that no other store has cached
    forall j | 0 <= j < |stores| ensures stores[j].Agrees() {
      assert stores[j] != actor ==> unchanged(stores[j]);
    }
  }

  /** Cache agreement: whichever stores take the steps, in any order, each step sees the file as it is, and the file
      ends up as the functions say; ids stay unique and a sorted file stays sorted. */
  method RunSchedule(file: ConfirmationFile, stores: seq<PendingConfirmationStore>, who: seq<nat>, ops: seq<Op>)
    requires file.Valid() && Share(file, stores)
    requires |who| == |ops| && forall k :: 0 <= k < |who| ==> who[k] < |stores|
    requires LegalRun(file.Table(), ops)
    modifies file, stores
    ensures file.Valid() && Share(file, stores)
    ensures file.Table() == ApplyAll(old(file.Table()), ops)
    ensures TableEvolves(old(file.Table()), file.Table())
    ensures old(Sorted(Records(file.content))) ==> Sorted(Records(file.content))
  {
    hide Apply, TableOf, Sorted, Records, Legal, TableEvolves, Share, Unique;
    RunEvolves(file.Table(), ops);
    for k := 0 to |ops|
      invariant file.Valid() && Share(file, stores)
      invariant LegalRun(file.Table(), ops[k..])
      invariant ApplyAll(file.Table(), ops[k..]) == ApplyAll(old(file.Table()), ops)
      invariant old(Sorted(Records(file.content))) ==> Sorted(Records(file.content))
    {
      assert ops[k..][0] == ops[k] && ops[k..][1..] == ops[k + 1..];
      Turn(file, stores, who[k], ops[k]);
    }
  }

  /** Agreement needs reads that do not fail: after one failed read of a file that is there, the store takes the file
      for empty until someone writes it, and its next upsert drops every other record. */
  method FailedReadDropsRecords(store: PendingConfirmationStore, c: Confirmation)
    requires store.Agrees() && store.file.Valid() && !store.Hit() && !store.file.content.Missing?
    modifies store, store.file
    ensures Records(store.file.content) == [c]
  {
    var _ := store.Load(true);
    var records := store.ReadAll();
    assert records == [];
    store.WriteAll([c]);
    assert SortRecords([c]) == Insert(c, []);
  }
}
