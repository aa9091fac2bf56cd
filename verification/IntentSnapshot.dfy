/** What survives when an intent is stored with a confirmation and rebuilt on resume. */
module IntentSnapshot {
  import opened Actions
  import opened Confirmations

  // ---- Payload dictionaries ----

  /** What one redaction layer does: `clean` redacts and truncates a text, `forbidden` tells a dropped key. */
  datatype Policy = Policy(clean: string -> string, forbidden: string -> bool)

  predicate KeyNormal(p: Policy, k: string) {
    k != "" && Bare(k) && !p.forbidden(k)
  }

  ghost predicate KeysNormal(p: Policy, d: map<string, string>) {
    forall k :: k in d ==> KeyNormal(p, k)
  }

  /** The loop of sanitize_action_payload over the items of a dictionary of texts; a later key wins. */
  method SanitizePayload(p: Policy, items: seq<(string, string)>) returns (sanitized: map<string, string>)
    ensures sanitized == Sanitize(p, items)
  {
    sanitized := map[];
    for i := 0 to |items|
      invariant sanitized == Sanitize(p, items[..i])
    {
      assert items[..i + 1][..i] == items[..i];
      var key := Strip(items[i].0);
      if key != "" && !p.forbidden(key) {
        sanitized := sanitized[key := p.clean(p.clean(items[i].1))];
      }
    }
    assert items[..|items|] == items;
  }

  function Sanitize(p: Policy, items: seq<(string, string)>): (d: map<string, string>)
    ensures KeysNormal(p, d)
  {
    if items == [] then map[] else
      var last := |items| - 1;
      var d := Sanitize(p, items[..last]);
      var key := Strip(items[last].0);
      if key == "" || p.forbidden(key) then d else d[key := p.clean(p.clean(items[last].1))]
  }

  /** `items` lists the entries of `d`, each once, in some order. */
  ghost predicate Enumerates(items: seq<(string, string)>, d: map<string, string>)
    decreases |items|
  {
    if items == [] then d == map[] else
      var last := |items| - 1;
      var (k, v) := items[last];
      k in d && d[k] == v && Enumerates(items[..last], d - {k})
  }

  /** Another layer over a dictionary whose keys are already normal. */
  function Layer(p: Policy, d: map<string, string>): map<string, string> {
    map k | k in d :: p.clean(p.clean(d[k]))
  }

  /** On normal keys a layer only cleans the values again, whatever order the entries are visited in. */
  lemma {:induction false} SanitizeIsLayer(p: Policy, items: seq<(string, string)>, d: map<string, string>)
    requires Enumerates(items, d) && KeysNormal(p, d)
    ensures Sanitize(p, items) == Layer(p, d)
    decreases |items|
  {
    if items != [] {
      var last := |items| - 1;
      var (k, v) := items[last];
      SanitizeIsLayer(p, items[..last], d - {k});
      assert KeyNormal(p, k);
      assert Layer(p, d) == Layer(p, d - {k})[k := p.clean(p.clean(v))];
    }
  }

  function Layers(p: Policy, d: map<string, string>, n: nat): map<string, string> {
    if n == 0 then d else Layer(p, Layers(p, d, n - 1))
  }

  ghost predicate Settled(p: Policy, d: map<string, string>) {
    forall k :: k in d ==> p.clean(p.clean(d[k])) == d[k]
  }

  lemma LayerKeeps(p: Policy, d: map<string, string>)
    requires Settled(p, d)
    ensures Layer(p, d) == d
  {
  }

  lemma {:induction false} LayersKeep(p: Policy, d: map<string, string>, n: nat)
    requires Settled(p, d)
    ensures Layers(p, d, n) == d
  {
    if n > 0 {
      LayersKeep(p, d, n - 1);
    }
  }

  /** However often a payload is stored and read back, it stays the same exactly when cleaning leaves
      each of its values alone. */
  lemma PayloadSurvives(p: Policy, d: map<string, string>)
    ensures (forall n: nat :: Layers(p, d, n) == d) <==> Settled(p, d)
  {
    if Settled(p, d) {
      forall n: nat ensures Layers(p, d, n) == d { LayersKeep(p, d, n); }
    } else {
      var k :| k in d && p.clean(p.clean(d[k])) != d[k];
      assert Layers(p, d, 1) == Layer(p, Layers(p, d, 0));
      assert Layers(p, d, 1)[k] != d[k];
    }
  }

  // ---- Lists of fact references ----

  function Join(items: seq<string>): string {
    if items == [] then "" else if |items| == 1 then items[0] else items[0] + "," + Join(items[1..])
  }

  /** str.split(",") */
  function Split(s: string): (parts: seq<string>)
    ensures |parts| >= 1
    ensures CommaFree(parts)
  {
    if s == "" then [""]
    else
      var rest := Split(s[1..]);
      if s[0] == ',' then [""] + rest else [[s[0]] + rest[0]] + rest[1..]
  }

  lemma {:induction false} SplitHead(a: string, rest: string)
    requires ',' !in a
    ensures Split(a + "," + rest) == [a] + Split(rest)
    ensures Split(a) == [a]
  {
    var s := a + "," + rest;
    if a == "" {
      assert s[1..] == rest;
    } else {
      SplitHead(a[1..], rest);
      assert s[1..] == a[1..] + "," + rest;
      assert [a[0]] + a[1..] == a;
    }
  }

  lemma {:induction false} SplitJoin(items: seq<string>)
    requires items != [] && CommaFree(items)
    ensures Split(Join(items)) == items
  {
    SplitHead(items[0], if |items| == 1 then "" else Join(items[1..]));
    if |items| > 1 {
      SplitJoin(items[1..]);
      assert Join(items) == items[0] + "," + Join(items[1..]);
    }
  }

  ghost predicate AllBare(items: seq<string>) {
    forall i :: 0 <= i < |items| ==> items[i] != "" && Bare(items[i])
  }

  ghost predicate CommaFree(items: seq<string>) {
    forall i :: 0 <= i < |items| ==> ',' !in items[i]
  }

  /** The items stripped, without the blank ones. */
  function Trimmed(items: seq<string>): (r: seq<string>)
    ensures AllBare(r)
    ensures CommaFree(items) ==> CommaFree(r)
  {
    if items == [] then [] else
      var t := Strip(items[0]);
      var rest := Trimmed(items[1..]);
      if t == "" then rest else [t] + rest
  }

  lemma {:induction false} TrimmedAgain(items: seq<string>)
    requires AllBare(items)
    ensures Trimmed(items) == items
  {
    if items != [] {
      TrimmedAgain(items[1..]);
    }
  }

  lemma {:induction false} JoinBare(items: seq<string>)
    requires items != [] && AllBare(items)
    ensures Join(items) != "" && Bare(Join(items))
  {
    var a := items[0];
    assert a != "" && Bare(a);
    if |items| > 1 {
      JoinBare(items[1..]);
      var r := Join(items[1..]);
      var s := a + "," + r;
      assert Join(items) == s && s[0] == a[0] && s[|s| - 1] == r[|r| - 1];
    }
  }

  /** A joined list comes back as it was exactly when no reference contains a comma. */
  lemma FactsRoundTrip(t: seq<string>)
    requires AllBare(t)
    ensures Trimmed(Split(Join(t))) == t <==> CommaFree(t)
  {
    if CommaFree(t) {
      if t != [] {
        SplitJoin(t);
        TrimmedAgain(t);
      } else {
        assert Split("") == [""];
        assert Trimmed([""]) == Trimmed([""][1..]);
      }
    }
  }

  // ---- Storing and rebuilding ----

  function Texts(items: set<string>): set<string> {
    set q | q in items && Strip(q) != "" :: Strip(q)
  }

  /** One metadata value through sanitize_metadata and redaction. */
  function MetaText(p: Policy, o: Option<string>): Option<string> {
    if o.Some? && Strip(o.value) != "" then Some(p.clean(Strip(o.value))) else None
  }

  function MetaPass(p: Policy, c: Continuity): Continuity {
    Continuity(MetaText(p, c.session), MetaText(p, c.world), MetaText(p, c.facts),
               MetaText(p, c.origin), MetaText(p, c.digest))
  }

  function Given(o: Option<string>): Option<string> {
    if o.Some? && o.value != "" then o else None
  }

  /** _continuity_metadata */
  function ContinuityOf(i: Intent): Continuity {
    Continuity(Given(i.sessionRef), Given(i.worldRef),
               if i.factsRef == [] then None else Some(Join(Trimmed(i.factsRef))),
               Given(i.origin), Given(i.proposalDigest))
  }

  /** The record as create_from_action_decision builds it from a sanitized intent. */
  function Stored(p: Policy, i: Intent): Snapshot {
    Snapshot(Some(i.action), Some(i.scope), Some(i.trigger), Some(i.risk), i.requestedBy,
             i.requiresPresenceEmpty, Texts(i.usesFacts), Layer(p, Layer(p, i.payload)), Optional(i.idempotencyKey),
             MetaPass(p, MetaPass(p, ContinuityOf(i))))
  }

  /** One read of the file: ConfirmationRequest.from_dict. */
  function Reloaded(p: Policy, s: Snapshot): Snapshot {
    Snapshot(Optional(s.action), Optional(s.scope), Optional(s.trigger), Optional(s.risk), Optional(s.requestedBy),
             s.requiresPresenceEmpty, Texts(s.usesFacts), Layer(p, Layer(p, s.payload)), Optional(s.idempotencyKey),
             MetaPass(p, s.continuity))
  }

  function ReloadedTimes(p: Policy, s: Snapshot, n: nat): Snapshot {
    if n == 0 then s else Reloaded(p, ReloadedTimes(p, s, n - 1))
  }

  function OrBlank(o: Option<string>): string {
    if o.Some? then o.value else ""
  }

  /** _intent_from_confirmation */
  function Rebuild(p: Policy, s: Snapshot): Option<Intent> {
    if !(Present(s.action) && Present(s.scope) && Present(s.trigger) && Present(s.risk)) then None
    else Some(Intent(
      s.action.value, s.scope.value, s.trigger.value, s.risk.value, s.requestedBy,
      s.requiresPresenceEmpty, s.usesFacts, Layer(p, s.payload), s.idempotencyKey,
      Optional(s.continuity.session), Optional(s.continuity.world),
      Trimmed(Split(OrBlank(s.continuity.facts))),
      Optional(s.continuity.origin), Optional(s.continuity.digest),
      None, 0, false))
  }

  ghost predicate TextSettled(p: Policy, o: Option<string>) {
    o.Some? ==> p.clean(Strip(o.value)) == Strip(o.value)
  }

  /** Redaction has nothing left to change in this intent. */
  ghost predicate IntentSettled(p: Policy, i: Intent) {
    && KeysNormal(p, i.payload) && Settled(p, i.payload)
    && TextSettled(p, i.sessionRef) && TextSettled(p, i.worldRef)
    && TextSettled(p, i.origin) && TextSettled(p, i.proposalDigest)
    && TextSettled(p, Some(Join(Trimmed(i.factsRef))))
  }

  lemma TextsAgain(items: set<string>)
    ensures Texts(Texts(items)) == Texts(items)
  {
    forall q | q in Texts(items) ensures q in Texts(Texts(items)) {
      assert Strip(q) == q;
    }
  }

  /** Settled metadata is only trimmed, and only once. */
  lemma MetaSettles(p: Policy, o: Option<string>)
    requires TextSettled(p, o)
    ensures MetaText(p, o) == Optional(o)
    ensures MetaText(p, Optional(o)) == Optional(o) == Optional(Optional(o))
    ensures MetaText(p, Given(o)) == Optional(o)
  {
    hide Strip;
  }

  ghost function SettledContinuity(i: Intent): Continuity {
    Continuity(Optional(i.sessionRef), Optional(i.worldRef), Optional(Some(Join(Trimmed(i.factsRef)))),
               Optional(i.origin), Optional(i.proposalDigest))
  }

  lemma ContinuitySettles(p: Policy, i: Intent)
    requires IntentSettled(p, i)
    ensures MetaPass(p, ContinuityOf(i)) == SettledContinuity(i)
    ensures MetaPass(p, SettledContinuity(i)) == SettledContinuity(i)
  {
    hide Strip;
    MetaSettles(p, i.sessionRef);
    MetaSettles(p, i.worldRef);
    MetaSettles(p, i.origin);
    MetaSettles(p, i.proposalDigest);
    MetaSettles(p, Some(Join(Trimmed(i.factsRef))));
  }

  lemma OptionalAgain(o: Option<string>)
    ensures Optional(Optional(o)) == Optional(o)
  {
    hide Strip;
  }

  ghost function SettledSnapshot(i: Intent): Snapshot {
    Snapshot(Optional(Some(i.action)), Optional(Some(i.scope)), Optional(Some(i.trigger)), Optional(Some(i.risk)),
             Optional(i.requestedBy), i.requiresPresenceEmpty, Texts(i.usesFacts), i.payload,
             Optional(i.idempotencyKey), SettledContinuity(i))
  }

  lemma FirstReload(p: Policy, i: Intent)
    requires IntentSettled(p, i)
    ensures Reloaded(p, Stored(p, i)) == SettledSnapshot(i)
  {
    hide Strip, Trimmed, Split, Join;
    LayerKeeps(p, i.payload);
    TextsAgain(i.usesFacts);
    ContinuitySettles(p, i);
    OptionalAgain(i.idempotencyKey);
  }

  lemma NextReload(p: Policy, i: Intent)
    requires IntentSettled(p, i)
    ensures Reloaded(p, SettledSnapshot(i)) == SettledSnapshot(i)
  {
    hide Strip, Trimmed, Split, Join;
    LayerKeeps(p, i.payload);
    TextsAgain(i.usesFacts);
    ContinuitySettles(p, i);
    OptionalAgain(i.idempotencyKey);
    OptionalAgain(Some(i.action));
    OptionalAgain(Some(i.scope));
    OptionalAgain(Some(i.trigger));
    OptionalAgain(Some(i.risk));
    OptionalAgain(i.requestedBy);
  }

  /** A record that one read settles stays settled under any number of reads. */
  lemma {:induction false} SettledStays(p: Policy, s: Snapshot, settled: Snapshot, n: nat)
    requires n >= 1 && Reloaded(p, s) == settled && Reloaded(p, settled) == settled
    ensures ReloadedTimes(p, s, n) == settled
  {
    if n > 1 {
      SettledStays(p, s, settled, n - 1);
    } else {
      assert ReloadedTimes(p, s, 0) == s;
    }
  }

  /** The intent resume carries out: the submitted one, trimmed, without its scheduling hints. */
  ghost function Resumed(i: Intent): Intent {
    i.(action := Strip(i.action), scope := Strip(i.scope), trigger := Strip(i.trigger), risk := Strip(i.risk),
       requestedBy := Optional(i.requestedBy), usesFacts := Texts(i.usesFacts),
       idempotencyKey := Optional(i.idempotencyKey),
       sessionRef := Optional(i.sessionRef), worldRef := Optional(i.worldRef), factsRef := Trimmed(i.factsRef),
       origin := Optional(i.origin), proposalDigest := Optional(i.proposalDigest),
       simulationTraceId := None, durationMs := 0, requiresParallel := false)
  }

  ghost predicate Describes(i: Intent) {
    Strip(i.action) != "" && Strip(i.scope) != "" && Strip(i.trigger) != "" && Strip(i.risk) != ""
  }

  lemma BareStays(s: string)
    requires s == "" || Bare(s)
    ensures OrBlank(Optional(Some(s))) == s
  {
  }

  lemma FactsSettle(facts: seq<string>)
    ensures Trimmed(Split(OrBlank(Optional(Some(Join(Trimmed(facts))))))) == Trimmed(facts) <==> CommaFree(Trimmed(facts))
  {
    var t := Trimmed(facts);
    hide Trimmed, Split, OrBlank, Optional, Bare;
    FactsRoundTrip(t);
    if t != [] {
      hide Join;
      JoinBare(t);
    }
    BareStays(Join(t));
  }

  /** The round trip: resume carries out what was submitted if and only if no fact reference contains a comma;
      nothing is rebuilt if and only if one of the four descriptive fields is blank. */
  lemma RoundTrip(p: Policy, i: Intent, n: nat)
    requires IntentSettled(p, i) && n >= 1
    ensures var r := Rebuild(p, ReloadedTimes(p, Stored(p, i), n));
            && (r.None? <==> !Describes(i))
            && (r.Some? ==> (r.value == Resumed(i) <==> CommaFree(Trimmed(i.factsRef))))
            && (r.Some? ==> r.value.(factsRef := []) == Resumed(i).(factsRef := []))
  {
    hide Strip, Trimmed, Split, Join, Layer;
    FirstReload(p, i);
    NextReload(p, i);
    SettledStays(p, Stored(p, i), SettledSnapshot(i), n);
    RebuildSettled(p, i);
    FactsSettle(i.factsRef);
  }

  lemma RebuildSettled(p: Policy, i: Intent)
    requires Settled(p, i.payload)
    ensures Rebuild(p, SettledSnapshot(i)) ==
            if Describes(i)
            then Some(Resumed(i).(factsRef := Trimmed(Split(OrBlank(Optional(Some(Join(Trimmed(i.factsRef)))))))))
            else None
  {
    hide Strip, Trimmed, Split, Join;
    LayerKeeps(p, i.payload);
    OptionalAgain(i.sessionRef);
    OptionalAgain(i.worldRef);
    OptionalAgain(i.origin);
    OptionalAgain(i.proposalDigest);
  }

  // ---- What becomes of any payload ----

  lemma {:induction false} StoredPasses(p: Policy, i: Intent, n: nat)
    ensures ReloadedTimes(p, Stored(p, i), n).payload == Layers(p, i.payload, 2 * n + 2)
  {
    hide Layer, Texts, MetaPass, Optional;
    if n == 0 {
      assert Layers(p, i.payload, 0) == i.payload && Layers(p, i.payload, 1) == Layer(p, i.payload);
    } else {
      StoredPasses(p, i, n - 1);
      assert Layers(p, i.payload, 2 * n + 1) == Layer(p, Layers(p, i.payload, 2 * n));
      assert Layers(p, i.payload, 2 * n + 2) == Layer(p, Layers(p, i.payload, 2 * n + 1));
    }
  }

  /** Whatever redaction does to it, the rebuilt payload has been through two layers when the confirmation was made, two at
      each read of the file and one at the rebuilding. */
  lemma PayloadPasses(p: Policy, i: Intent, n: nat)
    requires n >= 1 && Rebuild(p, ReloadedTimes(p, Stored(p, i), n)).Some?
    ensures Rebuild(p, ReloadedTimes(p, Stored(p, i), n)).value.payload == Layers(p, i.payload, 2 * n + 3)
  {
    hide Layer, ReloadedTimes, Stored;
    StoredPasses(p, i, n);
  }

  // ---- What becomes of the facts, reference by reference ----

  /** How many of the first `n` items are not blank. */
  function Filled(items: seq<string>, n: nat): nat
    requires n <= |items|
  {
    if n == 0 then 0 else Filled(items, n - 1) + if Strip(items[n - 1]) != "" then 1 else 0
  }

  /** `r` is what is left of `items`, in order, when each is stripped and the blank ones are dropped. */
  ghost predicate StrippedInOrder(items: seq<string>, r: seq<string>) {
    && |r| == Filled(items, |items|)
    && forall i :: 0 <= i < |items| && Strip(items[i]) != "" ==> Filled(items, i) < |r| && r[Filled(items, i)] == Strip(items[i])
  }

  lemma {:induction false} FilledShift(items: seq<string>, n: nat)
    requires 0 < n <= |items|
    ensures Filled(items, n) == Filled(items[1..], n - 1) + if Strip(items[0]) != "" then 1 else 0
  {
    hide Strip;
    if n > 1 {
      FilledShift(items, n - 1);
      assert items[1..][n - 2] == items[n - 1];
    }
  }

  lemma TrimmedNext(items: seq<string>)
    requires items != []
    ensures Trimmed(items) == if Strip(items[0]) == "" then Trimmed(items[1..]) else [Strip(items[0])] + Trimmed(items[1..])
  {
    hide Strip, AllBare, CommaFree;
  }

  lemma {:induction false} TrimmedSize(items: seq<string>)
    ensures |Trimmed(items)| == Filled(items, |items|)
  {
    hide Strip, AllBare, CommaFree;
    if items != [] {
      TrimmedSize(items[1..]);
      FilledShift(items, |items|);
    }
  }

  lemma {:induction false} TrimmedAt(items: seq<string>, i: nat)
    requires i < |items| && Strip(items[i]) != ""
    ensures Filled(items, i) < |Trimmed(items)| && Trimmed(items)[Filled(items, i)] == Strip(items[i])
    decreases |items|
  {
    hide Strip, Trimmed, AllBare, CommaFree;
    TrimmedNext(items);
    if i > 0 {
      FilledShift(items, i);
      assert items[1..][i - 1] == items[i];
      TrimmedAt(items[1..], i - 1);
    }
  }

  lemma TrimmedInOrder(items: seq<string>)
    ensures StrippedInOrder(items, Trimmed(items))
  {
    hide Strip, Trimmed, Filled;
    TrimmedSize(items);
    forall i | 0 <= i < |items| && Strip(items[i]) != ""
      ensures Filled(items, i) < |Trimmed(items)| && Trimmed(items)[Filled(items, i)] == Strip(items[i])
    {
      TrimmedAt(items, i);
    }
  }

  /** A used fact is in the rebuilt intent if and only if it is a used fact of the submitted one, stripped and not blank; and
      where no reference has a comma, the references are those of the submitted one, each stripped, in order, without the
      blank ones. */
  lemma FactsSurvive(p: Policy, i: Intent, n: nat)
    requires IntentSettled(p, i) && n >= 1 && Describes(i)
    ensures var r := Rebuild(p, ReloadedTimes(p, Stored(p, i), n));
            && r.Some?
            && (forall f :: f in r.value.usesFacts <==> f != "" && exists q :: q in i.usesFacts && Strip(q) == f)
            && ((forall k :: 0 <= k < |i.factsRef| ==> ',' !in i.factsRef[k]) ==> StrippedInOrder(i.factsRef, r.value.factsRef))
  {
    RoundTrip(p, i, n);
    var r := Rebuild(p, ReloadedTimes(p, Stored(p, i), n));
    hide Rebuild, ReloadedTimes, Stored, IntentSettled, Strip;
    assert r.value.usesFacts == Texts(i.usesFacts);
    if forall k :: 0 <= k < |i.factsRef| ==> ',' !in i.factsRef[k] {
      assert CommaFree(i.factsRef);
      TrimmedInOrder(i.factsRef);
      assert r.value.factsRef == Trimmed(i.factsRef);
    }
  }
}
