/** Values shared by the action core: optional values, intents and safety-gate decisions. */
module Actions {

  datatype Option<+T> = None | Some(value: T)

  /** The `decision` field of an ActionDecision; `Other` is any string outside the four known ones. */
  datatype Verdict = Allow | AskConfirmation | NotifyOnly | Deny | Other(text: string)

  datatype Decision = Decision(verdict: Verdict, reason: string)

  /** ActionIntent.  The payload is the sanitized one; `uses_facts` is kept as a set. */
  datatype Intent = Intent(
    action: string,
    scope: string,
    trigger: string,
    risk: string,
    requestedBy: Option<string>,
    requiresPresenceEmpty: bool,
    usesFacts: set<string>,
    payload: map<string, string>,
    idempotencyKey: Option<string>,
    sessionRef: Option<string>,
    worldRef: Option<string>,
    factsRef: seq<string>,
    origin: Option<string>,
    proposalDigest: Option<string>,
    simulationTraceId: Option<string>,
    durationMs: int,
    requiresParallel: bool)

  /** A key takes part in replay protection only when it is present and non-empty. */
  predicate Keyed(key: Option<string>) {
    key.Some? && key.value != ""
  }

  /** CompositeSafetyGate.evaluate: the first gate that does not allow decides; otherwise the last one does. */
  method EvaluateComposite(gates: seq<Decision>) returns (final: Decision)
    ensures final.verdict.Allow? <==> forall i :: 0 <= i < |gates| ==> gates[i].verdict.Allow?
    ensures gates == [] ==> final == Decision(Allow, "safety checks passed")
    ensures gates != [] ==> final in gates
    ensures !final.verdict.Allow? ==>
              exists i :: 0 <= i < |gates| && final == gates[i]
                          && forall j :: 0 <= j < i ==> gates[j].verdict.Allow?
    ensures final == Composite(gates)
  {
    final := Decision(Allow, "safety checks passed");
    for i := 0 to |gates|
      invariant final.verdict.Allow?
      invariant forall j :: 0 <= j < i ==> gates[j].verdict.Allow?
      invariant final == if i == 0 then Decision(Allow, "safety checks passed") else gates[i - 1]
      invariant FirstRefusal(gates, i) == FirstRefusal(gates, 0)
    {
      if !gates[i].verdict.Allow? {
        return gates[i];
      }
      final := gates[i];
    }
  }

  /** The position of the first gate from `from` on that does not allow; `|gates|` when all do. */
  function FirstRefusal(gates: seq<Decision>, from: nat): (i: nat)
    requires from <= |gates|
    ensures from <= i <= |gates|
    ensures forall j :: from <= j < i ==> gates[j].verdict.Allow?
    ensures i < |gates| ==> !gates[i].verdict.Allow?
    decreases |gates| - from
  {
    if from == |gates| || !gates[from].verdict.Allow? then from else FirstRefusal(gates, from + 1)
  }

  function Composite(gates: seq<Decision>): (d: Decision)
    ensures d.verdict.Allow? <==> forall i :: 0 <= i < |gates| ==> gates[i].verdict.Allow?
  {
    var i := FirstRefusal(gates, 0);
    if i < |gates| then gates[i]
    else if gates == [] then Decision(Allow, "safety checks passed")
    else gates[|gates| - 1]
  }

  // ---- Text ----

  predicate IsSpace(c: char) {
    c == ' ' || '\t' <= c <= '\r'
  }

  function TrimStart(s: string): (t: string)
    ensures t == [] || !IsSpace(t[0])
    ensures |t| <= |s| && t == s[|s| - |t|..]
  {
    if s == [] || !IsSpace(s[0]) then s else TrimStart(s[1..])
  }

  function TrimEnd(s: string): (t: string)
    ensures t == [] || !IsSpace(t[|t| - 1])
    ensures |t| <= |s| && t == s[..|t|]
  {
    if s == [] || !IsSpace(s[|s| - 1]) then s else TrimEnd(s[..|s| - 1])
  }

  /** str.strip */
  function Strip(s: string): (t: string)
    ensures Bare(t)
    ensures Bare(s) ==> t == s
  {
    TrimEnd(TrimStart(s))
  }

  predicate Bare(s: string) {
    s == [] || (!IsSpace(s[0]) && !IsSpace(s[|s| - 1]))
  }

  /** _optional_str */
  function Optional(o: Option<string>): Option<string> {
    if o.Some? && Strip(o.value) != "" then Some(Strip(o.value)) else None
  }

  ghost predicate Padded(t: string, s: string) {
    exists i, j :: 0 <= i <= j <= |s| && s[i..j] == t && Spaces(s, 0, i) && Spaces(s, j, |s|)
  }

  predicate Spaces(s: string, lo: int, hi: int)
    requires 0 <= lo <= hi <= |s|
  {
    forall k :: lo <= k < hi ==> IsSpace(s[k])
  }

  lemma TrimOnce(s: string)
    ensures TrimStart(s) == if s != [] && IsSpace(s[0]) then TrimStart(s[1..]) else s
    ensures TrimEnd(s) == if s != [] && IsSpace(s[|s| - 1]) then TrimEnd(s[..|s| - 1]) else s
  {
  }

  lemma {:induction false} TrimStartDrops(s: string, k: nat)
    requires k < |s| - |TrimStart(s)|
    ensures IsSpace(s[k])
  {
    hide TrimStart, IsSpace;
    TrimOnce(s);
    if k > 0 {
      TrimStartDrops(s[1..], k - 1);
    }
  }

  lemma {:induction false} TrimEndDrops(s: string, k: nat)
    requires |TrimEnd(s)| <= k < |s|
    ensures IsSpace(s[k])
  {
    hide TrimEnd, IsSpace;
    TrimOnce(s);
    if k < |s| - 1 {
      TrimEndDrops(s[..|s| - 1], k);
    }
  }

  lemma SliceInSlice(s: string, i: nat, m: nat)
    requires i + m <= |s|
    ensures s[i..][..m] == s[i..i + m]
    ensures forall k :: i <= k < |s| ==> s[k] == s[i..][k - i]
  {
  }

  /** Stripping takes away nothing but the blanks at both ends. */
  lemma StripOnlyBlanks(s: string)
    ensures Padded(Strip(s), s)
  {
    hide TrimStart, TrimEnd, IsSpace;
    var t := TrimStart(s);
    var i: nat, m: nat := |s| - |t|, |TrimEnd(t)|;
    SliceInSlice(s, i, m);
    forall k: nat | k < i ensures IsSpace(s[k]) {
      TrimStartDrops(s, k);
    }
    forall k: nat | i + m <= k < |s| ensures IsSpace(s[k]) {
      TrimEndDrops(t, k - i);
    }
    assert Spaces(s, 0, i) && Spaces(s, i + m, |s|);
  }
}
