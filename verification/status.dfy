/** The readiness test every driver applies to the system report:
    `generalStatus.lower() == 'ready'`. */
module Status {

  /** Lower-casing of one character; only ASCII letters change. */
  function LowerChar(c: char): (r: char)
    ensures 'A' <= c <= 'Z' ==> r as int == c as int + 32
    ensures !('A' <= c <= 'Z') ==> r == c
  {
    if 'A' <= c <= 'Z' then (c as int + 32) as char else c
  }

  function Lower(s: string): (r: string)
    ensures |r| == |s|
    ensures forall i :: 0 <= i < |s| ==> r[i] == LowerChar(s[i])
  {
    if |s| == 0 then "" else [LowerChar(s[0])] + Lower(s[1..])
  }

  predicate IsReady(status: string)
  {
    Lower(status) == "ready"
  }

  lemma LowerCharIs(c: char, l: char)
    requires 'a' <= l <= 'z'
    ensures LowerChar(c) == l <==> c == l || c as int == l as int - 32
  {
  }

  /** A status is ready exactly when it spells "ready" in any mix of cases:
      "Ready" and "READY" pass, "Degraded" does not. */
  lemma ReadyIgnoresCase(status: string)
    ensures IsReady(status) <==>
      |status| == 5 &&
      forall i :: 0 <= i < 5 ==> status[i] == "ready"[i] || status[i] as int == "ready"[i] as int - 32
  {
    var low := Lower(status);
    if |status| == 5 {
      forall i | 0 <= i < 5
        ensures low[i] == "ready"[i] <==> status[i] == "ready"[i] || status[i] as int == "ready"[i] as int - 32
      {
        LowerCharIs(status[i], "ready"[i]);
      }
      if forall i :: 0 <= i < 5 ==> low[i] == "ready"[i] {
        assert low == "ready";
      }
    }
  }

  /** The two spellings the demonstration servers answer with. */
  lemma ReadySpellings()
    ensures IsReady("ready") && IsReady("READY")
  {
    ReadyIgnoresCase("ready");
    ReadyIgnoresCase("READY");
  }
}
