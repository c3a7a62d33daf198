/** Names: `[_A-Za-z][_0-9A-Za-z]*`, scanned greedily. */
module Names {
  import opened Chars

  /** The end of the run of name characters that starts at `p`. */
  function ScanName(body: string, p: nat): (e: nat)
    requires p <= |body|
    ensures p <= e <= |body|
    ensures forall i :: p <= i < e ==> IsNameContinue(body[i])
    ensures e < |body| ==> !IsNameContinue(body[e])
    decreases |body| - p
  {
    if p < |body| && IsNameContinue(body[p]) then ScanName(body, p + 1) else p
  }

  /** `read_name`: the span of the name that starts at `start`. The span is the
      longest one made of name characters, so the name is never followed by a
      letter, digit or underscore. */
  function ReadName(body: string, start: nat): (e: nat)
    requires start < |body| && IsNameStart(body[start])
    ensures start < e <= |body|
    ensures forall i :: start < i < e ==> IsNameContinue(body[i])
    ensures e == |body| || !IsNameContinue(body[e])
  {
    ScanName(body, start + 1)
  }

  /** Greedy scanning finds exactly the end of any maximal run of name
      characters. */
  lemma {:induction false} ScanNameMaximal(body: string, p: nat, e: nat)
    requires p <= e <= |body|
    requires forall i :: p <= i < e ==> IsNameContinue(body[i])
    requires e == |body| || !IsNameContinue(body[e])
    ensures ScanName(body, p) == e
    decreases e - p
  {
    if p < e {
      ScanNameMaximal(body, p + 1, e);
    }
  }
}
