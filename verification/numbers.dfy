/** Numbers: IntValue and FloatValue of section 2.9.1 and 2.9.2 of the GraphQL
    specification (October 2021). The token's value is the literal text. */
module Numbers {
  import opened Chars
  import opened Results
  import opened Tokens
  import opened Errors

  // ---- The lexical grammar, stated on the literal text ----

  predicate AllDigits(s: string) {
    forall i :: 0 <= i < |s| ==> IsDigit(s[i])
  }

  /** `0` or a non-zero digit followed by digits. */
  predicate IsUnsignedIntegerPart(s: string) {
    s == "0" || (|s| >= 1 && '1' <= s[0] <= '9' && AllDigits(s))
  }

  /** IntegerPart :: NegativeSign? 0 | NegativeSign? NonZeroDigit Digit* */
  predicate IsIntegerPart(s: string) {
    IsUnsignedIntegerPart(s) || (|s| >= 1 && s[0] == '-' && IsUnsignedIntegerPart(s[1..]))
  }

  /** FractionalPart :: . Digit+ */
  predicate IsFractionalPart(s: string) {
    |s| >= 2 && s[0] == '.' && AllDigits(s[1..])
  }

  /** ExponentPart :: ExponentIndicator Sign? Digit+ */
  predicate IsExponentPart(s: string) {
    && |s| >= 2
    && (s[0] == 'e' || s[0] == 'E')
    && (AllDigits(s[1..]) || (|s| >= 3 && (s[1] == '+' || s[1] == '-') && AllDigits(s[2..])))
  }

  /** IntValue :: IntegerPart */
  predicate IsIntValue(s: string) {
    IsIntegerPart(s)
  }

  /** `s` splits at `i <= j` into IntegerPart, an optional FractionalPart and
      an optional ExponentPart, at least one of the two being present. */
  predicate FloatSplit(s: string, i: int, j: int) {
    && 0 < i <= j <= |s|
    && IsIntegerPart(s[..i])
    && (i == j || IsFractionalPart(s[i..j]))
    && (j == |s| || IsExponentPart(s[j..]))
    && (i < j || j < |s|)
  }

  /** FloatValue :: IntegerPart FractionalPart | IntegerPart ExponentPart
                  | IntegerPart FractionalPart ExponentPart */
  ghost predicate IsFloatValue(s: string) {
    exists i, j :: FloatSplit(s, i, j)
  }

  /** A number may not be directly followed by `.` or a NameStart; after the
      greedy digit runs it cannot be followed by a digit either. */
  predicate ProperlyFollowed(body: string, e: nat) {
    e >= |body| || !(IsDigit(body[e]) || body[e] == '.' || IsNameStart(body[e]))
  }

  // ---- The scanner ----

  /** How an error message shows the character at `p`. */
  function CharDescription(body: string, p: nat): string {
    if p < |body| then [body[p]] else "<EOF>"
  }

  function ExpectedDigit(body: string, p: nat): string {
    "Invalid number, expected digit but got: " + CharDescription(body, p) + "."
  }

  /** The end of the run of digits that starts at `p`. */
  function ScanDigits(body: string, p: nat): (e: nat)
    requires p <= |body|
    ensures p <= e <= |body|
    ensures AllDigits(body[p..e])
    ensures e == |body| || !IsDigit(body[e])
    decreases |body| - p
  {
    if p < |body| && IsDigit(body[p]) then ScanDigits(body, p + 1) else p
  }

  lemma {:induction false} ScanDigitsMaximal(body: string, p: nat, e: nat)
    requires p <= e <= |body|
    requires AllDigits(body[p..e])
    requires e == |body| || !IsDigit(body[e])
    ensures ScanDigits(body, p) == e
    decreases e - p
  {
    if p < e {
      assert IsDigit(body[p..e][0]);
      assert body[p + 1..e] == body[p..e][1..];
      ScanDigitsMaximal(body, p + 1, e);
    }
  }

  /** `read_digits`: one or more digits, or an error at the first non-digit. */
  function ReadDigits(body: string, p: nat): (r: Result<nat, SyntaxError>)
    requires p <= |body|
    ensures r.Success? ==> p < r.value <= |body| && AllDigits(body[p..r.value]) && (r.value == |body| || !IsDigit(body[r.value]))
    ensures r.Failure? ==> r.error == SyntaxError(p, ExpectedDigit(body, p)) && (p == |body| || !IsDigit(body[p]))
  {
    var e := ScanDigits(body, p);
    if e == p then Failure(SyntaxError(p, ExpectedDigit(body, p))) else Success(e)
  }

  /** The integer part after the optional sign: a lone `0`, which no digit may
      follow, or one or more digits. */
  function ReadIntegerDigits(body: string, p: nat): (r: Result<nat, SyntaxError>)
    requires p <= |body|
    ensures r.Success? ==> p < r.value <= |body| && IsUnsignedIntegerPart(body[p..r.value]) && (r.value == |body| || !IsDigit(body[r.value]))
    ensures r.Failure? ==> p <= r.error.position <= |body|
  {
    if CharAt(body, p) == '0' then
      if IsDigit(CharAt(body, p + 1)) then
        var err: Result<nat, SyntaxError> := Failure(SyntaxError(p + 1, "Invalid number, unexpected digit after 0: " + [body[p + 1]] + "."));
        err
      else
        assert body[p..p + 1] == "0";
        Success(p + 1)
    else
      ReadDigits(body, p)
  }

  /** The optional fractional part at `p`: the position after it. */
  function ReadFraction(body: string, p: nat): (r: Result<nat, SyntaxError>)
    requires p <= |body|
    ensures r.Success? ==> p <= r.value <= |body| && (r.value == |body| || !IsDigit(body[r.value]) || r.value == p)
    ensures r.Success? && r.value == p ==> CharAt(body, p) != '.'
    ensures r.Success? && r.value > p ==> IsFractionalPart(body[p..r.value]) && (r.value == |body| || !IsDigit(body[r.value]))
    ensures r.Failure? ==> p < r.error.position <= |body|
  {
    if CharAt(body, p) == '.' then
      var e :- ReadDigits(body, p + 1);
      assert body[p..e][1..] == body[p + 1..e];
      Success(e)
    else Success(p)
  }

  /** The optional exponent part at `p`: the position after it. */
  function ReadExponent(body: string, p: nat): (r: Result<nat, SyntaxError>)
    requires p <= |body|
    ensures r.Success? ==> p <= r.value <= |body|
    ensures r.Success? && r.value == p ==> CharAt(body, p) != 'e' && CharAt(body, p) != 'E'
    ensures r.Success? && r.value > p ==> IsExponentPart(body[p..r.value]) && (r.value == |body| || !IsDigit(body[r.value]))
    ensures r.Failure? ==> p < r.error.position <= |body|
  {
    var c := CharAt(body, p);
    if c == 'e' || c == 'E' then
      var sign := CharAt(body, p + 1);
      var q := if sign == '+' || sign == '-' then p + 2 else p + 1;
      var e :- ReadDigits(body, q);
      assert body[p..e][q - p..] == body[q..e];
      Success(e)
    else Success(p)
  }

  /** `read_number`: an optional `-`, the integer part, then an optional
      fraction and an optional exponent; a fraction or an exponent makes the
      literal a FLOAT, otherwise it is an INT. The result is the kind and the
      end of the literal, whose text is the token's value. */
  function ReadNumber(body: string, start: nat): (r: Result<(TokenKind, nat), SyntaxError>)
    requires start < |body|
    ensures r.Success? ==> start < r.value.1 <= |body|
    ensures r.Success? ==> r.value.0 == Int || r.value.0 == Float
    ensures r.Success? && r.value.0 == Int ==> IsIntValue(body[start..r.value.1])
    ensures r.Success? && r.value.0 == Float ==> IsFloatValue(body[start..r.value.1])
    ensures r.Success? ==> ProperlyFollowed(body, r.value.1)
    ensures r.Failure? ==> start <= r.error.position <= |body|
  {
    var p0 := if body[start] == '-' then start + 1 else start;
    var p1 :- ReadIntegerDigits(body, p0);
    var p2 :- ReadFraction(body, p1);
    var p3 :- ReadExponent(body, p2);
    if p3 < |body| && (body[p3] == '.' || IsNameStart(body[p3])) then
      Failure(SyntaxError(p3, ExpectedDigit(body, p3)))
    else
      NumberTextSound(body, start, p0, p1, p2, p3);
      if p1 < p3 then Success((Float, p3)) else Success((Int, p3))
  }

  /** A slice of a slice is a slice of the whole. */
  lemma SliceOfSlice(body: string, lo: nat, hi: nat, a: nat, b: nat)
    requires lo <= a <= b <= hi <= |body|
    ensures body[lo..hi][a - lo..b - lo] == body[a..b]
  {
    var x := body[lo..hi][a - lo..b - lo];
    forall k | 0 <= k < b - a
      ensures x[k] == body[a..b][k]
    {
      assert x[k] == body[lo..hi][a - lo + k];
    }
  }

  /** The parts the scanner reads make up an IntValue when there is no
      fraction and no exponent, and a FloatValue otherwise. */
  lemma NumberTextSound(body: string, start: nat, p0: nat, p1: nat, p2: nat, p3: nat)
    requires start < |body| && p0 == (if body[start] == '-' then start + 1 else start)
    requires p0 < p1 <= p2 <= p3 <= |body|
    requires IsUnsignedIntegerPart(body[p0..p1])
    requires p2 > p1 ==> IsFractionalPart(body[p1..p2])
    requires p3 > p2 ==> IsExponentPart(body[p2..p3])
    ensures p1 == p3 ==> IsIntValue(body[start..p3])
    ensures p1 < p3 ==> IsFloatValue(body[start..p3])
  {
    var s := body[start..p3];
    SliceOfSlice(body, start, p3, start, p1);
    assert s[..p1 - start] == body[start..p1];
    if p0 > start {
      SliceOfSlice(body, start, p1, p0, p1);
      assert body[start..p1][1..] == body[p0..p1];
    }
    assert IsIntegerPart(s[..p1 - start]);
    SliceOfSlice(body, start, p3, p1, p2);
    SliceOfSlice(body, start, p3, p2, p3);
    assert s[p2 - start..] == s[p2 - start..p3 - start];
    if p1 < p3 {
      assert FloatSplit(s, p1 - start, p2 - start);
    } else {
      assert s == s[..p1 - start];
    }
  }

  /** The parts of a literal are spelled without line terminators. */
  lemma PartOnOneLine(s: string, k: nat)
    requires IsUnsignedIntegerPart(s) || IsFractionalPart(s) || IsExponentPart(s)
    requires k < |s|
    ensures !IsLineTerminator(s[k])
  {
    if k > 0 && !IsUnsignedIntegerPart(s) {
      if IsFractionalPart(s) || AllDigits(s[1..]) {
        assert s[1..][k - 1] == s[k];
      } else if k > 1 {
        assert s[2..][k - 2] == s[k];
      }
    }
  }

  /** Text made of the parts the scanner reads lies on one line. */
  lemma PartsOnOneLine(body: string, start: nat, p0: nat, p1: nat, p2: nat, p3: nat)
    requires start < |body| && p0 == (if body[start] == '-' then start + 1 else start)
    requires p0 < p1 <= p2 <= p3 <= |body|
    requires IsUnsignedIntegerPart(body[p0..p1])
    requires p2 > p1 ==> IsFractionalPart(body[p1..p2])
    requires p3 > p2 ==> IsExponentPart(body[p2..p3])
    ensures forall i :: start <= i < p3 ==> !IsLineTerminator(body[i])
  {
    forall i | start <= i < p3
      ensures !IsLineTerminator(body[i])
    {
      if p0 <= i < p1 {
        PartOnOneLine(body[p0..p1], i - p0);
      } else if p1 <= i < p2 {
        PartOnOneLine(body[p1..p2], i - p1);
      } else if p2 <= i {
        PartOnOneLine(body[p2..p3], i - p2);
      }
    }
  }

  /** A number literal lies on one line. */
  lemma {:induction false} ReadNumberOnOneLine(body: string, start: nat)
    requires start < |body|
    ensures var r := ReadNumber(body, start);
      r.Success? ==> forall i :: start <= i < r.value.1 ==> !IsLineTerminator(body[i])
  {
    var r := ReadNumber(body, start);
    if r.Success? {
      var p0 := if body[start] == '-' then start + 1 else start;
      var p1 := ReadIntegerDigits(body, p0).value;
      var p2 := ReadFraction(body, p1).value;
      var p3 := ReadExponent(body, p2).value;
      assert r.value.1 == p3;
      PartsOnOneLine(body, start, p0, p1, p2, p3);
    }
  }

  // ---- The scanner accepts exactly the grammar ----

  /** The integer part of a literal is scanned to its end. */
  lemma IntegerPartScanned(body: string, start: nat, e: nat)
    requires start < e <= |body|
    requires IsIntegerPart(body[start..e])
    requires e == |body| || !IsDigit(body[e])
    ensures var p0 := if body[start] == '-' then start + 1 else start;
      p0 < e && ReadIntegerDigits(body, p0) == Success(e)
  {
    var s := body[start..e];
    var p0 := if body[start] == '-' then start + 1 else start;
    assert s[0] == body[start];
    var u := body[p0..e];
    assert IsUnsignedIntegerPart(u) by {
      if body[start] == '-' {
        assert !IsUnsignedIntegerPart(s);
        assert s[1..] == u;
      }
    }
    assert u[0] == body[p0];
    if u == "0" {
      assert p0 + 1 == e;
    } else {
      ScanDigitsMaximal(body, p0, e);
    }
  }

  /** Digits that run up to a non-digit are read as one run. */
  lemma DigitsScanned(body: string, p: nat, e: nat)
    requires p < e <= |body|
    requires AllDigits(body[p..e])
    requires e == |body| || !IsDigit(body[e])
    ensures ReadDigits(body, p) == Success(e)
  {
    ScanDigitsMaximal(body, p, e);
  }

  /** A fractional part that runs up to a non-digit is read whole; where
      there is none, nothing is read. */
  lemma FractionScanned(body: string, p: nat, e: nat)
    requires p <= e <= |body|
    requires p == e ==> CharAt(body, p) != '.'
    requires p < e ==> IsFractionalPart(body[p..e])
    requires e == |body| || !IsDigit(body[e])
    ensures ReadFraction(body, p) == Success(e)
  {
    if p < e {
      assert body[p..e][0] == body[p];
      assert body[p..e][1..] == body[p + 1..e];
      DigitsScanned(body, p + 1, e);
    }
  }

  /** An exponent part that runs up to a non-digit is read whole; where there
      is none, nothing is read. */
  lemma ExponentScanned(body: string, p: nat, e: nat)
    requires p <= e <= |body|
    requires p == e ==> CharAt(body, p) != 'e' && CharAt(body, p) != 'E'
    requires p < e ==> IsExponentPart(body[p..e])
    requires e == |body| || !IsDigit(body[e])
    ensures ReadExponent(body, p) == Success(e)
  {
    if p < e {
      var x := body[p..e];
      assert x[0] == body[p];
      assert CharAt(body, p + 1) == x[1];
      var q := if x[1] == '+' || x[1] == '-' then p + 2 else p + 1;
      assert x[q - p..] == body[q..e];
      DigitsScanned(body, q, e);
    }
  }

  /** Every IntValue that is properly followed is read whole as an INT. */
  lemma IntComplete(body: string, start: nat, e: nat)
    requires start < e <= |body|
    requires ProperlyFollowed(body, e)
    requires IsIntValue(body[start..e])
    ensures ReadNumber(body, start) == Success((Int, e))
  {
    IntegerPartScanned(body, start, e);
    FractionScanned(body, e, e);
    ExponentScanned(body, e, e);
    ReadNumberFromParts(body, start, e, e, e);
  }

  /** A split of the literal `body[start..e]`, restated on the body. */
  lemma FloatSplitInBody(body: string, start: nat, e: nat, i: int, j: int)
    requires start < e <= |body|
    requires FloatSplit(body[start..e], i, j)
    ensures 0 < i <= j <= e - start
    ensures IsIntegerPart(body[start..start + i])
    ensures i < j ==> IsFractionalPart(body[start + i..start + j])
    ensures start + j < e ==> IsExponentPart(body[start + j..e])
    ensures i < j || start + j < e
  {
    var s := body[start..e];
    assert s[..i] == body[start..start + i];
    assert s[i..j] == body[start + i..start + j] by {
      forall k | 0 <= k < j - i
        ensures s[i..j][k] == body[start + i..start + j][k]
      {
        assert s[i..j][k] == s[i + k] == body[start + i + k];
      }
    }
    assert s[j..] == body[start + j..e];
  }

  /** The scanner's result once its three parts are known. */
  lemma ReadNumberFromParts(body: string, start: nat, p1: nat, p2: nat, e: nat)
    requires start < p1 <= p2 <= e <= |body|
    requires ReadIntegerDigits(body, if body[start] == '-' then start + 1 else start) == Success(p1)
    requires ReadFraction(body, p1) == Success(p2)
    requires ReadExponent(body, p2) == Success(e)
    requires ProperlyFollowed(body, e)
    ensures ReadNumber(body, start) == Success((if p1 < e then Float else Int, e))
  {
  }

  /** Every FloatValue that is properly followed is read whole as a FLOAT. */
  lemma FloatComplete(body: string, start: nat, e: nat)
    requires start < e <= |body|
    requires ProperlyFollowed(body, e)
    requires IsFloatValue(body[start..e])
    ensures ReadNumber(body, start) == Success((Float, e))
  {
    var i, j :| FloatSplit(body[start..e], i, j);
    FloatSplitInBody(body, start, e, i, j);
    var p1, p2 := start + i, start + j;
    assert body[p1..p2] == [] || body[p1..p2][0] == body[p1];
    assert body[p2..e] == [] || body[p2..e][0] == body[p2];
    assert p1 < |body| && !IsDigit(body[p1]);
    assert p2 == |body| || !IsDigit(body[p2]);
    IntegerPartScanned(body, start, p1);
    FractionScanned(body, p1, p2);
    ExponentScanned(body, p2, e);
    ReadNumberFromParts(body, start, p1, p2, e);
  }

  /** The scanner accepts exactly the literals of the grammar: together with
      the contract of `ReadNumber`, a properly followed span is read whole as
      an INT or a FLOAT exactly when it is an IntValue or a FloatValue. */
  lemma NumberComplete(body: string, start: nat, e: nat)
    requires start < e <= |body|
    requires ProperlyFollowed(body, e)
    ensures IsIntValue(body[start..e]) ==> ReadNumber(body, start) == Success((Int, e))
    ensures IsFloatValue(body[start..e]) ==> ReadNumber(body, start) == Success((Float, e))
  {
    if IsIntValue(body[start..e]) {
      IntComplete(body, start, e);
    }
    if IsFloatValue(body[start..e]) {
      FloatComplete(body, start, e);
    }
  }
}
