/**
  * The method type-encoding scanner behind method_copyReturnType and
  * method_getNumberOfArguments. An encoding such as "v8@0:4" or
  * "{CGPoint=ff}16@0:4{CGSize=ff}8" is a sequence of steps, each a type token
  * followed by the decimal frame offset of that argument:
  *   - a token that starts with '{' runs to the '}' that brings the brace
  *     depth back to zero, then on through any following non-digits;
  *   - any other token runs to the first digit met at brace depth zero;
  *   - the offset is the run of digits after the token.
  * The first step describes the return type, each further step one argument.
  * The C loops are the methods at the end, proved equal to these functions.
  */
module TypeEncoding {
  import opened RuntimeTypes

  predicate IsDigit(c: char) {
    '0' <= c <= '9'
  }

  /** How one character moves the brace depth. */
  function Delta(c: char): int {
    if c == '{' then 1 else if c == '}' then -1 else 0
  }

  /** Brace depth reached after reading t from depth 0. */
  function Depth(t: string): int {
    if |t| == 0 then 0 else Delta(t[0]) + Depth(t[1..])
  }

  /** Brace depth after reading s[q..k] inclusive, from depth 0. */
  function DepthAt(s: string, q: nat, k: nat): int
    requires q <= k < |s|
  {
    Depth(s[q..k + 1])
  }

  /** The first loop of the '{' case: stop on the '}' that brings depth to 0, or at the end. */
  function BraceEnd(s: string, q: nat, depth: int): (r: nat)
    requires q <= |s|
    ensures q <= r <= |s|
    decreases |s| - q
  {
    if q == |s| then q
    else if s[q] == '{' then BraceEnd(s, q + 1, depth + 1)
    else if s[q] == '}' then (if depth - 1 == 0 then q else BraceEnd(s, q + 1, depth - 1))
    else BraceEnd(s, q + 1, depth)
  }

  /** Skip characters up to the next digit (or the end). */
  function SkipNonDigits(s: string, q: nat): (r: nat)
    requires q <= |s|
    ensures q <= r <= |s|
    decreases |s| - q
  {
    if q == |s| || IsDigit(s[q]) then q else SkipNonDigits(s, q + 1)
  }

  /** Skip a run of digits. */
  function SkipDigits(s: string, q: nat): (r: nat)
    requires q <= |s|
    ensures q <= r <= |s|
    decreases |s| - q
  {
    if q == |s| || !IsDigit(s[q]) then q else SkipDigits(s, q + 1)
  }

  /** The loop of the default case: stop on a digit read at depth 0. */
  function ScalarEnd(s: string, q: nat, depth: int): (r: nat)
    requires q <= |s|
    ensures q <= r <= |s|
    decreases |s| - q
  {
    if q == |s| then q
    else
      var d := depth + Delta(s[q]);
      if IsDigit(s[q]) && d == 0 then q else ScalarEnd(s, q + 1, d)
  }

  /** End of the type token that starts at p. */
  function TypeEnd(s: string, p: nat): (r: nat)
    requires p < |s|
    ensures p <= r <= |s|
  {
    if s[p] == '{' then SkipNonDigits(s, BraceEnd(s, p, 0)) else ScalarEnd(s, p, 0)
  }

  /** End of the whole step (token and offset) that starts at p: every step consumes input. */
  function StepEnd(s: string, p: nat): (r: nat)
    requires p < |s|
    ensures p < r <= |s|
  {
    var t := TypeEnd(s, p);
    if t == p then
      ScalarEndAtStart(s, p);
      SkipDigits(s, t)
    else
      SkipDigits(s, t)
  }

  /** A token that ends where it starts begins with a digit, which its offset then consumes. */
  lemma ScalarEndAtStart(s: string, p: nat)
    requires p < |s| && TypeEnd(s, p) == p
    ensures IsDigit(s[p]) && SkipDigits(s, p) > p
  {
  }

  datatype Token = Token(typ: string, offset: string)

  /** The steps of s from position p on. */
  function Decode(s: string, p: nat): (toks: seq<Token>)
    requires p <= |s|
    decreases |s| - p
  {
    if p == |s| then []
    else
      var t := TypeEnd(s, p);
      var e := StepEnd(s, p);
      [Token(s[p..t], s[t..e])] + Decode(s, e)
  }

  /** Writing the steps back out. */
  function Encode(toks: seq<Token>): string {
    if toks == [] then [] else toks[0].typ + toks[0].offset + Encode(toks[1..])
  }

  /** Number of arguments: steps after the return type. */
  function ArgCount(s: string): nat {
    var n := |Decode(s, 0)|;
    if n == 0 then 0 else n - 1
  }

  /** The return type as method_copyReturnType hands it out: None for NULL. */
  function ReturnType(s: string): Option<string> {
    if |s| == 0 then None
    else
      var t := TypeEnd(s, 0);
      if t > 0 then Some(s[..t]) else None
  }

  // ---------------------------------------------------------------------
  // Properties of the scanner

  /** Decoding loses nothing: the steps, written back out, are the input. */
  lemma {:induction false} DecodeRoundTrip(s: string, p: nat)
    requires p <= |s|
    ensures Encode(Decode(s, p)) == s[p..]
    decreases |s| - p
  {
    if p < |s| {
      var t := TypeEnd(s, p);
      var e := StepEnd(s, p);
      DecodeRoundTrip(s, e);
      assert Decode(s, p)[1..] == Decode(s, e);
      calc {
        Encode(Decode(s, p));
        s[p..t] + s[t..e] + Encode(Decode(s, e));
        s[p..t] + s[t..e] + s[e..];
        { SplitThree(s, p, t, e); }
        s[p..];
      }
    }
  }

  lemma SplitThree(s: string, p: nat, t: nat, e: nat)
    requires p <= t <= e <= |s|
    ensures s[p..] == s[p..t] + s[t..e] + s[e..]
  {
  }

  lemma {:induction false} SkipDigitsAllDigits(s: string, q: nat)
    requires q <= |s|
    ensures forall k :: q <= k < SkipDigits(s, q) ==> IsDigit(s[k])
    ensures SkipDigits(s, q) == |s| || !IsDigit(s[SkipDigits(s, q)])
    decreases |s| - q
  {
    if q < |s| && IsDigit(s[q]) {
      SkipDigitsAllDigits(s, q + 1);
    }
  }

  lemma {:induction false} SkipNonDigitsStops(s: string, q: nat)
    requires q <= |s|
    ensures forall k :: q <= k < SkipNonDigits(s, q) ==> !IsDigit(s[k])
    ensures SkipNonDigits(s, q) == |s| || IsDigit(s[SkipNonDigits(s, q)])
    decreases |s| - q
  {
    if q < |s| && !IsDigit(s[q]) {
      SkipNonDigitsStops(s, q + 1);
    }
  }

  lemma DepthCons(s: string, q: nat, k: nat)
    requires q <= k < |s|
    ensures DepthAt(s, q, k) == Delta(s[q]) + (if q < k then DepthAt(s, q + 1, k) else 0)
  {
    var t := s[q..k + 1];
    assert t[0] == s[q] && t[1..] == s[q + 1..k + 1];
    assert Depth(t) == Delta(s[q]) + Depth(s[q + 1..k + 1]);
    if q == k {
      assert s[q + 1..k + 1] == [];
    }
  }

  /**
    * The '{' loop stops exactly on the brace that closes the aggregate:
    * the depth stays positive before it and reaches 0 there.
    */
  lemma {:induction false} BraceEndMatches(s: string, q: nat, depth: int)
    requires q <= |s| && depth >= 1
    ensures forall k :: q <= k < BraceEnd(s, q, depth) ==> depth + DepthAt(s, q, k) > 0
    ensures BraceEnd(s, q, depth) < |s| ==>
              s[BraceEnd(s, q, depth)] == '}' && depth + DepthAt(s, q, BraceEnd(s, q, depth)) == 0
    decreases |s| - q
  {
    if q < |s| {
      var d := depth + Delta(s[q]);
      var r := BraceEnd(s, q, depth);
      if s[q] == '}' && depth - 1 == 0 {
        DepthCons(s, q, q);
      } else {
        BraceEndMatches(s, q + 1, d);
        assert r == BraceEnd(s, q + 1, d);
        forall k | q <= k < r
          ensures depth + DepthAt(s, q, k) > 0
        {
          DepthCons(s, q, k);
        }
        if r < |s| {
          DepthCons(s, q, r);
        }
      }
    }
  }

  /**
    * The default loop stops on the first digit read at depth 0; no earlier
    * character is a digit at depth 0.
    */
  lemma {:induction false} ScalarEndStops(s: string, q: nat, depth: int)
    requires q <= |s|
    ensures forall k :: q <= k < ScalarEnd(s, q, depth) ==> !(IsDigit(s[k]) && depth + DepthAt(s, q, k) == 0)
    ensures ScalarEnd(s, q, depth) < |s| ==>
              IsDigit(s[ScalarEnd(s, q, depth)]) && depth + DepthAt(s, q, ScalarEnd(s, q, depth)) == 0
    decreases |s| - q
  {
    if q < |s| {
      var d := depth + Delta(s[q]);
      var r := ScalarEnd(s, q, depth);
      DepthCons(s, q, q);
      assert s[q + 1..q + 1] == [];
      if !(IsDigit(s[q]) && d == 0) {
        ScalarEndStops(s, q + 1, d);
        forall k | q <= k < r
          ensures !(IsDigit(s[k]) && depth + DepthAt(s, q, k) == 0)
        {
          DepthCons(s, q, k);
        }
        if r < |s| {
          DepthCons(s, q, r);
        }
      }
    }
  }

  /** Every offset is a run of digits, and only the last step may lack one. */
  lemma {:induction false} DecodeOffsets(s: string, p: nat)
    requires p <= |s|
    ensures forall i, k :: 0 <= i < |Decode(s, p)| && 0 <= k < |Decode(s, p)[i].offset| ==>
              IsDigit(Decode(s, p)[i].offset[k])
    ensures forall i :: 0 <= i < |Decode(s, p)| - 1 ==> Decode(s, p)[i].offset != []
    decreases |s| - p
  {
    if p < |s| {
      var t := TypeEnd(s, p);
      var e := StepEnd(s, p);
      var toks := Decode(s, p);
      DecodeOffsets(s, e);
      SkipDigitsAllDigits(s, t);
      assert toks[1..] == Decode(s, e);
      assert toks[0].offset == s[t..e];
      if t < |s| && t == e {
        // the token stopped before a non-digit: only possible when it ran to the end
        if s[p] == '{' {
          SkipNonDigitsStops(s, BraceEnd(s, p, 0));
        } else {
          ScalarEndStops(s, p, 0);
        }
        assert false;
      }
      assert |toks| > 1 ==> e < |s|;
    }
  }

  /** The scalar token at p never holds a digit at brace depth 0. */
  lemma ScalarTokenHasNoTopLevelDigit(s: string, p: nat)
    requires p < |s| && s[p] != '{'
    ensures forall k :: p <= k < TypeEnd(s, p) ==> !(IsDigit(s[k]) && DepthAt(s, p, k) == 0)
  {
    ScalarEndStops(s, p, 0);
  }

  /** An aggregate token holds its matching '}' and then only non-digits. */
  lemma AggregateTokenShape(s: string, p: nat)
    requires p < |s| && s[p] == '{'
    ensures var b := BraceEnd(s, p, 0);
            && (b < |s| ==> s[b] == '}' && DepthAt(s, p, b) == 0)
            && (forall k :: p <= k < b ==> DepthAt(s, p, k) > 0)
            && (forall k :: b <= k < TypeEnd(s, p) ==> !IsDigit(s[k]))
  {
    var b := BraceEnd(s, p, 0);
    assert b == BraceEnd(s, p + 1, 1);
    BraceEndMatches(s, p + 1, 1);
    DepthCons(s, p, p);
    assert s[p + 1..p + 1] == [];
    forall k | p < k < b
      ensures DepthAt(s, p, k) > 0
    {
      DepthCons(s, p, k);
    }
    if b < |s| {
      DepthCons(s, p, b);
    }
    SkipNonDigitsStops(s, b);
  }

  /** The return type is the first step's token, when that token is not empty. */
  lemma ReturnTypeIsFirstToken(s: string)
    ensures ReturnType(s).Some? <==> |Decode(s, 0)| > 0 && Decode(s, 0)[0].typ != []
    ensures ReturnType(s).Some? ==> ReturnType(s).value == Decode(s, 0)[0].typ
  {
  }

  /** A concrete encoding: a method with a return type and two arguments (self, _cmd). */
  lemma ExampleVoidMethod()
    ensures Decode("v8@0:4", 0) == [Token("v", "8"), Token("@", "0"), Token(":", "4")]
    ensures ArgCount("v8@0:4") == 2
    ensures ReturnType("v8@0:4") == Some("v")
  {
    var s := "v8@0:4";
    assert TypeEnd(s, 0) == 1 && StepEnd(s, 0) == 2;
    assert TypeEnd(s, 2) == 3 && StepEnd(s, 2) == 4;
    assert TypeEnd(s, 4) == 5 && StepEnd(s, 4) == 6;
    assert s[4..5] == ":" && s[5..6] == "4";
    assert Decode(s, 4) == [Token(":", "4")];
    assert s[2..3] == "@" && s[3..4] == "0";
    assert Decode(s, 2) == [Token("@", "0"), Token(":", "4")];
    assert s[0..1] == "v" && s[1..2] == "8" && s[..1] == "v";
  }

  /** A struct return type keeps its nested braces and digits. */
  lemma ExampleStructReturn()
    ensures ReturnType("{P={Q=i8}f}12@0") == Some("{P={Q=i8}f}")
  {
    var s := "{P={Q=i8}f}12@0";
    assert BraceEnd(s, 0, 0) == 10;
    assert SkipNonDigits(s, 10) == 11;
    assert s[..11] == "{P={Q=i8}f}";
  }

  // ---------------------------------------------------------------------
  // The scanning loops of class.c

  /** The type-token loop (both switch cases). */
  method ScanType(s: string, p: nat) returns (t: nat)
    requires p < |s|
    ensures t == TypeEnd(s, p)
  {
    t := p;
    var count: int := 0;
    if s[p] == '{' {
      while t < |s|
        invariant p <= t <= |s|
        invariant BraceEnd(s, t, count) == BraceEnd(s, p, 0)
        decreases |s| - t
      {
        if s[t] == '{' {
          count := count + 1;
        }
        if s[t] == '}' {
          count := count - 1;
          if count == 0 {
            break;
          }
        }
        t := t + 1;
      }
      while t < |s| && !IsDigit(s[t])
        invariant BraceEnd(s, p, 0) <= t <= |s|
        invariant SkipNonDigits(s, t) == SkipNonDigits(s, BraceEnd(s, p, 0))
        decreases |s| - t
      {
        t := t + 1;
      }
    } else {
      while t < |s|
        invariant p <= t <= |s|
        invariant ScalarEnd(s, t, count) == ScalarEnd(s, p, 0)
        decreases |s| - t
      {
        if s[t] == '{' {
          count := count + 1;
        }
        if s[t] == '}' {
          count := count - 1;
        }
        if IsDigit(s[t]) && count == 0 {
          break;
        }
        t := t + 1;
      }
    }
  }

  /** The offset loop. */
  method ScanOffset(s: string, t: nat) returns (e: nat)
    requires t <= |s|
    ensures e == SkipDigits(s, t)
  {
    e := t;
    while e < |s| && IsDigit(s[e])
      invariant t <= e <= |s|
      invariant SkipDigits(s, e) == SkipDigits(s, t)
      decreases |s| - e
    {
      e := e + 1;
    }
  }

  /** method_getNumberOfArguments: count the steps, not counting the return type's. */
  method NumberOfArguments(s: string) returns (argCount: nat)
    ensures argCount == ArgCount(s)
    ensures argCount == 0 || argCount + 1 == |Decode(s, 0)|
  {
    var cur: nat := 0;
    argCount := 0;
    var returnTypeFound := false;
    while cur < |s|
      invariant cur <= |s|
      invariant returnTypeFound <==> cur > 0
      invariant !returnTypeFound ==> argCount == 0
      invariant |Decode(s, 0)| == (if returnTypeFound then argCount + 1 else 0) + |Decode(s, cur)|
      decreases |s| - cur
    {
      var typeEnd := ScanType(s, cur);
      var offsetEnd := ScanOffset(s, typeEnd);
      assert offsetEnd == StepEnd(s, cur);
      assert |Decode(s, cur)| == 1 + |Decode(s, offsetEnd)|;
      if !returnTypeFound {
        returnTypeFound := true;
      } else {
        argCount := argCount + 1;
      }
      cur := offsetEnd;
    }
  }

  /** method_copyReturnType: the first token, or None (NULL) when it is empty. */
  method CopyReturnType(s: string) returns (r: Option<string>)
    ensures r == ReturnType(s)
    ensures r.Some? ==> |r.value| > 0 && r.value <= s
  {
    if |s| == 0 {
      return None;
    }
    var typeEnd := ScanType(s, 0);
    if typeEnd > 0 {
      r := Some(s[..typeEnd]);
    } else {
      r := None;
    }
  }
}
