/** `_truncate_seq_pair`: shorten a pair of token lists, from their ends, until the pair fits. */
module Truncation {
  import opened Wrappers
  import opened Tokenizers

  datatype TokenPair = TokenPair(a: seq<Token>, b: seq<Token>)

  function Min(x: int, y: int): int { if x <= y then x else y }

  function Max(x: int, y: int): int { if x <= y then y else x }

  /** The loop, one pop at a time: stop once the pair fits; otherwise the strictly longer list
      loses its last token, and on a tie `b` does. Popping an empty list raises. */
  function TruncatePair(a: seq<Token>, b: seq<Token>, maxLength: int): Result<TokenPair>
    decreases |a| + |b|
  {
    if |a| + |b| <= maxLength then Ok(TokenPair(a, b))
    else if |a| > |b| then TruncatePair(a[..|a| - 1], b, maxLength)
    else if b == [] then Err(PopFromEmptyList)
    else TruncatePair(a, b[..|b| - 1], maxLength)
  }

  /** Independent description of where the loop stops: how many tokens of `a` survive.
      Once both lists are cut, `a` keeps the larger half (the tie-break favours it). */
  function KeptLengthA(la: nat, lb: nat, maxLength: nat): nat
  {
    if la + lb <= maxLength then la
    else Min(la, Max((maxLength + 1) / 2, maxLength - lb))
  }

  /** The pair that remains: prefixes of the inputs of lengths KeptLengthA and the rest of the budget. */
  function Truncated(a: seq<Token>, b: seq<Token>, maxLength: nat): TokenPair
  {
    var x := KeptLengthA(|a|, |b|, maxLength);
    var y := Min(|a| + |b|, maxLength) - x;
    if 0 <= y <= |b| && x <= |a| then TokenPair(a[..x], b[..y]) else TokenPair(a, b)
  }

  lemma KeptLengthBounds(la: nat, lb: nat, maxLength: nat)
    ensures KeptLengthA(la, lb, maxLength) <= la
    ensures 0 <= Min(la + lb, maxLength) - KeptLengthA(la, lb, maxLength) <= lb
  {
  }

  /** Popping the last token of the strictly longer `a` leaves the final length of `a` where it was,
      unless that pop already made the pair fit. */
  lemma KeptLengthStepA(la: nat, lb: nat, maxLength: nat)
    requires la > lb && la + lb > maxLength
    ensures la - 1 + lb == maxLength || KeptLengthA(la - 1, lb, maxLength) == KeptLengthA(la, lb, maxLength)
    ensures la - 1 + lb == maxLength ==> KeptLengthA(la, lb, maxLength) == la - 1
  {
  }

  /** Popping the last token of `b` (not shorter than `a`) leaves the final length of `a` alone. */
  lemma KeptLengthStepB(la: nat, lb: nat, maxLength: nat)
    requires la <= lb && la + lb > maxLength
    ensures KeptLengthA(la, lb - 1, maxLength) == KeptLengthA(la, lb, maxLength)
  {
  }

  /** The loop only pops, so it leaves prefixes; it keeps KeptLengthA tokens of `a` and fills the budget. */
  lemma {:induction false} TruncatePairPrefixes(a: seq<Token>, b: seq<Token>, maxLength: int)
    requires maxLength >= 0
    ensures var r := TruncatePair(a, b, maxLength);
      r.Ok? && r.value.a <= a && r.value.b <= b &&
      |r.value.a| == KeptLengthA(|a|, |b|, maxLength) &&
      |r.value.a| + |r.value.b| == Min(|a| + |b|, maxLength)
    decreases |a| + |b|
  {
    if |a| + |b| <= maxLength {
    } else if |a| > |b| {
      TruncatePairPrefixes(a[..|a| - 1], b, maxLength);
      KeptLengthStepA(|a|, |b|, maxLength);
    } else {
      TruncatePairPrefixes(a, b[..|b| - 1], maxLength);
      KeptLengthStepB(|a|, |b|, maxLength);
    }
  }

  /** The loop stops exactly at Truncated(a, b, maxLength) whenever maxLength is not negative. */
  lemma TruncatePairClosedForm(a: seq<Token>, b: seq<Token>, maxLength: int)
    requires maxLength >= 0
    ensures TruncatePair(a, b, maxLength) == Ok(Truncated(a, b, maxLength))
  {
    TruncatePairPrefixes(a, b, maxLength);
    KeptLengthBounds(|a|, |b|, maxLength);
    var p := TruncatePair(a, b, maxLength).value;
    assert p.a == a[..|p.a|] && p.b == b[..|p.b|];
  }

  /** With a negative bound the pair can never fit: the loop empties a list and pop() raises. */
  lemma {:induction false} TruncatePairNegative(a: seq<Token>, b: seq<Token>, maxLength: int)
    requires maxLength < 0
    ensures TruncatePair(a, b, maxLength) == Err(PopFromEmptyList)
    decreases |a| + |b|
  {
    if |a| > |b| {
      TruncatePairNegative(a[..|a| - 1], b, maxLength);
    } else if b != [] {
      TruncatePairNegative(a, b[..|b| - 1], maxLength);
    }
  }

  /** The promises of the truncation: it fails exactly on a negative bound; otherwise the pair has
      total length min(original total, maxLength), each list is a prefix of its original, and a
      pair that already fits is left alone. */
  lemma {:induction false} TruncatePairSpec(a: seq<Token>, b: seq<Token>, maxLength: int)
    ensures TruncatePair(a, b, maxLength).Ok? <==> maxLength >= 0
    ensures maxLength < 0 ==> TruncatePair(a, b, maxLength) == Err(PopFromEmptyList)
    ensures maxLength >= 0 ==>
      var p := TruncatePair(a, b, maxLength).value;
      |p.a| + |p.b| == Min(|a| + |b|, maxLength) &&
      p.a <= a && p.b <= b &&
      (|a| + |b| <= maxLength ==> p == TokenPair(a, b))
  {
    if maxLength < 0 {
      TruncatePairNegative(a, b, maxLength);
    } else {
      TruncatePairClosedForm(a, b, maxLength);
      KeptLengthBounds(|a|, |b|, maxLength);
    }
  }

  /** The tie-break: once both lists have lost tokens, `a` is left equal to `b` or one longer,
      never shorter, because an equal-length pair always gives up a token of `b` first. */
  lemma TruncatePairTieBreak(a: seq<Token>, b: seq<Token>, maxLength: int)
    requires maxLength >= 0
    ensures var r := TruncatePair(a, b, maxLength);
      r.Ok? && (|r.value.a| < |a| && |r.value.b| < |b| ==>
                |r.value.a| == |r.value.b| || |r.value.a| == |r.value.b| + 1)
    ensures |a| == |b| && |a| + |b| > maxLength ==>
      TruncatePair(a, b, maxLength) == Ok(TokenPair(a[..(maxLength + 1) / 2], b[..maxLength / 2]))
  {
    TruncatePairClosedForm(a, b, maxLength);
    KeptLengthBounds(|a|, |b|, maxLength);
  }

  /** The worked scenario: the longer `a` loses its last token and the pair then fits. */
  lemma TruncatePairScenario()
    ensures TruncatePair(["a", "b", "c"], ["x", "y"], 4) == Ok(TokenPair(["a", "b"], ["x", "y"]))
    ensures TruncatePair(["a", "b"], ["x", "y"], 3) == Ok(TokenPair(["a", "b"], ["x"]))
  {
    TruncatePairClosedForm(["a", "b", "c"], ["x", "y"], 4);
    assert ["a", "b", "c"][..2] == ["a", "b"] && ["x", "y"][..2] == ["x", "y"];
    TruncatePairClosedForm(["a", "b"], ["x", "y"], 3);
    assert ["a", "b"][..2] == ["a", "b"] && ["x", "y"][..1] == ["x"];
  }

  /** `_truncate_seq_pair`: the two lists it pops in place are returned as a pair. */
  method TruncateSeqPair(tokensA: seq<Token>, tokensB: seq<Token>, maxLength: int)
    returns (r: Result<TokenPair>)
    ensures r == TruncatePair(tokensA, tokensB, maxLength)
    ensures maxLength >= 0 ==> r == Ok(Truncated(tokensA, tokensB, maxLength))
    ensures maxLength < 0 ==> r == Err(PopFromEmptyList)
  {
    var a, b := tokensA, tokensB;
    while true
      invariant TruncatePair(a, b, maxLength) == TruncatePair(tokensA, tokensB, maxLength)
      decreases |a| + |b|
    {
      var totalLength := |a| + |b|;
      if totalLength <= maxLength {
        break;
      }
      if |a| > |b| {
        a := a[..|a| - 1];
      } else if b == [] {
        return Err(PopFromEmptyList);
      } else {
        b := b[..|b| - 1];
      }
    }
    r := Ok(TokenPair(a, b));
    if maxLength >= 0 {
      TruncatePairClosedForm(tokensA, tokensB, maxLength);
    } else {
      TruncatePairNegative(tokensA, tokensB, maxLength);
    }
  }
}
