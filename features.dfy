/** InputExample / InputFeatures and the conversion of examples into padded, fixed-length features. */
module Features {
  import opened Wrappers
  import opened Tokenizers
  import opened Truncation

  /** The default of `max_seq_length`. */
  const DefaultMaxSeqLength: int := 512

  datatype InputExample = InputExample(guid: int, textA: string, textB: Option<string>, labelId: Option<int>)

  datatype InputFeatures = InputFeatures(
    inputIds: seq<int>,
    attentionMask: seq<int>,
    tokenTypeIds: seq<int>,
    labelId: Option<int>,
    inputLen: nat)

  /** One row of the dataset as its iterator yields it: text_a, text_b, label and an ignored column. */
  datatype DatasetRow = DatasetRow(textA: string, textB: string, labelId: int, ignored: string)

  function Zeros(n: nat): seq<int> { seq(n, _ => 0) }

  function Ones(n: nat): seq<int> { seq(n, _ => 1) }

  /** The truthiness test on text_b: absent and empty text both mean a single sequence. */
  predicate HasText(t: Option<string>) { t.Some? && t.value != "" }

  /** The slice s[0:stop] with its negative-stop meaning (drop that many tokens from the end). */
  function SliceTo(s: seq<Token>, stop: int): seq<Token>
  {
    if stop >= 0 then s[..Min(stop, |s|)] else s[..Max(0, |s| + stop)]
  }

  // ---------------------------------------------------------------- specification

  /** The tokens kept for an example: a pair truncated together, or text_a cut to maxSeqLength. */
  function KeptTokens(ex: InputExample, tok: Tokenizer, maxSeqLength: int): Result<TokenPair>
  {
    var tokensA := tok.tokenize(ex.textA);
    if HasText(ex.textB) then TruncatePair(tokensA, tok.tokenize(ex.textB.value), maxSeqLength)
    else Ok(TokenPair(if |tokensA| > maxSeqLength then SliceTo(tokensA, maxSeqLength) else tokensA, []))
  }

  /** Padding is counted from the ids: as many zeros as bring them up to maxSeqLength. */
  function PadCount(n: nat, maxSeqLength: int): nat
  {
    if n < maxSeqLength then maxSeqLength - n else 0
  }

  /** The feature built from the kept tokens, or the failed length assertion. */
  function Assemble(p: TokenPair, tok: Tokenizer, maxSeqLength: int, labelId: Option<int>): Result<InputFeatures>
  {
    var ids := tok.convertTokensToIds(p.a + p.b);
    var k := PadCount(|ids|, maxSeqLength);
    var f := InputFeatures(ids + Zeros(k), Ones(|ids|) + Zeros(k), Zeros(|p.a|) + Ones(|p.b|) + Zeros(k), labelId, |ids|);
    if |f.inputIds| == maxSeqLength && |f.attentionMask| == maxSeqLength && |f.tokenTypeIds| == maxSeqLength
    then Ok(f) else Err(AssertionFailed)
  }

  function ExampleFeatures(ex: InputExample, tok: Tokenizer, maxSeqLength: int): Result<InputFeatures>
  {
    match KeptTokens(ex, tok, maxSeqLength)
    case Err(e) => Err(e)
    case Ok(p) => Assemble(p, tok, maxSeqLength, ex.labelId)
  }

  /** What the loop emits for the example at position exIndex: the first example is also printed,
      and formatting its label with %d raises unless the label is a number. */
  function LoggedFeature(ex: InputExample, exIndex: nat, tok: Tokenizer, maxSeqLength: int): Result<InputFeatures>
  {
    var r := ExampleFeatures(ex, tok, maxSeqLength);
    if r.Ok? && exIndex < 1 && ex.labelId.None? then Err(LabelNotANumber) else r
  }

  /** The shape every emitted feature has: three fields of length maxSeqLength, a mask of inputLen
      ones then zeros, and zeros in ids and type ids past inputLen. */
  predicate WellFormed(f: InputFeatures, maxSeqLength: int)
  {
    |f.inputIds| == maxSeqLength && |f.attentionMask| == maxSeqLength && |f.tokenTypeIds| == maxSeqLength &&
    f.inputLen <= maxSeqLength &&
    f.attentionMask == Ones(f.inputLen) + Zeros(maxSeqLength - f.inputLen) &&
    (forall i :: f.inputLen <= i < maxSeqLength ==> f.inputIds[i] == 0 && f.tokenTypeIds[i] == 0)
  }

  // ---------------------------------------------------------------- properties

  /** The single-sequence case keeps the first maxSeqLength tokens of text_a, all of them if it is short. */
  lemma SingleSequenceKeepsPrefix(ex: InputExample, tok: Tokenizer, maxSeqLength: int)
    requires !HasText(ex.textB) && maxSeqLength >= 0
    ensures var tokensA := tok.tokenize(ex.textA);
      KeptTokens(ex, tok, maxSeqLength) == Ok(TokenPair(tokensA[..Min(|tokensA|, maxSeqLength)], [])) &&
      (|tokensA| <= maxSeqLength ==> KeptTokens(ex, tok, maxSeqLength) == Ok(TokenPair(tokensA, [])))
  {
    var tokensA := tok.tokenize(ex.textA);
    assert tokensA[..|tokensA|] == tokensA;
  }

  /** The kept tokens fit, and are prefixes of what the tokenizer produced. */
  lemma KeptTokensSpec(ex: InputExample, tok: Tokenizer, maxSeqLength: int)
    requires maxSeqLength >= 0
    ensures KeptTokens(ex, tok, maxSeqLength).Ok?
    ensures var p := KeptTokens(ex, tok, maxSeqLength).value;
      |p.a| + |p.b| <= maxSeqLength &&
      p.a <= tok.tokenize(ex.textA) &&
      (HasText(ex.textB) ==> p.b <= tok.tokenize(ex.textB.value)) &&
      (!HasText(ex.textB) ==> p.b == [])
  {
    if HasText(ex.textB) {
      TruncatePairSpec(tok.tokenize(ex.textA), tok.tokenize(ex.textB.value), maxSeqLength);
    } else {
      SingleSequenceKeepsPrefix(ex, tok, maxSeqLength);
    }
  }

  /** With a negative maxSeqLength every example fails: a pair by popping an empty list, a single
      sequence at the length assertion. */
  lemma ExampleFeaturesNegative(ex: InputExample, tok: Tokenizer, maxSeqLength: int)
    requires maxSeqLength < 0
    ensures ExampleFeatures(ex, tok, maxSeqLength) ==
      Err(if HasText(ex.textB) then PopFromEmptyList else AssertionFailed)
  {
    if HasText(ex.textB) {
      TruncatePairNegative(tok.tokenize(ex.textA), tok.tokenize(ex.textB.value), maxSeqLength);
    }
  }

  /** Assembling kept tokens that fit: the assertions pass exactly when the ids are one per token,
      and then the feature is well formed, its ids start with the tokens' ids, and its type ids
      are |a| zeros, |b| ones and the padding. */
  lemma AssembleSpec(p: TokenPair, tok: Tokenizer, maxSeqLength: int, labelId: Option<int>)
    requires |p.a| + |p.b| <= maxSeqLength
    ensures var ids := tok.convertTokensToIds(p.a + p.b);
      Assemble(p, tok, maxSeqLength, labelId).Ok? <==> |ids| == |p.a| + |p.b|
    ensures var r := Assemble(p, tok, maxSeqLength, labelId);
      r.Ok? ==>
        var f := r.value;
        WellFormed(f, maxSeqLength) && f.labelId == labelId &&
        f.inputLen == |p.a| + |p.b| &&
        f.inputIds[..f.inputLen] == tok.convertTokensToIds(p.a + p.b) &&
        f.tokenTypeIds == Zeros(|p.a|) + Ones(|p.b|) + Zeros(maxSeqLength - f.inputLen)
  {
  }

  /** Under one id per token, every example with maxSeqLength >= 0 yields a well-formed feature
      carrying its label, so the code's length assertions never fire. */
  lemma ExampleFeaturesSpec(ex: InputExample, tok: Tokenizer, maxSeqLength: int)
    requires IdsPreserveLength(tok) && maxSeqLength >= 0
    ensures var r := ExampleFeatures(ex, tok, maxSeqLength);
      r.Ok? && WellFormed(r.value, maxSeqLength) && r.value.labelId == ex.labelId &&
      var p := KeptTokens(ex, tok, maxSeqLength).value;
      r.value.inputLen == |p.a| + |p.b| &&
      r.value.inputIds[..r.value.inputLen] == tok.convertTokensToIds(p.a + p.b) &&
      r.value.tokenTypeIds == Zeros(|p.a|) + Ones(|p.b|) + Zeros(maxSeqLength - r.value.inputLen)
  {
    KeptTokensSpec(ex, tok, maxSeqLength);
    var p := KeptTokens(ex, tok, maxSeqLength).value;
    assert |tok.convertTokensToIds(p.a + p.b)| == |p.a + p.b|;
    AssembleSpec(p, tok, maxSeqLength, ex.labelId);
  }

  /** Only the first example is printed, so only its label must be a number; past the printing
      the emitted feature is the converted one. */
  lemma LoggedFeatureSpec(ex: InputExample, exIndex: nat, tok: Tokenizer, maxSeqLength: int)
    requires IdsPreserveLength(tok) && maxSeqLength >= 0
    ensures LoggedFeature(ex, exIndex, tok, maxSeqLength).Ok? <==> (exIndex >= 1 || ex.labelId.Some?)
    ensures LoggedFeature(ex, exIndex, tok, maxSeqLength).Ok? ==>
      LoggedFeature(ex, exIndex, tok, maxSeqLength) == ExampleFeatures(ex, tok, maxSeqLength)
  {
    ExampleFeaturesSpec(ex, tok, maxSeqLength);
  }

  // ---------------------------------------------------------------- the code

  /** `convert_dataset_to_examples`: the i-th row becomes the example with guid i. */
  method ConvertDatasetToExamples(rows: seq<DatasetRow>) returns (examples: seq<InputExample>)
    ensures |examples| == |rows|
    ensures forall i :: 0 <= i < |rows| ==>
      examples[i] == InputExample(i, rows[i].textA, Some(rows[i].textB), Some(rows[i].labelId))
  {
    examples := [];
    for i := 0 to |rows|
      invariant |examples| == i
      invariant forall j :: 0 <= j < i ==>
        examples[j] == InputExample(j, rows[j].textA, Some(rows[j].textB), Some(rows[j].labelId))
    {
      examples := examples + [InputExample(i, rows[i].textA, Some(rows[i].textB), Some(rows[i].labelId))];
    }
  }

  /** The token list and its type ids: 0 for every token of text_a, then 1 for every token of text_b. */
  method BuildTokens(tokensA: seq<Token>, tokensB: Option<seq<Token>>)
    returns (tokens: seq<Token>, tokenTypeIds: seq<int>)
    ensures var b := if tokensB.Some? then tokensB.value else [];
      tokens == tokensA + b && tokenTypeIds == Zeros(|tokensA|) + Ones(|b|)
  {
    tokens, tokenTypeIds := [], [];
    for i := 0 to |tokensA|
      invariant tokens == tokensA[..i]
      invariant tokenTypeIds == Zeros(i)
    {
      tokens := tokens + [tokensA[i]];
      tokenTypeIds := tokenTypeIds + [0];
    }
    assert tokensA[..|tokensA|] == tokensA;
    if tokensB.Some? {
      var b := tokensB.value;
      for i := 0 to |b|
        invariant tokens == tokensA + b[..i]
        invariant tokenTypeIds == Zeros(|tokensA|) + Ones(i)
      {
        tokens := tokens + [b[i]];
        tokenTypeIds := tokenTypeIds + [1];
      }
      assert b[..|b|] == b;
    } else {
      assert tokens == tokensA + [];
      assert tokenTypeIds == Zeros(|tokensA|) + Ones(0);
    }
  }

  /** The zero-padding loop: while the ids are shorter than maxSeqLength, one 0 goes onto each
      of the three lists, so all three gain the same number of zeros. */
  method ZeroPad(inputIds: seq<int>, attentionMask: seq<int>, tokenTypeIds: seq<int>, maxSeqLength: int)
    returns (ids: seq<int>, mask: seq<int>, types: seq<int>)
    ensures var k := PadCount(|inputIds|, maxSeqLength);
      ids == inputIds + Zeros(k) && mask == attentionMask + Zeros(k) && types == tokenTypeIds + Zeros(k)
    ensures |ids| == Max(|inputIds|, maxSeqLength)
  {
    ids, mask, types := inputIds, attentionMask, tokenTypeIds;
    while |ids| < maxSeqLength
      invariant ids == inputIds + Zeros(|ids| - |inputIds|)
      invariant mask == attentionMask + Zeros(|ids| - |inputIds|)
      invariant types == tokenTypeIds + Zeros(|ids| - |inputIds|)
      invariant |ids| <= Max(|inputIds|, maxSeqLength)
      decreases maxSeqLength - |ids|
    {
      ids := ids + [0];
      mask := mask + [0];
      types := types + [0];
    }
  }

  /** One pass of the loop body of `convert_examples_to_features`; of the debug printing only the
      failure of its label formatting is kept. */
  method ConvertExample(example: InputExample, exIndex: nat, tok: Tokenizer, maxSeqLength: int)
    returns (r: Result<InputFeatures>)
    ensures r == LoggedFeature(example, exIndex, tok, maxSeqLength)
    ensures maxSeqLength < 0 ==> r.Err?
    ensures exIndex < 1 && example.labelId.None? ==> r.Err?
    ensures IdsPreserveLength(tok) && maxSeqLength >= 0 && (exIndex >= 1 || example.labelId.Some?) ==>
      r.Ok? && WellFormed(r.value, maxSeqLength) && r.value.labelId == example.labelId
  {
    var tokensA := tok.tokenize(example.textA);
    var tokensB: Option<seq<Token>> := None;
    if HasText(example.textB) {
      tokensB := Some(tok.tokenize(example.textB.value));
    }
    if tokensB.Some? {
      var t := TruncateSeqPair(tokensA, tokensB.value, maxSeqLength);
      if t.Err? {
        return Err(t.error);
      }
      tokensA, tokensB := t.value.a, Some(t.value.b);
    } else if |tokensA| > maxSeqLength {
      tokensA := SliceTo(tokensA, maxSeqLength);
    }
    ghost var kept := TokenPair(tokensA, if tokensB.Some? then tokensB.value else []);
    assert KeptTokens(example, tok, maxSeqLength) == Ok(kept);

    var tokens, tokenTypeIds := BuildTokens(tokensA, tokensB);
    assert tokens == kept.a + kept.b;

    var inputIds := tok.convertTokensToIds(tokens);
    var attentionMask := Ones(|inputIds|);
    var inputLen := |inputIds|;
    inputIds, attentionMask, tokenTypeIds := ZeroPad(inputIds, attentionMask, tokenTypeIds, maxSeqLength);

    if !(|inputIds| == maxSeqLength && |attentionMask| == maxSeqLength && |tokenTypeIds| == maxSeqLength) {
      r := Err(AssertionFailed);
    } else if exIndex < 1 && example.labelId.None? {
      r := Err(LabelNotANumber);
    } else {
      r := Ok(InputFeatures(inputIds, attentionMask, tokenTypeIds, example.labelId, inputLen));
    }
    if maxSeqLength < 0 {
      ExampleFeaturesNegative(example, tok, maxSeqLength);
    } else if IdsPreserveLength(tok) {
      ExampleFeaturesSpec(example, tok, maxSeqLength);
    }
  }

  /** `convert_examples_to_features`: one feature per example, in order; the first example that
      fails stops the whole conversion with its exception. */
  method ConvertExamplesToFeatures(examples: seq<InputExample>, tok: Tokenizer, maxSeqLength: int := DefaultMaxSeqLength)
    returns (r: Result<seq<InputFeatures>>)
    ensures r.Ok? <==> forall i :: 0 <= i < |examples| ==> LoggedFeature(examples[i], i, tok, maxSeqLength).Ok?
    ensures r.Ok? ==> |r.value| == |examples| &&
                      forall i :: 0 <= i < |examples| ==> Ok(r.value[i]) == ExampleFeatures(examples[i], tok, maxSeqLength)
    ensures r.Err? ==> exists k :: (0 <= k < |examples| &&
                                    (forall i :: 0 <= i < k ==> LoggedFeature(examples[i], i, tok, maxSeqLength).Ok?) &&
                                    LoggedFeature(examples[k], k, tok, maxSeqLength) == Err(r.error))
    ensures IdsPreserveLength(tok) && maxSeqLength >= 0 && (|examples| > 0 ==> examples[0].labelId.Some?) ==>
      r.Ok? && forall i :: 0 <= i < |examples| ==>
        WellFormed(r.value[i], maxSeqLength) && r.value[i].labelId == examples[i].labelId
    ensures maxSeqLength < 0 && |examples| > 0 ==> r.Err?
    ensures |examples| > 0 && examples[0].labelId.None? ==> r.Err?
  {
    var features: seq<InputFeatures> := [];
    for exIndex := 0 to |examples|
      invariant |features| == exIndex
      invariant forall i :: 0 <= i < exIndex ==> Ok(features[i]) == LoggedFeature(examples[i], i, tok, maxSeqLength)
    {
      var f := ConvertExample(examples[exIndex], exIndex, tok, maxSeqLength);
      if f.Err? {
        return Err(f.error);
      }
      features := features + [f.value];
    }
    r := Ok(features);
    if maxSeqLength < 0 && |examples| > 0 {
      ExampleFeaturesNegative(examples[0], tok, maxSeqLength);
    }
    if IdsPreserveLength(tok) && maxSeqLength >= 0 {
      forall i | 0 <= i < |examples|
        ensures WellFormed(r.value[i], maxSeqLength) && r.value[i].labelId == examples[i].labelId
      {
        ExampleFeaturesSpec(examples[i], tok, maxSeqLength);
      }
    }
  }
}
