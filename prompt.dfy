/** `tokenize`: encode an instruction prompt, end it with the end-of-sequence id when there is
    room, and copy the ids into the language-model labels. */
module Prompt {
  import opened Wrappers
  import opened Tokenizers

  /** The truncation length the tokenizer is called with, and the cap below which eos is appended. */
  const MaxPromptLength: int := 256

  datatype PromptEncoding = PromptEncoding(inputIds: seq<int>, attentionMask: seq<int>, labels: seq<int>)

  /** The three conditions under which the end-of-sequence id is appended. */
  predicate AppendsEos(enc: Encoding, eosTokenId: int, addEosToken: bool)
  {
    |enc.inputIds| > 0 &&
    enc.inputIds[|enc.inputIds| - 1] != eosTokenId &&
    |enc.inputIds| < MaxPromptLength &&
    addEosToken
  }

  method Tokenize(prompt: string, tok: Tokenizer, addEosToken: bool := true) returns (r: Result<PromptEncoding>)
    // an empty encoding has no last id to compare with eos
    ensures r.Err? <==> tok.encode(prompt).inputIds == []
    ensures r.Err? ==> r.error == LastOfEmptyList
    ensures r.Ok? && AppendsEos(tok.encode(prompt), tok.eosTokenId, addEosToken) ==>
      r.value.inputIds == tok.encode(prompt).inputIds + [tok.eosTokenId] &&
      r.value.attentionMask == tok.encode(prompt).attentionMask + [1]
    ensures r.Ok? && !AppendsEos(tok.encode(prompt), tok.eosTokenId, addEosToken) ==>
      r.value.inputIds == tok.encode(prompt).inputIds &&
      r.value.attentionMask == tok.encode(prompt).attentionMask
    ensures r.Ok? ==> r.value.labels == r.value.inputIds
    // with add_eos_token the result ends in eos unless the encoding already reached the cap,
    // so the rule applied once more would change nothing
    ensures r.Ok? && addEosToken ==>
      r.value.inputIds[|r.value.inputIds| - 1] == tok.eosTokenId || |tok.encode(prompt).inputIds| >= MaxPromptLength
    // an encoding within the truncation length stays within it
    ensures r.Ok? && |tok.encode(prompt).inputIds| <= MaxPromptLength ==> |r.value.inputIds| <= MaxPromptLength
  {
    var result := tok.encode(prompt);
    var inputIds, attentionMask := result.inputIds, result.attentionMask;
    if inputIds == [] {
      return Err(LastOfEmptyList);
    }
    if inputIds[|inputIds| - 1] != tok.eosTokenId && |inputIds| < MaxPromptLength && addEosToken {
      inputIds := inputIds + [tok.eosTokenId];
      attentionMask := attentionMask + [1];
    }
    // labels are a copy of the ids, not the same list
    var labels := inputIds;
    r := Ok(PromptEncoding(inputIds, attentionMask, labels));
  }
}
