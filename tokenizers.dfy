/** The tokenizer is an external collaborator: only the functions the dataset code calls on it,
    with nothing assumed about how it splits text or assigns ids. */
module Tokenizers {

  type Token = string

  /** What the tokenizer returns when called on a prompt with truncation at 256 and no padding. */
  datatype Encoding = Encoding(inputIds: seq<int>, attentionMask: seq<int>)

  /** The tokenizer's mode flag `return_token` is replaced by two functions: `tokenize` (the flag
      set, text to tokens) and `encode` (the keyword call that returns ids and a mask). */
  datatype Tokenizer = Tokenizer(
    tokenize: string -> seq<Token>,
    convertTokensToIds: seq<Token> -> seq<int>,
    encode: string -> Encoding,
    eosTokenId: int)

  /** The assumption under which the feature code never fails its length assertions:
      one id per token. */
  ghost predicate IdsPreserveLength(tok: Tokenizer)
  {
    forall ts: seq<Token> :: |tok.convertTokensToIds(ts)| == |ts|
  }
}
