# Feature construction for the Alpaca fine-tuning dataset

A Dafny model of the dataset-preparation core of `train_falcon/alpaca_dataset.py`: the pair
truncation `_truncate_seq_pair`, the conversion of raw examples into fixed-length padded features
(`convert_examples_to_features`, with `convert_dataset_to_examples` in front of it), and the
prompt tokenization `tokenize` that appends an end-of-sequence id and copies ids into labels.

The tokenizer is external and stays abstract: `Tokenizers.Tokenizer` is a record of the
functions the code calls (`tokenize` for text to tokens, `convertTokensToIds`, `encode` for the
keyword call with truncation at 256 and no padding) and the `eosTokenId`. Nothing is assumed
about them except, where a lemma says so, `IdsPreserveLength` (one id per token).

Modules: `Wrappers` (Option, Result and the exceptions the code raises), `Tokenizers`,
`Truncation`, `Features` (the `InputExample` / `InputFeatures` records and the conversion),
`Prompt`. Each Python list that the code mutates in place is a local `seq` that the method
reassigns, and the lists handed back to the caller are returned values.

Exceptions are results, not preconditions: `Err(PopFromEmptyList)` when `pop()` hits an empty
list (a negative `max_length`: the pair can never fit), `Err(AssertionFailed)` when a padded
field's length is not `max_seq_length`, `Err(LastOfEmptyList)` when `tokenize` gets an empty
encoding and `input_ids[-1]` raises, `Err(LabelNotANumber)` when the debug print of the first
example cannot format its label.

Three facts about the code shape the model: `if example.text_b:` is Python truthiness, so an
empty `text_b` takes the single-sequence path; an empty encoding fails inside `tokenize` itself,
at `input_ids[-1]`; and for kept tokens that fit, the length assertions pass exactly when the
ids are one per token (`AssembleSpec`), so one id per token is needed only for the corollaries.
The debug print of the first example formats its label with `%d`, which raises `TypeError`
unless the label is a number; the model returns `Err(LabelNotANumber)` when the first example's
label is absent.

## Model

| member | source | states |
|---|---|---|
| `Truncation.TruncateSeqPair` | train_falcon/alpaca_dataset.py:72-81 | the loop ends where the step-by-step definition does; for `maxLength >= 0` it returns the prefixes `Truncated` describes in closed form, for a negative bound it raises on pop |
| `Truncation.TruncatePairClosedForm` | train_falcon/alpaca_dataset.py:74-81 | for `maxLength >= 0` the pops stop at prefixes of lengths `x = KeptLengthA` and `min(total, maxLength) - x` |
| `Truncation.TruncatePairPrefixes` | train_falcon/alpaca_dataset.py:74-81 | for `maxLength >= 0` the loop succeeds, only pops (both results are prefixes), keeps `KeptLengthA` tokens of `a` and totals `min(original total, maxLength)` |
| `Truncation.TruncatePairNegative` | train_falcon/alpaca_dataset.py:76-81 | with a negative bound the loop always reaches `pop()` on an empty list |
| `Truncation.TruncatePairSpec` | train_falcon/alpaca_dataset.py:74-81 | succeeds iff `maxLength >= 0`; then total length is `min(original total, maxLength)`, both results are prefixes of the inputs, and a pair that already fits is unchanged |
| `Truncation.TruncatePairTieBreak` | train_falcon/alpaca_dataset.py:78-81 | once both lists lose tokens `a` ends equal to `b` or one longer; two equal lists keep `ceil(M/2)` and `floor(M/2)` tokens, `b` having lost first |
| `Truncation.TruncatePairScenario` | train_falcon/alpaca_dataset.py:78-81 | `[a,b,c]`,`[x,y]`,4 gives `[a,b]`,`[x,y]`; the tie `[a,b]`,`[x,y]`,3 gives `[a,b]`,`[x]` |
| `Features.ConvertDatasetToExamples` | train_falcon/alpaca_dataset.py:51-69 | one example per row, in order, the i-th with guid i and the row's texts and label |
| `Features.BuildTokens` | train_falcon/alpaca_dataset.py:101-111 | tokens are `tokens_a` then `tokens_b`; type ids are `|tokens_a|` zeros then `|tokens_b|` ones |
| `Features.ZeroPad` | train_falcon/alpaca_dataset.py:123-127 | ids, mask and type ids each gain the same number of zeros, enough to bring the ids to `max_seq_length` and none if they already reach it |
| `Features.ConvertExample` | train_falcon/alpaca_dataset.py:88-153 | the loop body at position `exIndex` equals `LoggedFeature`: the converted feature, or the label-formatting error for a first example without a numeric label; fails for a negative length; well formed with the label carried over under one id per token and a printable label |
| `Features.ConvertExamplesToFeatures` | train_falcon/alpaca_dataset.py:84-154 | succeeds iff every example converts and the first one's label can be printed; then one feature per example in order; otherwise the exception of the first failing example; all features well formed and labelled under one id per token when the first label is a number; fails on a negative length with any example, and when the first label is absent |
| `Features.SingleSequenceKeepsPrefix` | train_falcon/alpaca_dataset.py:97-99 | without `text_b`, `tokens_a` becomes its first `max_seq_length` tokens and stays unchanged when it is short enough |
| `Features.KeptTokensSpec` | train_falcon/alpaca_dataset.py:89-99 | for `max_seq_length >= 0` the kept tokens fit in `max_seq_length` and are prefixes of the tokenizer's output; no `text_b` means no second list |
| `Features.ExampleFeaturesNegative` | train_falcon/alpaca_dataset.py:93-131 | a negative `max_seq_length` makes a pair fail at `pop()` and a single sequence fail at the length assertion |
| `Features.AssembleSpec` | train_falcon/alpaca_dataset.py:113-133 | for kept tokens that fit, the assertions pass iff the ids are one per token; the feature then has all three lengths `max_seq_length`, mask of `input_len` ones then zeros, ids equal to the tokens' ids then zeros, type ids zeros/ones/zero padding and the label unchanged |
| `Features.ExampleFeaturesSpec` | train_falcon/alpaca_dataset.py:115-133 | under one id per token and `max_seq_length >= 0` every example gives a well-formed feature with `input_len <= max_seq_length`, its label, and ids and type ids shaped as above |
| `Features.LoggedFeatureSpec` | train_falcon/alpaca_dataset.py:133-143 | under one id per token and `max_seq_length >= 0`, the emitted feature fails iff it is the first and its label is absent; otherwise it is the converted feature |
| `Prompt.Tokenize` | train_falcon/alpaca_dataset.py:157-177 | eos and a mask entry 1 are appended exactly when the last id is not eos, the length is below 256 and `add_eos_token` is set, otherwise both lists are unchanged; labels equal the ids; an empty encoding raises; with `add_eos_token` the result ends in eos unless the encoding already reached 256 |

## Left out

- `load_examples` and `get_dataloader_from_ds`: dataset download, shuffling, `map`, and the framework's slice dataset and sequential sampler are framework plumbing.
- `generate_and_tokenize_prompt`: it calls `tokenize` without the required tokenizer argument and builds the prompt with `generate_prompt`, and `prepare_alpaca` is not part of this model.
- `to_dict`, `to_json_string`, `__repr__`: deep copy and library JSON serialisation.
- The debug printing of the first example: what it writes is not modelled; its one way of failing, formatting a non-numeric label with `%d`, is.
- The `str(x.asnumpy())` and `int(label)` conversions in `convert_dataset_to_examples`: the rows arrive already as strings and an integer.
- The tokenizer's vocabulary and subword logic, and its `return_token` mode flag: replaced by the abstract functions of `Tokenizers.Tokenizer`.
- Aliasing: `_truncate_seq_pair` pops two caller-owned lists in place; the model returns the two shortened lists, so passing the same list twice is not modelled (the caller never does).
- Labels are modelled as optional integers: a present label is a number and prints, an absent one (`None`, the constructor default) makes the print raise. Labels of other types (strings, say) are not modelled.
- `test/test_flashattention/profile/forward+backward/test_manual_attn_fwdbwd.py`: floating-point tensor algebra, automatic differentiation, device checks and profiler hooks of the host framework.
