# BERT named-entity label decoder — a Dafny model

This project models the decoding core of a small C# program that tags every
sub-word token of a sentence with a BIO named-entity label. The program uses a
BERT token-classification model for this. The program hands the tokenizer's encoding to an
ONNX inference session and reads back a flat buffer of scores, 9 per token.
It then decodes that buffer, token by token, into one of nine tags.

Three parts are modelled, all from `Program.cs`:

- **Label lookup** (`Labels` module, `labels.dfy`). `id2label` maps class
  indices 0..8 to `O, B-MISC, I-MISC, B-PER, I-PER, B-ORG, I-ORG, B-LOC, I-LOC`
  and maps every other integer to `UNKNOWN`.
- **Stride decoder** (`Decoder` module, `decoder.dfy`). The nested loop of
  `Main` becomes the method `Decode`, with both loops and their invariants. The
  inner scan starts from the `float.MinValue` sentinel and the index -1 and
  moves on only when a score is strictly greater. Its specification is the
  function `ScanIndex`. The lemmas prove that it selects the first maximum above
  the sentinel, or -1 when no score beats the sentinel.
  `DecodedLabels` gives the tag of every complete stride, in stride order.
- **Model input** (`BertInputs` module, `bert_input.dfy`). The `BertInput`
  struct and the three `Select` projections that split the encoding triples
  into parallel arrays. The inverse `Zip` proves that the split loses nothing.

Scores are `real`s. The decoder only compares scores, and a finite 32-bit float
compares as its exact real value. `float.MinValue` is written out exactly,
as -(2^24 - 1) * 2^104. A score below it plays the part of negative infinity.
So a stride whose scores all sit at or below the sentinel is decoded to
index -1 and the tag `UNKNOWN`, as in the source.

`Decode` has no precondition. The C# loop reads `logitsSpan[i + j]` and
`tokens[i / numClasses]` without any check, and either read can throw. The model
reports which read would fail as an `Outcome` (`LogitsOutOfRange` or
`TokensOutOfRange`). It also returns the labels and lines produced before the
failing read. A buffer whose length is not a multiple of 9 is therefore not
decoded with a truncated last stride. If there are at least as many tokens as
complete strides, the run stops with `LogitsOutOfRange` once every complete
stride has been emitted. With fewer tokens, the token read at Program.cs:84
fails first, right after the label of stride `|tokens|` was added
(`TokensOutOfRange`), whatever the buffer length. The source has no length
check; the fault is the out-of-range read itself.

## Model

| member | source | states |
|---|---|---|
| `Labels.Id2Label` | Program.cs:87-113 | indices 0..8 map to the nine schema tags in order; the result is `UNKNOWN` exactly when the index is outside [0, 9) (so -1 gives `UNKNOWN`); every result is a schema tag or `UNKNOWN` |
| `Labels.Id2LabelInjective` | Program.cs:87-113 | two indices in [0, 9) with the same tag are the same index: the nine cases return nine different tags |
| `Decoder.ScanIndex` | Program.cs:66-77 | the index the strict `>` scan holds after a stride is -1 or a position inside the stride |
| `Decoder.ScanIndexIsFirstMax` | Program.cs:66-77 | the scan yields -1 exactly when no score beats the `float.MinValue` sentinel; otherwise its index holds a score above the sentinel, at least every score of the stride, and strictly above every earlier score |
| `Decoder.FirstMaxIsScanIndex` | Program.cs:66-77 | conversely, any position that is the first maximum above the sentinel is the one the scan returns |
| `Decoder.TieKeepsEarliest` | Program.cs:72-76 | when two positions j1 < j2 both hold the stride's maximum, the later one j2 is never selected; the selected index is at most j1 and holds the same score |
| `Decoder.UniformStrideSelectsFirst` | Program.cs:66-76 | a stride of equal scores above the sentinel selects index 0 |
| `Decoder.DecodedLabelMeaning` | Program.cs:66-80 | the tag of stride k is `UNKNOWN` exactly when no score of the stride beats the sentinel, and is otherwise the schema tag of the stride's first maximum |
| `Decoder.ZeroLogitsDecodeToO` | Program.cs:63-92 | an all-zero buffer decodes every token to `O` |
| `Decoder.Decode` | Program.cs:61-85 | the run completes exactly when the buffer length is a multiple of 9 and there are at least as many tokens as strides; `predictedLabels[k]` is the tag of stride k (positions [9k, 9k+9)), in stride order, with nothing else added; the printed line k pairs `tokens[k]` with `predictedLabels[k]`; on an out-of-range read it says which read failed and what was emitted before it |
| `Decoder.DecodeAcmeCorp` | Program.cs:61-85 | a two-token buffer whose strides peak at classes 5 and 3, with tokens `Acme` and `Corp`, completes and prints (`Acme`, `B-ORG`), (`Corp`, `B-PER`) |
| `BertInputs.ToBertInput` | Program.cs:24-29 | `InputIds`, `AttentionMask` and `TypeIds` all have the length of `encoded` |
| `BertInputs.ToBertInputAt` | Program.cs:24-29 | element k of each array is the matching field of `encoded[k]` |
| `BertInputs.ZipToBertInput` | Program.cs:24-29 | zipping the three arrays back together gives the encoding again, so the split loses nothing |
| `BertInputs.ToBertInputZip` | Program.cs:121-126 | every `BertInput` whose three arrays have one length is the split of an encoding |

## Left out

- Tokenization (`BertBaseTokenizer.Tokenize` and `Encode`, Program.cs:14-21) is an external library. Its tokens and encoding triples are inputs of the model.
- The ONNX Runtime session, the tensor construction with shape {1, N}, `session.Run` and reading the output span (Program.cs:33-60) are native calls. The logits buffer is an input of `Decode`. `Aligned` states only that the three arrays share the length N of that shape.
- Disposal of native resources through `using` (Program.cs:33-55) has no logic to verify.
- Console output (Program.cs:84) is modelled as the sequence of (token, tag) pairs it prints. The text formatting of the line is not modelled.
- The hardcoded sentence and model path (Program.cs:12, 31) are configuration literals.
- IEEE-754 semantics are not modelled: NaN, infinities, rounding and signed zeros. Scores are ordered reals. A NaN score, which never compares greater in C#, is not represented.
- Determinism of a whole run follows from every member being a function of its inputs, and is not stated separately.
