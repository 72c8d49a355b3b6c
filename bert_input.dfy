/**
  The model input of Program.cs: the tokenizer's list of
  (input id, attention mask, token type id) triples is split into the three
  parallel `long[]` arrays of the `BertInput` struct.
 */
module BertInputs {

  /** A C# `long`. */
  newtype Int64 = x: int | -0x8000_0000_0000_0000 <= x < 0x8000_0000_0000_0000

  /** One element of the tokenizer's encoding, aligned with one token. */
  datatype Encoding = Encoding(inputIds: Int64, attentionMask: Int64, tokenTypeIds: Int64)

  /** The `BertInput` struct; its arrays are built once and only read afterwards. */
  datatype BertInput = BertInput(inputIds: seq<Int64>, attentionMask: seq<Int64>, typeIds: seq<Int64>)

  /** The three arrays have one length, as the three input tensors of shape {1, N} need. */
  predicate Aligned(b: BertInput) {
    |b.inputIds| == |b.attentionMask| == |b.typeIds|
  }

  /** The three `Select(...).ToArray()` projections of `encoded`. */
  function ToBertInput(encoded: seq<Encoding>): (b: BertInput)
    ensures Aligned(b) && |b.inputIds| == |encoded|
  {
    BertInput(
      seq(|encoded|, k requires 0 <= k < |encoded| => encoded[k].inputIds),
      seq(|encoded|, k requires 0 <= k < |encoded| => encoded[k].attentionMask),
      seq(|encoded|, k requires 0 <= k < |encoded| => encoded[k].tokenTypeIds))
  }

  /** The inverse direction: re-pair the three arrays position by position. */
  function Zip(b: BertInput): (encoded: seq<Encoding>)
    requires Aligned(b)
    ensures |encoded| == |b.inputIds|
  {
    seq(|b.inputIds|, k requires 0 <= k < |b.inputIds| =>
      Encoding(b.inputIds[k], b.attentionMask[k], b.typeIds[k]))
  }

  /** Element `k` of each array is the matching field of `encoded[k]`. */
  lemma ToBertInputAt(encoded: seq<Encoding>, k: nat)
    requires k < |encoded|
    ensures ToBertInput(encoded).inputIds[k] == encoded[k].inputIds
    ensures ToBertInput(encoded).attentionMask[k] == encoded[k].attentionMask
    ensures ToBertInput(encoded).typeIds[k] == encoded[k].tokenTypeIds
  {
  }

  /** Splitting loses nothing: zipping the three arrays gives back the encoding. */
  lemma ZipToBertInput(encoded: seq<Encoding>)
    ensures Zip(ToBertInput(encoded)) == encoded
  {
  }

  /** Every aligned `BertInput` is the split of exactly one encoding. */
  lemma ToBertInputZip(b: BertInput)
    requires Aligned(b)
    ensures ToBertInput(Zip(b)) == b
  {
  }
}
