/**
  The label decoder of Program.cs: the flat logits buffer is read in strides
  of `NumClasses` scores, one stride per token; in each stride a linear scan
  with a strict `>` picks the best class, starting from the `float.MinValue`
  sentinel and the index -1; the index is mapped to a tag and paired with the
  token of the same position.

  Scores are reals. The decoder only compares them, so a finite 32-bit float
  is its own real value; a score below the sentinel stands for -infinity.
 */
module Decoder {
  import opened Labels

  /** `float.MinValue`, the lowest finite 32-bit float: -(2^24 - 1) * 2^104. */
  const FloatMinValue: real := -340282346638528859811704183484516925440.0

  /** The running best score of a scan that holds index `p`. */
  function Best(s: seq<real>, p: int): (m: real)
    requires -1 <= p < |s|
  {
    if p == -1 then FloatMinValue else s[p]
  }

  /**
    The index the source's scan holds after reading all of `s`, written as
    the scan itself: the last score replaces the running best only when it
    is strictly greater.
   */
  function ScanIndex(s: seq<real>): (j: int)
    ensures -1 <= j < |s|
  {
    if |s| == 0 then -1
    else
      var p := ScanIndex(s[..|s| - 1]);
      if s[|s| - 1] > Best(s[..|s| - 1], p) then |s| - 1 else p
  }

  /** No score of `s` beats the sentinel. */
  ghost predicate NoneAboveSentinel(s: seq<real>) {
    forall k :: 0 <= k < |s| ==> s[k] <= FloatMinValue
  }

  /**
    `j` is the first position of a maximum of `s`, and that maximum beats the
    sentinel: the independent description of what the scan selects.
   */
  ghost predicate IsFirstMax(s: seq<real>, j: int) {
    && 0 <= j < |s|
    && s[j] > FloatMinValue
    && (forall k :: 0 <= k < |s| ==> s[k] <= s[j])
    && (forall k :: 0 <= k < j ==> s[k] < s[j])
  }

  /** The scan yields -1 exactly when nothing beats the sentinel, and otherwise the first maximum. */
  lemma {:induction false} ScanIndexIsFirstMax(s: seq<real>)
    ensures ScanIndex(s) == -1 <==> NoneAboveSentinel(s)
    ensures ScanIndex(s) != -1 ==> IsFirstMax(s, ScanIndex(s))
  {
    if |s| > 0 {
      var init := s[..|s| - 1];
      ScanIndexIsFirstMax(init);
      assert forall k :: 0 <= k < |init| ==> init[k] == s[k];
    }
  }

  /** The first maximum is unique, so it is what the scan returns. */
  lemma FirstMaxIsScanIndex(s: seq<real>, j: int)
    requires IsFirstMax(s, j)
    ensures ScanIndex(s) == j
  {
  }

  /**
    Ties are broken by first occurrence: of two positions holding the maximum
    the later one is never selected, and the one selected is no later than the
    earlier one and holds the same score.
   */
  lemma TieKeepsEarliest(s: seq<real>, j1: int, j2: int)
    requires 0 <= j1 < j2 < |s|
    requires s[j1] == s[j2] > FloatMinValue
    requires forall k :: 0 <= k < |s| ==> s[k] <= s[j1]
    ensures 0 <= ScanIndex(s) <= j1  // so j2, the later tie, is never selected
    ensures s[ScanIndex(s)] == s[j1]
  {
    ScanIndexIsFirstMax(s);
    assert !NoneAboveSentinel(s) by { assert s[j1] > FloatMinValue; }
  }

  /** A non-empty stride of equal scores above the sentinel (all zeros, say) selects class 0. */
  lemma UniformStrideSelectsFirst(s: seq<real>, c: real)
    requires |s| > 0 && c > FloatMinValue
    requires forall k :: 0 <= k < |s| ==> s[k] == c
    ensures ScanIndex(s) == 0
  {
  }

  /** Stride `k` of the buffer: positions [k * NumClasses, k * NumClasses + NumClasses). */
  function Stride(logits: seq<real>, k: nat): (s: seq<real>)
    requires (k + 1) * NumClasses <= |logits|
    ensures |s| == NumClasses
    ensures forall j :: 0 <= j < NumClasses ==> s[j] == logits[k * NumClasses + j]
  {
    logits[k * NumClasses .. k * NumClasses + NumClasses]
  }

  /** The tag decoded from stride `k`. */
  function StrideLabel(logits: seq<real>, k: nat): (tag: string)
    requires (k + 1) * NumClasses <= |logits|
  {
    Id2Label(ScanIndex(Stride(logits, k)))
  }

  /** The tags of the first `n` strides, in stride order. */
  function DecodedLabels(logits: seq<real>, n: nat): (labels: seq<string>)
    requires n * NumClasses <= |logits|
    ensures |labels| == n
    ensures forall k :: 0 <= k < n ==> labels[k] == StrideLabel(logits, k)
  {
    seq(n, k requires 0 <= k < n => StrideLabel(logits, k))
  }

  /**
    What each decoded tag means: a schema tag for the stride's first maximum,
    and "UNKNOWN" exactly for a stride in which no score beats the sentinel.
   */
  lemma DecodedLabelMeaning(logits: seq<real>, n: nat, k: nat)
    requires n * NumClasses <= |logits| && k < n
    ensures DecodedLabels(logits, n)[k] == Unknown <==> NoneAboveSentinel(Stride(logits, k))
    ensures forall j :: IsFirstMax(Stride(logits, k), j) ==> DecodedLabels(logits, n)[k] == Schema[j]
  {
    var s := Stride(logits, k);
    ScanIndexIsFirstMax(s);
    forall j | IsFirstMax(s, j) ensures DecodedLabels(logits, n)[k] == Schema[j] {
      FirstMaxIsScanIndex(s, j);
    }
  }

  /** A buffer of zeros decodes every token to "O". */
  lemma ZeroLogitsDecodeToO(logits: seq<real>, n: nat)
    requires |logits| == n * NumClasses
    requires forall i :: 0 <= i < |logits| ==> logits[i] == 0.0
    ensures forall k :: 0 <= k < n ==> DecodedLabels(logits, n)[k] == "O"
  {
    forall k | 0 <= k < n ensures DecodedLabels(logits, n)[k] == "O" {
      UniformStrideSelectsFirst(Stride(logits, k), 0.0);
    }
  }

  /** A buffer length splits into whole strides and a remainder. */
  lemma StrideCount(len: nat, n: nat, r: nat)
    requires len == n * NumClasses + r && r < NumClasses
    ensures len / NumClasses == n && len % NumClasses == r
  {
  }

  /** One step of the scan: reading score `w[j]` after the prefix `w[..j]`. */
  lemma ScanStep(w: seq<real>, j: nat)
    requires j < |w|
    ensures var p := ScanIndex(w[..j]);
      && ScanIndex(w[..j + 1]) == (if w[j] > Best(w[..j], p) then j else p)
      && Best(w[..j + 1], p) == Best(w[..j], p)
  {
    assert w[..j + 1][..j] == w[..j];
  }

  /** Decoding one more stride appends its tag and keeps the earlier ones. */
  lemma DecodedLabelsSnoc(logits: seq<real>, k: nat)
    requires (k + 1) * NumClasses <= |logits|
    ensures DecodedLabels(logits, k + 1) == DecodedLabels(logits, k) + [StrideLabel(logits, k)]
  {
  }

  /** One line the source prints: a token and the tag decoded for it. */
  datatype Prediction = Prediction(token: string, tag: string)

  /** How a run of the decode loop ends: normally, or on one of the two reads that can go out of range. */
  datatype Outcome =
    | Completed
    | LogitsOutOfRange  // `logitsSpan[i + j]` past the end: a trailing partial stride
    | TokensOutOfRange  // `tokens[i / numClasses]` past the end: more strides than tokens

  /**
    The decode loop of `Main`. `predictedLabels` is the list the source grows;
    `lines` are the (token, tag) pairs it prints. On a fault, both hold what
    was produced before the failing read.
   */
  method Decode(logits: seq<real>, tokens: seq<string>)
    returns (predictedLabels: seq<string>, lines: seq<Prediction>, outcome: Outcome)
    ensures outcome == Completed <==> |logits| % NumClasses == 0 && |logits| / NumClasses <= |tokens|
    ensures outcome == TokensOutOfRange <==> |tokens| < |logits| / NumClasses
    ensures predictedLabels ==
      DecodedLabels(logits, if |tokens| < |logits| / NumClasses then |tokens| + 1 else |logits| / NumClasses)
    ensures |lines| == if |tokens| < |logits| / NumClasses then |tokens| else |logits| / NumClasses
    ensures forall k :: 0 <= k < |lines| ==> lines[k] == Prediction(tokens[k], predictedLabels[k])
  {
    predictedLabels, lines, outcome := [], [], Completed;
    ghost var n, r := |logits| / NumClasses, |logits| % NumClasses;
    var i := 0;
    while i < |logits|
      invariant i == |predictedLabels| * NumClasses <= |logits|
      invariant |predictedLabels| <= |tokens| && |lines| == |predictedLabels|
      invariant predictedLabels == DecodedLabels(logits, |predictedLabels|)
      invariant forall k :: 0 <= k < |lines| ==> lines[k] == Prediction(tokens[k], predictedLabels[k])
    {
      ghost var k := |predictedLabels|;
      ghost var w := logits[i..];
      var predictedLabelIndex := -1;
      var maxScore := FloatMinValue;
      for j := 0 to NumClasses
        invariant j <= |w|
        invariant predictedLabelIndex == ScanIndex(w[..j])
        invariant maxScore == Best(w[..j], predictedLabelIndex)
      {
        if i + j >= |logits| {
          StrideCount(|logits|, k, j);
          outcome := LogitsOutOfRange;
          return;
        }
        ScanStep(w, j);
        var currentScore := logits[i + j];
        if currentScore > maxScore {
          maxScore := currentScore;
          predictedLabelIndex := j;
        }
      }
      assert w[..NumClasses] == Stride(logits, k);
      var predictedLabel := Id2Label(predictedLabelIndex);
      DecodedLabelsSnoc(logits, k);
      predictedLabels := predictedLabels + [predictedLabel];
      StrideCount(i, k, 0);
      if i / NumClasses >= |tokens| {
        StrideCount(|logits|, n, r);
        outcome := TokensOutOfRange;
        return;
      }
      lines := lines + [Prediction(tokens[i / NumClasses], predictedLabel)];
      i := i + NumClasses;
    }
    StrideCount(|logits|, |predictedLabels|, 0);
  }

  /** A worked example: two tokens whose strides peak at class 5 and class 3. */
  method DecodeAcmeCorp() returns (lines: seq<Prediction>, outcome: Outcome)
    ensures outcome == Completed
    ensures lines == [Prediction("Acme", "B-ORG"), Prediction("Corp", "B-PER")]
  {
    var logits := [5.0, 0.0, 0.0, 0.0, 0.0, 9.0, 0.0, 0.0, 0.0,
                   0.0, 0.0, 0.0, 8.0, 0.0, 0.0, 0.0, 0.0, 0.0];
    FirstMaxIsScanIndex(Stride(logits, 0), 5);
    FirstMaxIsScanIndex(Stride(logits, 1), 3);
    var labels;
    labels, lines, outcome := Decode(logits, ["Acme", "Corp"]);
  }
}
