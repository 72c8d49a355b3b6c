/**
  The fixed BIO label schema of the named-entity model and the `id2label`
  lookup that turns a class index into a tag (Program.cs, the local
  function `id2label`).
 */
module Labels {

  /** Number of label classes the model scores per token (`numClasses`). */
  const NumClasses: nat := 9

  /** The tag returned for an index outside the schema. */
  const Unknown: string := "UNKNOWN"

  /** The schema as a table: the tag of class `k` is `Schema[k]`. */
  const Schema: seq<string> :=
    ["O", "B-MISC", "I-MISC", "B-PER", "I-PER", "B-ORG", "I-ORG", "B-LOC", "I-LOC"]

  /** Index -> tag, as the `switch` in the source: nine cases and a default. */
  function Id2Label(id: int): (tag: string)
    ensures 0 <= id < NumClasses ==> tag == Schema[id]
    ensures tag == Unknown <==> !(0 <= id < NumClasses)
    ensures tag in Schema || tag == Unknown
  {
    match id
    case 0 => "O"
    case 1 => "B-MISC"
    case 2 => "I-MISC"
    case 3 => "B-PER"
    case 4 => "I-PER"
    case 5 => "B-ORG"
    case 6 => "I-ORG"
    case 7 => "B-LOC"
    case 8 => "I-LOC"
    case _ => Unknown
  }

  /** Distinct classes get distinct tags: the lookup loses no information on the schema. */
  lemma Id2LabelInjective(a: int, b: int)
    requires 0 <= a < NumClasses && 0 <= b < NumClasses
    requires Id2Label(a) == Id2Label(b)
    ensures a == b
  {
  }
}
