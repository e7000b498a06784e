/**
 * Two statements of `image_array` as they are written, kept apart from the
 * corrected traversal in ImageArray, with the inputs that show where they
 * depart from what the surrounding code evidently intends.
 */
module ImageArrayAsWritten {
  import opened Values
  import opened Slots
  import opened ImageArray
  import opened ImageArrayFacts

  /**
   * Line 227 as written: once `offset(..., layer["offset"], validate=True)`
   * accepts, the fresh slot's offset is assigned `layer["path"]`, which raises
   * KeyError when the layer has no path.
   */
  function CommitOffsetAsWritten(m: map<string, Value>): (r: Outcome<Value>)
    requires "offset" in m && OffsetVerdict(m["offset"]) == Accept
    ensures r.Raised? <==> "path" !in m
    ensures r.Ok? && r.value.Str? ==> OffsetVerdict(r.value) == Raise
  {
    if "path" in m then Ok(m["path"]) else Raised
  }

  /**
   * A layer with a path and a valid offset gets its path stored as its
   * offset; without a path the same valid offset raises. The corrected
   * traversal stores the offset itself in both cases.
   */
  lemma OffsetStoredAsPath()
    ensures var m := map["path" := Str("a.png"), "offset" := List([Int(3), Int(4)])];
      CommitOffsetAsWritten(m) == Ok(Str("a.png")) && ExpectedSlot(Dict(m)).offset == Offset(3, 4)
    ensures var m := map["offset" := List([Int(3), Int(4)])];
      CommitOffsetAsWritten(m) == Raised && ExpectedSlot(Dict(m)).offset == Offset(3, 4)
  {
  }

  /** The four nesting levels whose shape `image_array` checks. */
  datatype Level = Top | Direction | Season | Frame

  /**
   * Lines 234-244 as written: the warning on a shape error is formatted before
   * `return False`. At the top level the format string has two `%s` but one
   * argument, so it always raises TypeError; at the inner levels it takes
   * `len()` of the offending element, which raises for a number.
   */
  function RefusalAsWritten(level: Level, v: Value): (r: Verdict)
    ensures r != Accept
    ensures r == Reject ==> level != Top && !(v.Int? || v.Bool?)
  {
    if level == Top then Raise
    else if Sized(v) then Reject
    else Raise
  }

  /**
   * `image_array(5)` and an array whose first direction is the number 7 raise
   * instead of returning False; the corrected traversal refuses both.
   */
  lemma ShapeRefusalRaises()
    ensures RefusalAsWritten(Top, Int(5)) == Raise && Normalize(Int(5)) == Refused
    ensures RefusalAsWritten(Direction, Int(7)) == Raise
    ensures Normalize(List([Int(7), Int(7), Int(7), Int(7)])) == Refused
  {
  }
}
