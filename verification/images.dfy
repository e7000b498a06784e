/**
 * Validation of a whole image array, as `image_array(set)` does it: the input
 * must be 4 directions of 5 seasons of at least one frame of 2 layers, each
 * layer a dict; a layer's `path` and `offset` are validated one by one and
 * fall back to the fresh array's defaults when invalid.
 *
 * The functions follow the source's four nested loops: each one handles the
 * element it is at and then says where the traversal continues, so that a loop
 * can keep "what is left to do" as its invariant.
 */
module ImageArray {
  import opened Values
  import opened Slots

  /** The answer of a bulk set: the array to commit, a refusal (False), or an exception. */
  datatype ArrayResult = Filled(slots: seq<Slot>) | Refused | Failed

  function ToVerdict(r: ArrayResult): Verdict {
    match r
    case Filled(_) => Accept
    case Refused => Reject
    case Failed => Raise
  }

  /**
   * One layer (lines 215-233): a non-dict layer refuses the whole array; a str
   * `path` and an accepted `offset` are copied into the fresh array at this
   * slot. The fresh array has one frame only, so a copy for frame 1 or later
   * indexes past its end and raises IndexError.
   */
  function LayerStep(layer: Value, d: nat, s: nat, f: nat, l: nat, acc: seq<Slot>): (r: ArrayResult)
    requires d < Directions && s < SeasonCount && l < LayerCount && |acc| == SlotCount
    ensures r.Filled? ==> |r.slots| == SlotCount && (OffsetsNonNegative(acc) ==> OffsetsNonNegative(r.slots))
  {
    if !layer.Dict? then Refused
    else
      var m := layer.entries;
      var i := Idx(d, s, 0, l);
      if "path" in m && m["path"].Str? && f != 0 then Failed
      else
        var acc1 := if "path" in m && m["path"].Str? then acc[i := acc[i].(path := m["path"].s)] else acc;
        if "offset" !in m then Filled(acc1)
        else match OffsetVerdict(m["offset"])
          case Raise => Failed
          case Reject => Filled(acc1)
          case Accept =>
            if f != 0 then Failed
            else Filled(acc1[i := acc1[i].(offset := CommittedOffset(m["offset"]))])
  }

  /** The whole bulk validation (lines 202-245), starting from a fresh array. */
  function Normalize(v: Value): (r: ArrayResult)
    ensures r.Filled? ==> |r.slots| == SlotCount && OffsetsNonNegative(r.slots)
  {
    if v.List? && |v.items| == Directions then Dirs(v.items, 0, InitImages())
    else Refused
  }

  /** Directions `d` onwards (lines 206-242). */
  function Dirs(ds: seq<Value>, d: nat, acc: seq<Slot>): (r: ArrayResult)
    requires |ds| == Directions && d <= Directions && |acc| == SlotCount
    ensures r.Filled? ==> |r.slots| == SlotCount && (OffsetsNonNegative(acc) ==> OffsetsNonNegative(r.slots))
    decreases Directions - d, 6, 0, 0, 0, 0
  {
    if d == Directions then Filled(acc)
    else if ds[d].List? && |ds[d].items| == SeasonCount then Seasons(ds, d, ds[d].items, 0, acc)
    else Refused
  }

  /** Seasons `s` onwards of direction `d` (lines 209-239). */
  function Seasons(ds: seq<Value>, d: nat, ss: seq<Value>, s: nat, acc: seq<Slot>): (r: ArrayResult)
    requires |ds| == Directions && d < Directions && |ss| == SeasonCount && s <= SeasonCount && |acc| == SlotCount
    ensures r.Filled? ==> |r.slots| == SlotCount && (OffsetsNonNegative(acc) ==> OffsetsNonNegative(r.slots))
    decreases Directions - d, SeasonCount - s, 1, 0, 0, 0
  {
    if s == SeasonCount then Dirs(ds, d + 1, acc)
    else if ss[s].List? && |ss[s].items| >= 1 then Frames(ds, d, ss, s, ss[s].items, 0, acc)
    else Refused
  }

  /** Frames `f` onwards of season `s` (lines 212-236). */
  function Frames(ds: seq<Value>, d: nat, ss: seq<Value>, s: nat, fs: seq<Value>, f: nat, acc: seq<Slot>): (r: ArrayResult)
    requires |ds| == Directions && d < Directions && |ss| == SeasonCount && s < SeasonCount
    requires f <= |fs| && |acc| == SlotCount
    ensures r.Filled? ==> |r.slots| == SlotCount && (OffsetsNonNegative(acc) ==> OffsetsNonNegative(r.slots))
    decreases Directions - d, SeasonCount - s, 0, |fs| - f, 1, 0
  {
    if f == |fs| then Seasons(ds, d, ss, s + 1, acc)
    else if fs[f].List? && |fs[f].items| == LayerCount then Layers(ds, d, ss, s, fs, f, fs[f].items, 0, acc)
    else Refused
  }

  /** Layers `l` onwards of frame `f` (lines 215-233). */
  function Layers(ds: seq<Value>, d: nat, ss: seq<Value>, s: nat, fs: seq<Value>, f: nat,
                  ls: seq<Value>, l: nat, acc: seq<Slot>): (r: ArrayResult)
    requires |ds| == Directions && d < Directions && |ss| == SeasonCount && s < SeasonCount
    requires f < |fs| && |ls| == LayerCount && l <= LayerCount && |acc| == SlotCount
    ensures r.Filled? ==> |r.slots| == SlotCount && (OffsetsNonNegative(acc) ==> OffsetsNonNegative(r.slots))
    decreases Directions - d, SeasonCount - s, 0, |fs| - f, 0, LayerCount - l
  {
    if l == LayerCount then Frames(ds, d, ss, s, fs, f + 1, acc)
    else match LayerStep(ls[l], d, s, f, l, acc)
      case Filled(acc') => Layers(ds, d, ss, s, fs, f, ls, l + 1, acc')
      case Refused => Refused
      case Failed => Failed
  }
}
