/**
 * What a successful bulk image-array validation yields, stated without the
 * traversal: the input has the 4 x 5 x (>= 1) x 2 shape, and every slot of the
 * result holds its own layer's validated path and offset, or the defaults.
 */
module ImageArrayFacts {
  import opened Values
  import opened Slots
  import opened ImageArray

  predicate FrameShaped(x: Value) {
    x.List? && |x.items| == LayerCount && forall l :: 0 <= l < |x.items| ==> x.items[l].Dict?
  }

  predicate SeasonShaped(x: Value) {
    x.List? && |x.items| >= 1 && forall f :: 0 <= f < |x.items| ==> FrameShaped(x.items[f])
  }

  predicate DirShaped(x: Value) {
    x.List? && |x.items| == SeasonCount && forall s :: 0 <= s < |x.items| ==> SeasonShaped(x.items[s])
  }

  /** The shape `image_array` insists on, level by level. */
  predicate WellShaped(v: Value) {
    v.List? && |v.items| == Directions && forall d :: 0 <= d < |v.items| ==> DirShaped(v.items[d])
  }

  /** The layer at `[d][s][f][l]`, when every enclosing level is a list long enough. */
  function LayerAt(v: Value, d: nat, s: nat, f: nat, l: nat): Option<Value> {
    if v.List? && d < |v.items| && v.items[d].List? && s < |v.items[d].items|
       && v.items[d].items[s].List? && f < |v.items[d].items[s].items|
       && v.items[d].items[s].items[f].List? && l < |v.items[d].items[s].items[f].items|
    then Some(v.items[d].items[s].items[f].items[l])
    else None
  }

  /** A layer's slot: its str path or "", its accepted offset or [0, 0]. */
  function ExpectedSlot(layer: Value): Slot {
    var m := if layer.Dict? then layer.entries else map[];
    Slot(if "path" in m && m["path"].Str? then m["path"].s else "",
         if "offset" in m && OffsetVerdict(m["offset"]) == Accept then CommittedOffset(m["offset"]) else Offset(0, 0))
  }

  /** The array a successful bulk set must produce, slot by slot. */
  function Reference(v: Value): seq<Slot> {
    seq(SlotCount, i requires 0 <= i < SlotCount =>
      var c := Coords(i);
      match LayerAt(v, c.0, c.1, c.2, c.3)
      case Some(layer) => ExpectedSlot(layer)
      case None => EmptySlot)
  }

  /** Slots before `n` are final, the others still hold the fresh array's default. */
  predicate Agrees(acc: seq<Slot>, v: Value, n: int) {
    |acc| == SlotCount &&
    forall i :: 0 <= i < SlotCount ==> acc[i] == (if i < n then Reference(v)[i] else EmptySlot)
  }

  /** The effect of one layer: frame 0 writes its expected slot, later frames write nothing. */
  lemma LayerStepEffect(layer: Value, d: nat, s: nat, f: nat, l: nat, acc: seq<Slot>)
    requires d < Directions && s < SeasonCount && l < LayerCount && |acc| == SlotCount
    requires f == 0 ==> acc[Idx(d, s, 0, l)] == EmptySlot
    requires LayerStep(layer, d, s, f, l, acc).Filled?
    ensures layer.Dict?
    ensures LayerStep(layer, d, s, f, l, acc).slots ==
      if f == 0 then acc[Idx(d, s, 0, l) := ExpectedSlot(layer)] else acc
  {
  }

  lemma {:induction false} DirsFilled(v: Value, ds: seq<Value>, d: nat, acc: seq<Slot>)
    requires v == List(ds) && |ds| == Directions && d <= Directions
    requires forall d' :: 0 <= d' < d ==> DirShaped(ds[d'])
    requires Agrees(acc, v, d * 10)
    requires Dirs(ds, d, acc).Filled?
    ensures WellShaped(v) && Dirs(ds, d, acc).slots == Reference(v)
    decreases Directions - d, 6, 0, 0, 0, 0
  {
    if d == Directions {
      assert acc == Reference(v);
    } else {
      SeasonsFilled(v, ds, d, ds[d].items, 0, acc);
    }
  }

  lemma {:induction false} SeasonsFilled(v: Value, ds: seq<Value>, d: nat, ss: seq<Value>, s: nat, acc: seq<Slot>)
    requires v == List(ds) && |ds| == Directions && d < Directions && ds[d] == List(ss)
    requires |ss| == SeasonCount && s <= SeasonCount
    requires forall d' :: 0 <= d' < d ==> DirShaped(ds[d'])
    requires forall s' :: 0 <= s' < s ==> SeasonShaped(ss[s'])
    requires Agrees(acc, v, (d * 5 + s) * 2)
    requires Seasons(ds, d, ss, s, acc).Filled?
    ensures WellShaped(v) && Seasons(ds, d, ss, s, acc).slots == Reference(v)
    decreases Directions - d, SeasonCount - s, 1, 0, 0, 0
  {
    if s == SeasonCount {
      assert DirShaped(ds[d]);
      DirsFilled(v, ds, d + 1, acc);
    } else {
      FramesFilled(v, ds, d, ss, s, ss[s].items, 0, acc);
    }
  }

  lemma {:induction false} FramesFilled(v: Value, ds: seq<Value>, d: nat, ss: seq<Value>, s: nat,
                                        fs: seq<Value>, f: nat, acc: seq<Slot>)
    requires v == List(ds) && |ds| == Directions && d < Directions && ds[d] == List(ss)
    requires |ss| == SeasonCount && s < SeasonCount && ss[s] == List(fs)
    requires 1 <= |fs| && f <= |fs|
    requires forall d' :: 0 <= d' < d ==> DirShaped(ds[d'])
    requires forall s' :: 0 <= s' < s ==> SeasonShaped(ss[s'])
    requires forall f' :: 0 <= f' < f ==> FrameShaped(fs[f'])
    requires Agrees(acc, v, (d * 5 + s) * 2 + (if f == 0 then 0 else 2))
    requires Frames(ds, d, ss, s, fs, f, acc).Filled?
    ensures WellShaped(v) && Frames(ds, d, ss, s, fs, f, acc).slots == Reference(v)
    decreases Directions - d, SeasonCount - s, 0, |fs| - f, 1, 0
  {
    if f == |fs| {
      assert SeasonShaped(ss[s]);
      SeasonsFilled(v, ds, d, ss, s + 1, acc);
    } else {
      LayersFilled(v, ds, d, ss, s, fs, f, fs[f].items, 0, acc);
    }
  }

  lemma {:induction false} LayersFilled(v: Value, ds: seq<Value>, d: nat, ss: seq<Value>, s: nat,
                                        fs: seq<Value>, f: nat, ls: seq<Value>, l: nat, acc: seq<Slot>)
    requires v == List(ds) && |ds| == Directions && d < Directions && ds[d] == List(ss)
    requires |ss| == SeasonCount && s < SeasonCount && ss[s] == List(fs)
    requires 1 <= |fs| && f < |fs| && fs[f] == List(ls) && |ls| == LayerCount && l <= LayerCount
    requires forall d' :: 0 <= d' < d ==> DirShaped(ds[d'])
    requires forall s' :: 0 <= s' < s ==> SeasonShaped(ss[s'])
    requires forall f' :: 0 <= f' < f ==> FrameShaped(fs[f'])
    requires forall l' :: 0 <= l' < l ==> ls[l'].Dict?
    requires Agrees(acc, v, (d * 5 + s) * 2 + (if f == 0 then l else 2))
    requires Layers(ds, d, ss, s, fs, f, ls, l, acc).Filled?
    ensures WellShaped(v) && Layers(ds, d, ss, s, fs, f, ls, l, acc).slots == Reference(v)
    decreases Directions - d, SeasonCount - s, 0, |fs| - f, 0, LayerCount - l
  {
    if l == LayerCount {
      assert FrameShaped(fs[f]);
      FramesFilled(v, ds, d, ss, s, fs, f + 1, acc);
    } else {
      var n := (d * 5 + s) * 2 + (if f == 0 then l else 2);
      IdxBijective(d, s, 0, l, 0);
      LayerStepEffect(ls[l], d, s, f, l, acc);
      var acc' := LayerStep(ls[l], d, s, f, l, acc).slots;
      if f == 0 {
        assert LayerAt(v, d, s, 0, l) == Some(ls[l]);
        assert Reference(v)[n] == ExpectedSlot(ls[l]);
      }
      assert Agrees(acc', v, (d * 5 + s) * 2 + (if f == 0 then l + 1 else 2));
      LayersFilled(v, ds, d, ss, s, fs, f, ls, l + 1, acc');
    }
  }

  /**
   * A bulk set that succeeds was given the full 4 x 5 x (>= 1) x 2 shape, and
   * the array it commits holds, in every slot, that layer's str path and
   * accepted offset, with "" and [0, 0] where they were absent or invalid.
   */
  lemma NormalizeFilled(v: Value)
    requires Normalize(v).Filled?
    ensures WellShaped(v)
    ensures Normalize(v).slots == Reference(v)
  {
    DirsFilled(v, v.items, 0, InitImages());
  }

  /**
   * A layer that cannot make the bulk set raise: its offset, if any, is
   * checkable, and a layer of frame 1 or later carries no str path and no
   * accepted offset (the fresh array has no slot for it).
   */
  predicate LayerSafe(layer: Value, f: nat) {
    layer.Dict? ==>
      var m := layer.entries;
      ("offset" in m ==> OffsetVerdict(m["offset"]) != Raise) &&
      (f != 0 ==> !("path" in m && m["path"].Str?) && !("offset" in m && OffsetVerdict(m["offset"]) == Accept))
  }

  /** No layer of the array makes the bulk set raise. */
  ghost predicate Tame(v: Value) {
    forall d: nat, s: nat, f: nat, l: nat :: LayerAt(v, d, s, f, l).Some? ==> LayerSafe(LayerAt(v, d, s, f, l).value, f)
  }

  lemma {:induction false} DirsShaped(v: Value, d: nat, acc: seq<Slot>)
    requires WellShaped(v) && d <= Directions && |acc| == SlotCount
    ensures !Dirs(v.items, d, acc).Refused?
    ensures Tame(v) ==> Dirs(v.items, d, acc).Filled?
    decreases Directions - d, 6, 0, 0, 0, 0
  {
    if d < Directions {
      SeasonsShaped(v, d, 0, acc);
    }
  }

  lemma {:induction false} SeasonsShaped(v: Value, d: nat, s: nat, acc: seq<Slot>)
    requires WellShaped(v) && d < Directions && s <= SeasonCount && |acc| == SlotCount
    ensures !Seasons(v.items, d, v.items[d].items, s, acc).Refused?
    ensures Tame(v) ==> Seasons(v.items, d, v.items[d].items, s, acc).Filled?
    decreases Directions - d, SeasonCount - s, 1, 0, 0, 0
  {
    assert DirShaped(v.items[d]);
    if s == SeasonCount {
      DirsShaped(v, d + 1, acc);
    } else {
      FramesShaped(v, d, s, 0, acc);
    }
  }

  lemma {:induction false} FramesShaped(v: Value, d: nat, s: nat, f: nat, acc: seq<Slot>)
    requires WellShaped(v) && d < Directions && s < SeasonCount && |acc| == SlotCount
    requires f <= |v.items[d].items[s].items|
    ensures !Frames(v.items, d, v.items[d].items, s, v.items[d].items[s].items, f, acc).Refused?
    ensures Tame(v) ==> Frames(v.items, d, v.items[d].items, s, v.items[d].items[s].items, f, acc).Filled?
    decreases Directions - d, SeasonCount - s, 0, |v.items[d].items[s].items| - f, 1, 0
  {
    assert DirShaped(v.items[d]);
    assert SeasonShaped(v.items[d].items[s]);
    if f == |v.items[d].items[s].items| {
      SeasonsShaped(v, d, s + 1, acc);
    } else {
      LayersShaped(v, d, s, f, 0, acc);
    }
  }

  lemma {:induction false} LayersShaped(v: Value, d: nat, s: nat, f: nat, l: nat, acc: seq<Slot>)
    requires WellShaped(v) && d < Directions && s < SeasonCount && |acc| == SlotCount
    requires f < |v.items[d].items[s].items|
    requires v.items[d].items[s].items[f].List? && |v.items[d].items[s].items[f].items| == LayerCount
    requires l <= LayerCount
    ensures !Layers(v.items, d, v.items[d].items, s, v.items[d].items[s].items, f,
                    v.items[d].items[s].items[f].items, l, acc).Refused?
    ensures Tame(v) ==> Layers(v.items, d, v.items[d].items, s, v.items[d].items[s].items, f,
                               v.items[d].items[s].items[f].items, l, acc).Filled?
    decreases Directions - d, SeasonCount - s, 0, |v.items[d].items[s].items| - f, 0, LayerCount - l
  {
    assert DirShaped(v.items[d]);
    assert SeasonShaped(v.items[d].items[s]);
    assert FrameShaped(v.items[d].items[s].items[f]);
    var ls := v.items[d].items[s].items[f].items;
    if l == LayerCount {
      FramesShaped(v, d, s, f + 1, acc);
    } else {
      assert LayerAt(v, d, s, f, l) == Some(ls[l]);
      var step := LayerStep(ls[l], d, s, f, l, acc);
      if step.Filled? {
        LayersShaped(v, d, s, f, l + 1, step.slots);
      }
    }
  }

  /** The layer at `[pd][ps][pf][pl]` exists and makes the bulk set raise. */
  predicate UnsafeAt(v: Value, pd: nat, ps: nat, pf: nat, pl: nat) {
    LayerAt(v, pd, ps, pf, pl).Some? && !LayerSafe(LayerAt(v, pd, ps, pf, pl).value, pf)
  }

  /** A traversal that starts at direction `d`, not past the unsafe layer, does not finish. */
  lemma {:induction false} DirsUnsafe(v: Value, d: nat, acc: seq<Slot>, pd: nat, ps: nat, pf: nat, pl: nat)
    requires WellShaped(v) && |acc| == SlotCount && UnsafeAt(v, pd, ps, pf, pl)
    requires d <= pd
    ensures !Dirs(v.items, d, acc).Filled?
    decreases Directions - d, 6, 0, 0, 0, 0
  {
    SeasonsUnsafe(v, d, 0, acc, pd, ps, pf, pl);
  }

  lemma {:induction false} SeasonsUnsafe(v: Value, d: nat, s: nat, acc: seq<Slot>, pd: nat, ps: nat, pf: nat, pl: nat)
    requires WellShaped(v) && |acc| == SlotCount && UnsafeAt(v, pd, ps, pf, pl)
    requires d < Directions && s <= SeasonCount && (d < pd || (d == pd && s <= ps))
    ensures !Seasons(v.items, d, v.items[d].items, s, acc).Filled?
    decreases Directions - d, SeasonCount - s, 1, 0, 0, 0
  {
    assert DirShaped(v.items[d]);
    if s == SeasonCount {
      DirsUnsafe(v, d + 1, acc, pd, ps, pf, pl);
    } else {
      FramesUnsafe(v, d, s, 0, acc, pd, ps, pf, pl);
    }
  }

  lemma {:induction false} FramesUnsafe(v: Value, d: nat, s: nat, f: nat, acc: seq<Slot>, pd: nat, ps: nat, pf: nat, pl: nat)
    requires WellShaped(v) && |acc| == SlotCount && UnsafeAt(v, pd, ps, pf, pl)
    requires d < Directions && s < SeasonCount && f <= |v.items[d].items[s].items|
    requires d < pd || (d == pd && (s < ps || (s == ps && f <= pf)))
    ensures !Frames(v.items, d, v.items[d].items, s, v.items[d].items[s].items, f, acc).Filled?
    decreases Directions - d, SeasonCount - s, 0, |v.items[d].items[s].items| - f, 1, 0
  {
    assert DirShaped(v.items[d]);
    assert SeasonShaped(v.items[d].items[s]);
    if f == |v.items[d].items[s].items| {
      SeasonsUnsafe(v, d, s + 1, acc, pd, ps, pf, pl);
    } else {
      LayersUnsafe(v, d, s, f, 0, acc, pd, ps, pf, pl);
    }
  }

  lemma {:induction false} LayersUnsafe(v: Value, d: nat, s: nat, f: nat, l: nat, acc: seq<Slot>,
                                        pd: nat, ps: nat, pf: nat, pl: nat)
    requires WellShaped(v) && |acc| == SlotCount && UnsafeAt(v, pd, ps, pf, pl)
    requires d < Directions && s < SeasonCount && f < |v.items[d].items[s].items|
    requires v.items[d].items[s].items[f].List? && |v.items[d].items[s].items[f].items| == LayerCount
    requires l <= LayerCount
    requires d < pd || (d == pd && (s < ps || (s == ps && (f < pf || (f == pf && l <= pl)))))
    ensures !Layers(v.items, d, v.items[d].items, s, v.items[d].items[s].items, f,
                    v.items[d].items[s].items[f].items, l, acc).Filled?
    decreases Directions - d, SeasonCount - s, 0, |v.items[d].items[s].items| - f, 0, LayerCount - l
  {
    var ls := v.items[d].items[s].items[f].items;
    if l == LayerCount {
      FramesUnsafe(v, d, s, f + 1, acc, pd, ps, pf, pl);
    } else {
      var step := LayerStep(ls[l], d, s, f, l, acc);
      if step.Filled? {
        assert LayerAt(v, d, s, f, l) == Some(ls[l]);
        LayersUnsafe(v, d, s, f, l + 1, step.slots, pd, ps, pf, pl);
      }
    }
  }

  /**
   * The bulk set accepts exactly the well-shaped arrays none of whose layers
   * can raise: shape errors are the only refusals, and an unsafe layer always
   * makes it raise.
   */
  lemma NormalizeShaped(v: Value)
    ensures WellShaped(v) ==> !Normalize(v).Refused?
    ensures WellShaped(v) && Tame(v) ==> Normalize(v).Filled?
    ensures Normalize(v).Filled? ==> WellShaped(v) && Tame(v)
  {
    if WellShaped(v) {
      DirsShaped(v, 0, InitImages());
    }
    if Normalize(v).Filled? {
      NormalizeFilled(v);
      if !Tame(v) {
        var pd: nat, ps: nat, pf: nat, pl: nat :|
          !(LayerAt(v, pd, ps, pf, pl).Some? ==> LayerSafe(LayerAt(v, pd, ps, pf, pl).value, pf));
        DirsUnsafe(v, 0, InitImages(), pd, ps, pf, pl);
      }
    }
  }
}
