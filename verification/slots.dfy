/**
 * The fixed-shape image array of a project: 4 directions x 5 seasons x 1 frame
 * x 2 layers, held flat, and the per-slot offset validation shared by the
 * offset accessors and the bulk image-array set.
 */
module Slots {
  import opened Values

  const Directions: nat := 4
  const SeasonCount: nat := 5
  const FrameCount: nat := 1
  const LayerCount: nat := 2
  const SlotCount: nat := Directions * SeasonCount * FrameCount * LayerCount

  /** A pixel offset applied to a source image before it is cut. */
  datatype Offset = Offset(x: int, y: int)

  /** One source image: its path relative to the save location ("" = unset) and its offset. */
  datatype Slot = Slot(path: string, offset: Offset)

  const EmptySlot: Slot := Slot("", Offset(0, 0))

  predicate ValidSlot(d: int, s: int, f: int, l: int) {
    0 <= d < Directions && 0 <= s < SeasonCount && 0 <= f < FrameCount && 0 <= l < LayerCount
  }

  /** Position of slot [d][s][f][l] of the nested Python list in the flat array. */
  function Idx(d: int, s: int, f: int, l: int): int {
    ((d * SeasonCount + s) * FrameCount + f) * LayerCount + l
  }

  /** The coordinates held at flat position `i`: direction, season, frame, layer. */
  function Coords(i: int): (int, int, int, int) {
    (i / 10, (i / 2) % 5, 0, i % 2)
  }

  /** Flat positions and coordinates are in one-to-one correspondence. */
  lemma IdxBijective(d: int, s: int, f: int, l: int, i: int)
    ensures ValidSlot(d, s, f, l) ==> 0 <= Idx(d, s, f, l) < SlotCount && Coords(Idx(d, s, f, l)) == (d, s, f, l)
    ensures 0 <= i < SlotCount ==> var c := Coords(i); ValidSlot(c.0, c.1, c.2, c.3) && Idx(c.0, c.1, c.2, c.3) == i
  {
  }

  /** Two distinct slots never share a flat position. */
  lemma IdxInjective(d: int, s: int, f: int, l: int, d': int, s': int, f': int, l': int)
    requires ValidSlot(d, s, f, l) && ValidSlot(d', s', f', l')
    ensures Idx(d, s, f, l) == Idx(d', s', f', l') <==> (d, s, f, l) == (d', s', f', l')
  {
    IdxBijective(d, s, f, l, 0);
    IdxBijective(d', s', f', l', 0);
  }

  /** A fresh image array: every slot unset with offset [0, 0]. */
  function InitImages(): (r: seq<Slot>)
    ensures |r| == SlotCount
  {
    seq(SlotCount, _ => EmptySlot)
  }

  /** Every slot of a fresh image array, addressed by its coordinates, is empty. */
  lemma InitImagesAt(d: int, s: int, f: int, l: int)
    requires ValidSlot(d, s, f, l)
    ensures 0 <= Idx(d, s, f, l) < |InitImages()|
    ensures InitImages()[Idx(d, s, f, l)] == Slot("", Offset(0, 0))
  {
    IdxBijective(d, s, f, l, 0);
  }

  /** No slot has a negative offset component. */
  predicate OffsetsNonNegative(slots: seq<Slot>) {
    forall i :: 0 <= i < |slots| ==> slots[i].offset.x >= 0 && slots[i].offset.y >= 0
  }

  /**
   * `x_offset`/`y_offset` with `validate=True`: `value >= 0`. Numbers (bools
   * included) compare; comparing a str, list or dict with 0 raises TypeError.
   */
  function ComponentVerdict(v: Value): Verdict {
    match v
    case Int(i) => if i >= 0 then Accept else Reject
    case Bool(_) => Accept
    case _ => Raise
  }

  /**
   * `offset(d, s, f, l, value, validate=True)`: checks `value[0]` and, only
   * when that passes, `value[1]`. Indexing a number raises TypeError, indexing
   * an empty sequence or a short list raises IndexError, indexing a str yields
   * a str that cannot be compared with 0, and a dict has no key 0.
   */
  function OffsetVerdict(v: Value): Verdict {
    match v
    case List(xs) =>
      if |xs| == 0 then Raise
      else (match ComponentVerdict(xs[0])
        case Raise => Raise
        case Reject => Reject
        case Accept => if |xs| < 2 then Raise else ComponentVerdict(xs[1]))
    case _ => Raise
  }

  /** The offset the `offset` setter stores for an accepted value: `[value[0], value[1]]`. */
  function CommittedOffset(v: Value): (r: Offset)
    requires OffsetVerdict(v) == Accept
    ensures r.x >= 0 && r.y >= 0
    ensures v.List? && |v.items| >= 2
    ensures Some(r.x) == AsInt(v.items[0]) && Some(r.y) == AsInt(v.items[1])
  {
    OffsetAcceptedIff(v);
    Offset(AsInt(v.items[0]).value, AsInt(v.items[1]).value)
  }

  /**
   * Independent characterisation of an accepted offset: a list whose first two
   * elements are non-negative numbers.
   */
  lemma OffsetAcceptedIff(v: Value)
    ensures OffsetVerdict(v) == Accept <==>
      v.List? && |v.items| >= 2 &&
      AsInt(v.items[0]).Some? && AsInt(v.items[0]).value >= 0 &&
      AsInt(v.items[1]).Some? && AsInt(v.items[1]).value >= 0
  {
    match v
    case List(xs) =>
      if |xs| >= 2 {
        match xs[0] {
          case Int(_) =>
          case Bool(_) =>
          case _ =>
        }
        match xs[1] {
          case Int(_) =>
          case Bool(_) =>
          case _ =>
        }
      } else if |xs| == 1 {
        match xs[0] {
          case Int(_) =>
          case Bool(_) =>
          case _ =>
        }
      }
    case _ =>
  }

  /** An offset the setter could have stored is accepted back by the validator. */
  lemma CommittedOffsetRoundTrip(o: Offset)
    requires o.x >= 0 && o.y >= 0
    ensures OffsetVerdict(List([Int(o.x), Int(o.y)])) == Accept
    ensures CommittedOffset(List([Int(o.x), Int(o.y)])) == o
  {
  }
}
