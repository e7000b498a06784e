/**
 * `load_dict` as written keeps a leaf's loaded value whenever its accessor
 * accepts it. For the image array that is the raw saved value, not the array
 * `image_array` builds from it, so slot values the accessor discards stay in
 * the project's tree. The corrected load (`ProjectLoad.LoadProject`) commits
 * the built array.
 */
module LoadAsWritten {
  import opened Values
  import opened Slots
  import opened ImageArray
  import opened ImageArrayFacts
  import opened Validators
  import opened Loader
  import opened ProjectTree
  import opened ProjectLoad

  /** The layer at [0][0][0][0]: no path, and the offset [-3, 0]. */
  const NegativeLayer: Value := Dict(map["path" := Str(""), "offset" := List([Int(-3), Int(0)])])

  /** A saved image array of the right shape whose first layer is `NegativeLayer`, every other one empty. */
  function NegativeOffsetImages(): Value {
    var empty := EncodeSlot(EmptySlot);
    var plainSeason := List([List([empty, empty])]);
    var firstDir := List([List([List([NegativeLayer, empty])])] + seq(4, _ => plainSeason));
    var plainDir := List(seq(5, _ => plainSeason));
    List([firstDir, plainDir, plainDir, plainDir])
  }

  /** Each layer of that array is either `NegativeLayer` or an empty slot, and sits in frame 0. */
  lemma NegativeOffsetLayers(d: nat, s: nat, f: nat, l: nat)
    requires LayerAt(NegativeOffsetImages(), d, s, f, l).Some?
    ensures f == 0 && ValidSlot(d, s, f, l)
    ensures LayerAt(NegativeOffsetImages(), d, s, f, l).value ==
      if (d, s, l) == (0, 0, 0) then NegativeLayer else EncodeSlot(EmptySlot)
  {
  }

  /** The bulk validation accepts that array and builds a fresh one from it: the negative offset is dropped. */
  lemma NegativeOffsetAccepted()
    ensures Normalize(NegativeOffsetImages()) == Filled(InitImages())
  {
    var v := NegativeOffsetImages();
    assert OffsetVerdict(List([Int(-3), Int(0)])) == Reject;
    assert ExpectedSlot(NegativeLayer) == EmptySlot;
    forall d: nat, s: nat, f: nat, l: nat | LayerAt(v, d, s, f, l).Some?
      ensures LayerSafe(LayerAt(v, d, s, f, l).value, f)
    {
      NegativeOffsetLayers(d, s, f, l);
    }
    NormalizeShaped(v);
    NormalizeFilled(v);
    forall i | 0 <= i < SlotCount
      ensures Reference(v)[i] == EmptySlot
    {
      IdxBijective(0, 0, 0, 0, i);
      var c := Coords(i);
      NegativeOffsetLayers(c.0, c.1, c.2, c.3);
    }
  }

  /**
   * Loading the defaults tree with that image array: as written, the loaded
   * tree's `images` is the raw value, offset [-3, 0] included, although no
   * offset accessor accepts a negative component; the corrected load yields a
   * fresh array.
   */
  lemma NegativeOffsetSurvivesLoad(cfg: Config)
    ensures var m := ProjectDefaults(cfg).entries["images" := NegativeOffsetImages()];
      var loaded := LoadDict(m, ProjectSchema(), ProjectDefaults(cfg), cfg);
      && loaded.Ok? && loaded.value["images"] == NegativeOffsetImages()
      && LoadProject(m, cfg).Ok? && LoadProject(m, cfg).value.images == InitImages()
  {
    var m := ProjectDefaults(cfg).entries["images" := NegativeOffsetImages()];
    NegativeOffsetAccepted();
    CurrentTreeNotMigrated(m);
    LoadProjectRaises(m, cfg);
    LoadProjectSteps(m, cfg);
    LoadedImagesEntry(m, cfg);
    LoadProjectImages(m, cfg);
    NormalizeFilled(NegativeOffsetImages());
  }
}
