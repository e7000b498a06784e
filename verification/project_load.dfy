/**
 * Opening a saved project: the typed view of a loaded tree, and what a load
 * yields, when it raises, and that it reads back what a project stores.
 */
module ProjectLoad {
  import opened Values
  import opened Slots
  import opened ImageArray
  import opened ImageArrayFacts
  import opened Validators
  import opened Loader
  import opened ProjectTree

  /** A flag as the typed view holds it: `[True, 1]` is 1, `[False, 0]` is 0. */
  function Bit(v: Value): (n: int)
    requires IsFlag(v)
    ensures IsBit(n) && Some(n) == AsInt(v)
  {
    AsInt(v).value
  }

  /**
   * The typed view of a loaded tree. A number stored as a bool is held as its
   * int, and the image array is the one the bulk validation builds from the
   * loaded value, as the accessors would have committed it.
   */
  function Extract(r: map<string, Value>): (snap: Snapshot)
    requires TreeShaped(r)
    ensures WellFormedProps(snap.props)
  {
    Snapshot(
      Props(Bit(r["transparency"]) == 1, ExtractDims(r["dims"]), ExtractFiles(r["files"]), r["dat"].entries["dat_lump"].s),
      Normalize(r["images"]).slots)
  }

  function ExtractDims(v: Value): (d: Dims)
    requires DimsTree(v)
    ensures d.frames == 1 && IsBit(d.frontimage)
  {
    var dm := v.entries;
    var sm := dm["seasons"].entries;
    Dims(AsInt(dm["x"]).value, AsInt(dm["y"]).value, AsInt(dm["z"]).value,
         AsInt(dm["paksize"]).value, AsInt(dm["directions"]).value, AsInt(dm["frames"]).value,
         SeasonFlags(Bit(sm["snow"]), Bit(sm["autumn"]), Bit(sm["winter"]), Bit(sm["spring"])),
         Bit(dm["frontimage"]))
  }

  function ExtractFiles(v: Value): Files
    requires FilesTree(v)
  {
    var fm := v.entries;
    Files(fm["datfile_location"].s, Bit(fm["datfile_write"]) == 1, fm["pngfile_location"].s, fm["pakfile_location"].s)
  }

  /**
   * Opening a saved tree (lines 121-128): the legacy migration, then
   * `load_dict` against the validators and defaults trees. Either step may
   * raise, and so does the constructor then.
   */
  function LoadProject(load: map<string, Value>, cfg: Config): (r: Outcome<Snapshot>)
    ensures MigrateWinter(load).Raised? ==> r.Raised?
    ensures r.Ok? ==> WellFormedProps(r.value.props) && |r.value.images| == SlotCount && OffsetsNonNegative(r.value.images)
  {
    match MigrateWinter(load)
    case Raised => Raised
    case Ok(m) =>
      ProjectDefaultsFit(cfg);
      match LoadDict(m, ProjectSchema(), ProjectDefaults(cfg), cfg)
      case Raised => Raised
      case Ok(r) =>
        LoadFits(m, ProjectSchema(), ProjectDefaults(cfg), cfg, false);
        FitsTreeShaped(r, cfg);
        Ok(Extract(r))
  }


  lemma ExtractDimsEncode(d: Dims)
    requires d.frames == 1 && IsBit(d.frontimage)
    requires IsBit(d.seasons.snow) && IsBit(d.seasons.autumn) && IsBit(d.seasons.winter) && IsBit(d.seasons.spring)
    ensures DimsTree(EncodeDims(d)) && ExtractDims(EncodeDims(d)) == d
  {
  }

  lemma ExtractFilesEncode(f: Files)
    ensures FilesTree(EncodeFiles(f)) && ExtractFiles(EncodeFiles(f)) == f
  {
  }

  /** The typed view reads back the properties and the image array a tree was written from. */
  lemma ExtractEncode(snap: Snapshot)
    requires WellFormedProps(snap.props) && |snap.images| == SlotCount && OffsetsNonNegative(snap.images)
    ensures TreeShaped(EncodeTree(snap)) && Extract(EncodeTree(snap)) == snap
  {
    ImagesRoundTrip(snap.images);
    ExtractDimsEncode(snap.props.dims);
    ExtractFilesEncode(snap.props.files);
  }

  /**
   * Reloading what a project stores gives the same project back: a tree
   * written from well-formed properties whose dimensions lie in the
   * allow-lists, and from an image array with non-negative offsets, is left
   * alone by the migration, accepted leaf by leaf, and read back unchanged.
   */
  lemma LoadProjectRoundTrip(snap: Snapshot, cfg: Config)
    requires WellFormedProps(snap.props) && AllowedDims(snap.props, cfg)
    requires |snap.images| == SlotCount && OffsetsNonNegative(snap.images)
    ensures LoadProject(EncodeTree(snap), cfg) == Ok(snap)
  {
    var t := EncodeTree(snap);
    CurrentTreeNotMigrated(t);
    TreeFits(snap, cfg, true);
    ProjectDefaultsFit(cfg);
    FitsSound(ProjectDefaults(cfg), ProjectSchema(), cfg, false);
    SoundConforms(ProjectDefaults(cfg), ProjectSchema(), cfg);
    LoadAcceptedFixed(t, ProjectSchema(), ProjectDefaults(cfg), cfg);
    ExtractEncode(snap);
  }

  /** Loading the defaults tree itself yields a brand-new project, whatever the allow-lists. */
  lemma LoadDefaultsProject(cfg: Config)
    ensures LoadProject(ProjectDefaults(cfg).entries, cfg) == Ok(Snapshot(DefaultProps(cfg), InitImages()))
  {
    var snap := Snapshot(DefaultProps(cfg), InitImages());
    CurrentTreeNotMigrated(EncodeTree(snap));
    ProjectDefaultsFit(cfg);
    FitsSound(ProjectDefaults(cfg), ProjectSchema(), cfg, false);
    LoadDefaultsFixed(ProjectSchema(), ProjectDefaults(cfg), cfg);
    ExtractEncode(snap);
  }

  /** What `LoadProject` is made of when it succeeds. */
  lemma LoadProjectSteps(load: map<string, Value>, cfg: Config)
    requires LoadProject(load, cfg).Ok?
    ensures MigrateWinter(load).Ok?
    ensures var m := MigrateWinter(load).value;
      var r := LoadDict(m, ProjectSchema(), ProjectDefaults(cfg), cfg);
      r.Ok? && TreeShaped(r.value) && LoadProject(load, cfg).value == Extract(r.value)
  {
    var m := MigrateWinter(load).value;
    ProjectDefaultsFit(cfg);
    var r := LoadDict(m, ProjectSchema(), ProjectDefaults(cfg), cfg).value;
    LoadFits(m, ProjectSchema(), ProjectDefaults(cfg), cfg, false);
    FitsTreeShaped(r, cfg);
  }

  /** The image-array entry of a loaded tree: the saved array if the bulk validation accepts it, else the default. */
  lemma LoadedImagesEntry(m: map<string, Value>, cfg: Config)
    requires LoadDict(m, ProjectSchema(), ProjectDefaults(cfg), cfg).Ok?
    ensures LoadDict(m, ProjectSchema(), ProjectDefaults(cfg), cfg).value["images"] ==
      if "images" in m && Normalize(m["images"]).Filled? then m["images"] else EncodeImages(InitImages())
  {
    assert ProjectSchema().children["images"] == Leaf(ImagesCheck);
    DefaultImages(cfg);
    LoadDictLeaf(m, ProjectSchema(), ProjectDefaults(cfg), cfg, "images");
  }

  /** The defaults tree holds a fresh image array. */
  lemma DefaultImages(cfg: Config)
    ensures Lookup(ProjectDefaults(cfg), "images") == Ok(EncodeImages(InitImages()))
  {
  }

  /**
   * The image array of an opened project: the one the bulk validation builds
   * from the saved array when it accepts it, slot by slot the saved layer's
   * valid path and offset or the defaults; otherwise a fresh array. Either way
   * it has 40 slots and no negative offset.
   */
  lemma LoadProjectImages(load: map<string, Value>, cfg: Config)
    requires LoadProject(load, cfg).Ok?
    ensures MigrateWinter(load).Ok?
    ensures var m := MigrateWinter(load).value;
      var images := LoadProject(load, cfg).value.images;
      && |images| == SlotCount && OffsetsNonNegative(images)
      && (if "images" in m && Normalize(m["images"]).Filled? then images == Reference(m["images"])
          else images == InitImages())
  {
    LoadProjectSteps(load, cfg);
    var m := MigrateWinter(load).value;
    LoadedImagesEntry(m, cfg);
    if "images" in m && Normalize(m["images"]).Filled? {
      NormalizeFilled(m["images"]);
    } else {
      ImagesRoundTrip(InitImages());
    }
  }

  lemma DimsFitsChoices(v: Value, cfg: Config)
    requires Fits(v, DimsSchema(), cfg, true)
    ensures v.Dict? && "x" in v.entries && InChoices(v.entries["x"], cfg.dimChoices)
    ensures "y" in v.entries && InChoices(v.entries["y"], cfg.dimChoices)
    ensures "z" in v.entries && InChoices(v.entries["z"], cfg.dimZChoices)
    ensures "paksize" in v.entries && InChoices(v.entries["paksize"], cfg.paksizeChoices)
    ensures "directions" in v.entries && InChoices(v.entries["directions"], cfg.viewChoices)
  {
    FitsChild(v, DimsSchema(), cfg, true, "x");
    FitsChild(v, DimsSchema(), cfg, true, "y");
    FitsChild(v, DimsSchema(), cfg, true, "z");
    FitsChild(v, DimsSchema(), cfg, true, "paksize");
    FitsChild(v, DimsSchema(), cfg, true, "directions");
  }

  lemma DimsFitsAllowed(v: Value, cfg: Config)
    requires Fits(v, DimsSchema(), cfg, true)
    ensures DimsTree(v) && DimsAllowed(ExtractDims(v), cfg)
  {
    StrictFitsLoose(v, DimsSchema(), cfg);
    DimsFitShaped(v, cfg);
    DimsFitsChoices(v, cfg);
  }

  /**
   * An opened project keeps what the accessors guarantee: one frame, flags
   * that are 0 or 1, and, when the allow-lists hold the default dimensions,
   * dimensions in the allow-lists.
   */
  lemma LoadProjectAllowed(load: map<string, Value>, cfg: Config)
    requires LoadProject(load, cfg).Ok?
    ensures WellFormedProps(LoadProject(load, cfg).value.props)
    ensures DefaultsAllowed(cfg) ==> AllowedDims(LoadProject(load, cfg).value.props, cfg)
  {
    if DefaultsAllowed(cfg) {
      var m := MigrateWinter(load).value;
      ProjectDefaultsFit(cfg);
      LoadFits(m, ProjectSchema(), ProjectDefaults(cfg), cfg, true);
      var r := LoadDict(m, ProjectSchema(), ProjectDefaults(cfg), cfg).value;
      assert Fits(r["dims"], DimsSchema(), cfg, true) by {
        assert ProjectSchema().children["dims"] == DimsSchema();
      }
      DimsFitsAllowed(r["dims"], cfg);
    }
  }

  lemma PlainSubtrees()
    ensures Plain(DimsSchema()) && Plain(FilesSchema()) && Plain(DatSchema())
  {
    assert Plain(SeasonsSchema());
    assert DimsSchema().children["seasons"] == SeasonsSchema();
  }

  lemma EntryNeverRaises(v: Value, k: string, cfg: Config)
    requires k in ProjectSchema().children && k != "images"
    ensures !RaisesAt(v, ProjectSchema().children[k], cfg)
  {
    PlainSubtrees();
    var s := ProjectSchema().children[k];
    if s.Leaf? {
      assert s == Leaf(FlagCheck);
    } else {
      PlainNeverRaises(v, s, cfg);
    }
  }

  /** Only the image array can make the project's accessors raise during a load. */
  lemma ProjectRaisesAt(m: map<string, Value>, cfg: Config)
    ensures RaisesAt(Dict(m), ProjectSchema(), cfg) <==> "images" in m && Normalize(m["images"]).Failed?
  {
    var ch := ProjectSchema().children;
    if RaisesAt(Dict(m), ProjectSchema(), cfg) {
      var k :| k in ch && k in m && RaisesAt(m[k], ch[k], cfg);
      if k != "images" {
        EntryNeverRaises(m[k], k, cfg);
      }
    }
    if "images" in m && Normalize(m["images"]).Failed? {
      assert RaisesAt(m["images"], ch["images"], cfg);
    }
  }

  /**
   * Opening a saved tree raises exactly when the migration raises or the
   * saved image array makes the bulk validation raise; every other accessor
   * answers without an exception.
   */
  lemma LoadProjectRaises(load: map<string, Value>, cfg: Config)
    ensures LoadProject(load, cfg).Raised? <==>
      MigrateWinter(load).Raised? ||
      (var m := MigrateWinter(load).value; "images" in m && Normalize(m["images"]).Failed?)
  {
    if MigrateWinter(load).Ok? {
      var m := MigrateWinter(load).value;
      ProjectDefaultsFit(cfg);
      FitsSound(ProjectDefaults(cfg), ProjectSchema(), cfg, false);
      LoadRaisesIff(m, ProjectSchema(), ProjectDefaults(cfg), cfg);
      ProjectRaisesAt(m, cfg);
    }
  }

  /** The seasons subtree a legacy tree loads to: `{"snow": winter}` against the default flags. */
  lemma LegacySeasonsLoad(w: Value, cfg: Config)
    ensures LoadDict(map["snow" := w], SeasonsSchema(), EncodeSeasons(SeasonFlags(0, 0, 0, 0)), cfg) ==
      Ok(map["snow" := (if IsFlag(w) then w else Int(0)), "autumn" := Int(0), "winter" := Int(0), "spring" := Int(0)])
  {
    var loaded := map["snow" := w];
    var want := map["snow" := (if IsFlag(w) then w else Int(0)), "autumn" := Int(0), "winter" := Int(0), "spring" := Int(0)];
    var ch := SeasonsSchema().children;
    assert want.Keys == ch.Keys;
    forall k | k in ch
      ensures LoadEntry(loaded, SeasonsSchema(), k, EncodeSeasons(SeasonFlags(0, 0, 0, 0)), cfg) == Ok(want[k])
    {
      assert ch[k] == Leaf(FlagCheck);
    }
    LoadDictFromEntries(loaded, SeasonsSchema(), EncodeSeasons(SeasonFlags(0, 0, 0, 0)), cfg, want);
  }

  /** The seasons entry a legacy tree loads to. */
  lemma LegacySeasonsEntry(load: map<string, Value>, cfg: Config)
    requires "dims" in load && load["dims"].Dict? && "winter" in load["dims"].entries
    requires MigrateWinter(load).Ok? && LoadDict(MigrateWinter(load).value, ProjectSchema(), ProjectDefaults(cfg), cfg).Ok?
    ensures var w := load["dims"].entries["winter"];
      var r := LoadDict(MigrateWinter(load).value, ProjectSchema(), ProjectDefaults(cfg), cfg).value;
      r["dims"].Dict? && "seasons" in r["dims"].entries &&
      r["dims"].entries["seasons"] ==
        Dict(map["snow" := (if IsFlag(w) then w else Int(0)), "autumn" := Int(0), "winter" := Int(0), "spring" := Int(0)])
  {
    var w := load["dims"].entries["winter"];
    LegacyWinterMigrated(load);
    var m := MigrateWinter(load).value;
    var defaults := ProjectDefaults(cfg);
    var r := LoadDict(m, ProjectSchema(), defaults, cfg).value;
    assert ProjectSchema().children["dims"] == DimsSchema();
    LoadDictSubtree(m, ProjectSchema(), defaults, cfg, "dims");
    var dd := EncodeDims(DefaultProps(cfg).dims);
    var dm := m["dims"].entries;
    var rd := r["dims"].entries;
    assert LoadDict(dm, DimsSchema(), dd, cfg) == Ok(rd);
    assert DimsSchema().children["seasons"] == SeasonsSchema();
    LoadDictSubtree(dm, DimsSchema(), dd, cfg, "seasons");
    assert dm["seasons"] == Dict(map["snow" := w]);
    LegacySeasonsLoad(w, cfg);
  }

  /**
   * A legacy tree with `dims.winter` opens with that value as the snow flag
   * when the flag accessor accepts it, and the default 0 otherwise; the other
   * season flags take their defaults, since the migration replaces the whole
   * seasons dict.
   */
  lemma LegacyWinterLoads(load: map<string, Value>, cfg: Config)
    requires "dims" in load && load["dims"].Dict? && "winter" in load["dims"].entries
    requires LoadProject(load, cfg).Ok?
    ensures var w := load["dims"].entries["winter"];
      LoadProject(load, cfg).value.props.dims.seasons == SeasonFlags(if IsFlag(w) then AsInt(w).value else 0, 0, 0, 0)
  {
    LoadProjectSteps(load, cfg);
    LegacySeasonsEntry(load, cfg);
    var r := LoadDict(MigrateWinter(load).value, ProjectSchema(), ProjectDefaults(cfg), cfg).value;
    ExtractSeasons(r);
  }

  /** The season flags of the typed view are read from `dims.seasons`. */
  lemma ExtractSeasons(r: map<string, Value>)
    requires TreeShaped(r)
    ensures var sm := r["dims"].entries["seasons"].entries;
      Extract(r).props.dims.seasons == SeasonFlags(Bit(sm["snow"]), Bit(sm["autumn"]), Bit(sm["winter"]), Bit(sm["spring"]))
  {
  }
}
