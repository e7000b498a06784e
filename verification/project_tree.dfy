/**
 * The property tree of a TileCutter project: its validators tree and its
 * defaults, the legacy `winter` migration applied to a saved tree before it is
 * loaded, and the typed snapshot a load yields.
 */
module ProjectTree {
  import opened Values
  import opened Slots
  import opened ImageArray
  import opened ImageArrayFacts
  import opened Validators
  import opened Loader

  /** A slot as the property tree holds it: `{"path": ..., "offset": [x, y]}`. */
  function EncodeSlot(sl: Slot): Value {
    Dict(map["path" := Str(sl.path), "offset" := List([Int(sl.offset.x), Int(sl.offset.y)])])
  }

  /** A flat image array as the nested `[direction][season][frame][layer]` lists of the tree. */
  function EncodeImages(slots: seq<Slot>): Value
    requires |slots| == SlotCount
  {
    List(seq(Directions, d requires 0 <= d < Directions =>
      List(seq(SeasonCount, s requires 0 <= s < SeasonCount =>
        List(seq(FrameCount, f requires 0 <= f < FrameCount =>
          List(seq(LayerCount, l requires 0 <= l < LayerCount =>
            EncodeSlot(slots[Idx(d, s, f, l)])))))))))
  }

  lemma EncodeImagesAt(slots: seq<Slot>, d: nat, s: nat, f: nat, l: nat)
    requires |slots| == SlotCount
    ensures LayerAt(EncodeImages(slots), d, s, f, l) ==
      if ValidSlot(d, s, f, l) then Some(EncodeSlot(slots[Idx(d, s, f, l)])) else None
  {
  }

  /**
   * An image array written out as a tree passes the bulk validation of
   * `image_array` and reads back as the same array, provided its offsets are
   * non-negative (the only slot values the accessors ever store).
   */
  lemma ImagesRoundTrip(slots: seq<Slot>)
    requires |slots| == SlotCount && OffsetsNonNegative(slots)
    ensures Normalize(EncodeImages(slots)) == Filled(slots)
  {
    var v := EncodeImages(slots);
    forall d: nat, s: nat, f: nat, l: nat | LayerAt(v, d, s, f, l).Some?
      ensures LayerSafe(LayerAt(v, d, s, f, l).value, f)
    {
      EncodeImagesAt(slots, d, s, f, l);
    }
    NormalizeShaped(v);
    NormalizeFilled(v);
    forall i | 0 <= i < SlotCount ensures Reference(v)[i] == slots[i] {
      var c := Coords(i);
      IdxBijective(0, 0, 0, 0, i);
      EncodeImagesAt(slots, c.0, c.1, c.2, c.3);
      CommittedOffsetRoundTrip(slots[i].offset);
    }
  }

  /** The validators tree (lines 90-120): every leaf names the accessor that checks it. */
  function ProjectSchema(): (s: Schema)
    ensures s.Subtree?
  {
    Subtree(map[
      "images" := Leaf(ImagesCheck),
      "transparency" := Leaf(FlagCheck),
      "dims" := DimsSchema(),
      "files" := FilesSchema(),
      "dat" := DatSchema()])
  }

  function DimsSchema(): (s: Schema)
    ensures s.Subtree?
  {
    Subtree(map[
      "x" := Leaf(ChoiceCheck(DimsList)),
      "y" := Leaf(ChoiceCheck(DimsList)),
      "z" := Leaf(ChoiceCheck(DimsZList)),
      "paksize" := Leaf(ChoiceCheck(PaksizeList)),
      "directions" := Leaf(ChoiceCheck(ViewsList)),
      "frames" := Leaf(FramesCheck),
      "seasons" := SeasonsSchema(),
      "frontimage" := Leaf(FlagCheck)])
  }

  function SeasonsSchema(): (s: Schema)
    ensures s.Subtree?
  {
    Subtree(map["snow" := Leaf(FlagCheck), "autumn" := Leaf(FlagCheck), "winter" := Leaf(FlagCheck), "spring" := Leaf(FlagCheck)])
  }

  function FilesSchema(): (s: Schema)
    ensures s.Subtree?
  {
    Subtree(map[
      "datfile_location" := Leaf(TextCheck),
      "datfile_write" := Leaf(FlagCheck),
      "pngfile_location" := Leaf(TextCheck),
      "pakfile_location" := Leaf(TextCheck)])
  }

  function DatSchema(): (s: Schema)
    ensures s.Subtree?
  {
    Subtree(map["dat_lump" := Leaf(TextCheck)])
  }

  /** The typed view of `props` (the image array apart). */
  datatype SeasonFlags = SeasonFlags(snow: int, autumn: int, winter: int, spring: int)
  datatype Dims = Dims(x: int, y: int, z: int, paksize: int, directions: int, frames: int,
                       seasons: SeasonFlags, frontimage: int)
  datatype Files = Files(datfileLocation: string, datfileWrite: bool, pngfileLocation: string, pakfileLocation: string)
  datatype Props = Props(transparency: bool, dims: Dims, files: Files, datLump: string)
  /** A loaded project: its properties and its flat image array. */
  datatype Snapshot = Snapshot(props: Props, images: seq<Slot>)

  predicate IsBit(n: int) { n == 0 || n == 1 }

  /** What every accessor guarantees of a stored property, whatever the configuration. */
  predicate WellFormedProps(p: Props) {
    && p.dims.frames == 1
    && IsBit(p.dims.frontimage)
    && IsBit(p.dims.seasons.snow) && IsBit(p.dims.seasons.autumn)
    && IsBit(p.dims.seasons.winter) && IsBit(p.dims.seasons.spring)
  }

  /** The dimensions lie in the configured allow-lists. */
  predicate AllowedDims(p: Props, cfg: Config) {
    DimsAllowed(p.dims, cfg)
  }

  predicate DimsAllowed(d: Dims, cfg: Config) {
    d.x in cfg.dimChoices && d.y in cfg.dimChoices && d.z in cfg.dimZChoices
    && d.paksize in cfg.paksizeChoices && d.directions in cfg.viewChoices
  }

  const DefaultDatLump: string := "Obj=building\nName=test_1\nType=cur\nPassengers=100\nintro_year=1900\nchance=100"

  /** The properties of a brand-new project, as the defaults tree (lines 59-88) gives them. */
  function DefaultProps(cfg: Config): (p: Props)
    ensures WellFormedProps(p)
  {
    Props(true,
      Dims(1, 1, 1, cfg.defaultPaksize, 1, 1, SeasonFlags(0, 0, 0, 0), 0),
      Files("output.dat", true, "output.png", ""),
      DefaultDatLump)
  }

  /**
   * The property tree of a project (`self.props`), as the accessors store it:
   * flags set through `transparency` and `datfile_write` are bools, the others
   * are 0 or 1.
   */
  function EncodeTree(snap: Snapshot): map<string, Value>
    requires |snap.images| == SlotCount
  {
    var p := snap.props;
    map[
      "images" := EncodeImages(snap.images),
      "transparency" := Bool(p.transparency),
      "dims" := EncodeDims(p.dims),
      "files" := EncodeFiles(p.files),
      "dat" := Dict(map["dat_lump" := Str(p.datLump)])]
  }

  function EncodeDims(d: Dims): Value {
    Dict(map[
      "x" := Int(d.x),
      "y" := Int(d.y),
      "z" := Int(d.z),
      "paksize" := Int(d.paksize),
      "directions" := Int(d.directions),
      "frames" := Int(d.frames),
      "seasons" := EncodeSeasons(d.seasons),
      "frontimage" := Int(d.frontimage)])
  }

  function EncodeSeasons(s: SeasonFlags): Value {
    Dict(map["snow" := Int(s.snow), "autumn" := Int(s.autumn), "winter" := Int(s.winter), "spring" := Int(s.spring)])
  }

  function EncodeFiles(f: Files): Value {
    Dict(map[
      "datfile_location" := Str(f.datfileLocation),
      "datfile_write" := Bool(f.datfileWrite),
      "pngfile_location" := Str(f.pngfileLocation),
      "pakfile_location" := Str(f.pakfileLocation)])
  }

  /** The defaults tree (lines 59-88). */
  function ProjectDefaults(cfg: Config): (v: Value)
    ensures v.Dict? && v.entries.Keys == {"images", "transparency", "dims", "files", "dat"}
  {
    Dict(EncodeTree(Snapshot(DefaultProps(cfg), InitImages())))
  }

  /** The configured allow-lists hold the default dimensions. */
  predicate DefaultsAllowed(cfg: Config) {
    1 in cfg.dimChoices && 1 in cfg.dimZChoices && cfg.defaultPaksize in cfg.paksizeChoices && 1 in cfg.viewChoices
  }

  lemma DefaultsAllowedIff(cfg: Config)
    ensures AllowedDims(DefaultProps(cfg), cfg) <==> DefaultsAllowed(cfg)
  {
  }

  lemma SeasonsFit(sf: SeasonFlags, cfg: Config, strict: bool)
    requires IsBit(sf.snow) && IsBit(sf.autumn) && IsBit(sf.winter) && IsBit(sf.spring)
    ensures Fits(EncodeSeasons(sf), SeasonsSchema(), cfg, strict)
  {
    var v := EncodeSeasons(sf).entries;
    var ch := SeasonsSchema().children;
    assert v.Keys == ch.Keys;
    forall k | k in ch ensures Fits(v[k], ch[k], cfg, strict) {
      assert ch[k] == Leaf(FlagCheck);
    }
  }

  lemma DimsLeafFits(d: Dims, cfg: Config, strict: bool, k: string)
    requires d.frames == 1 && IsBit(d.frontimage)
    requires strict ==> DimsAllowed(d, cfg)
    requires k in DimsSchema().children && k != "seasons"
    ensures k in EncodeDims(d).entries && Fits(EncodeDims(d).entries[k], DimsSchema().children[k], cfg, strict)
  {
  }

  /** Written-out dims have exactly the keys of the dims validators. */
  lemma DimsKeys(d: Dims)
    ensures EncodeDims(d).entries.Keys == DimsSchema().children.Keys
  {
  }

  lemma DimsFitIf(d: Dims, cfg: Config, strict: bool)
    requires d.frames == 1 && IsBit(d.frontimage)
    requires IsBit(d.seasons.snow) && IsBit(d.seasons.autumn) && IsBit(d.seasons.winter) && IsBit(d.seasons.spring)
    requires strict ==> DimsAllowed(d, cfg)
    ensures Fits(EncodeDims(d), DimsSchema(), cfg, strict)
  {
    var v := EncodeDims(d).entries;
    var ch := DimsSchema().children;
    DimsKeys(d);
    SeasonsFit(d.seasons, cfg, strict);
    forall k | k in ch ensures Fits(v[k], ch[k], cfg, strict) {
      if k != "seasons" {
        DimsLeafFits(d, cfg, strict, k);
      }
    }
  }

  lemma DimsFitOnlyIf(d: Dims, cfg: Config)
    requires Fits(EncodeDims(d), DimsSchema(), cfg, true)
    ensures DimsAllowed(d, cfg)
  {
    DimsChoiceFits(d, cfg, "x");
    DimsChoiceFits(d, cfg, "y");
    DimsChoiceFits(d, cfg, "z");
    DimsChoiceFits(d, cfg, "paksize");
    DimsChoiceFits(d, cfg, "directions");
  }

  /** One allow-list leaf of strictly fitting written-out dims holds an allowed value. */
  lemma DimsChoiceFits(d: Dims, cfg: Config, k: string)
    requires Fits(EncodeDims(d), DimsSchema(), cfg, true)
    requires k in {"x", "y", "z", "paksize", "directions"}
    ensures k == "x" ==> d.x in cfg.dimChoices
    ensures k == "y" ==> d.y in cfg.dimChoices
    ensures k == "z" ==> d.z in cfg.dimZChoices
    ensures k == "paksize" ==> d.paksize in cfg.paksizeChoices
    ensures k == "directions" ==> d.directions in cfg.viewChoices
  {
    FitsChild(EncodeDims(d), DimsSchema(), cfg, true, k);
  }

  lemma FilesFit(f: Files, cfg: Config, strict: bool)
    ensures Fits(EncodeFiles(f), FilesSchema(), cfg, strict)
  {
    var v := EncodeFiles(f).entries;
    var ch := FilesSchema().children;
    assert v.Keys == ch.Keys;
    forall k | k in ch ensures Fits(v[k], ch[k], cfg, strict) {
      assert ch[k].Leaf?;
    }
  }

  lemma TreeEntryFits(snap: Snapshot, cfg: Config, strict: bool, k: string)
    requires WellFormedProps(snap.props) && |snap.images| == SlotCount && OffsetsNonNegative(snap.images)
    requires strict ==> AllowedDims(snap.props, cfg)
    requires k in ProjectSchema().children
    ensures k in EncodeTree(snap) && Fits(EncodeTree(snap)[k], ProjectSchema().children[k], cfg, strict)
  {
    var v := EncodeTree(snap);
    if k == "images" {
      ImagesRoundTrip(snap.images);
      assert Validate(ImagesCheck, v[k], cfg) == Accept;
    } else if k == "dims" {
      DimsFitIf(snap.props.dims, cfg, strict);
    } else if k == "files" {
      FilesFit(snap.props.files, cfg, strict);
    } else if k == "dat" {
      assert Fits(v[k].entries["dat_lump"], DatSchema().children["dat_lump"], cfg, strict);
    }
  }

  /**
   * A project tree fits the validators tree whenever its properties are well
   * formed and its offsets non-negative; every leaf is accepted by its
   * accessor exactly when the dimensions also lie in the allow-lists.
   */
  lemma TreeFits(snap: Snapshot, cfg: Config, strict: bool)
    requires WellFormedProps(snap.props) && |snap.images| == SlotCount && OffsetsNonNegative(snap.images)
    ensures Fits(Dict(EncodeTree(snap)), ProjectSchema(), cfg, strict) <==> (strict ==> AllowedDims(snap.props, cfg))
  {
    var v := EncodeTree(snap);
    var ch := ProjectSchema().children;
    if Fits(Dict(v), ProjectSchema(), cfg, strict) && strict {
      assert Fits(v["dims"], ch["dims"], cfg, strict);
      DimsFitOnlyIf(snap.props.dims, cfg);
    }
    if strict ==> AllowedDims(snap.props, cfg) {
      assert v.Keys == ch.Keys;
      forall k | k in ch ensures Fits(v[k], ch[k], cfg, strict) {
        TreeEntryFits(snap, cfg, strict, k);
      }
    }
  }

  /**
   * The defaults fit the validators tree whatever the configuration, and every
   * default is accepted by its accessor exactly when the allow-lists hold the
   * default dimensions.
   */
  lemma ProjectDefaultsFit(cfg: Config)
    ensures Fits(ProjectDefaults(cfg), ProjectSchema(), cfg, false)
    ensures Fits(ProjectDefaults(cfg), ProjectSchema(), cfg, true) <==> DefaultsAllowed(cfg)
  {
    var snap := Snapshot(DefaultProps(cfg), InitImages());
    TreeFits(snap, cfg, false);
    TreeFits(snap, cfg, true);
    DefaultsAllowedIff(cfg);
  }

  /** `t` occurs in `s` (Python's `t in s` on strings). */
  predicate IsSubstring(t: string, s: string) {
    t <= s || (|s| > 0 && IsSubstring(t, s[1..]))
  }

  /**
   * The compatibility step applied to a saved tree before it is loaded (lines
   * 126-128): a `winter` key under `dims` is removed and its value becomes the
   * whole `seasons` dict as `{"snow": value}`. A tree without `dims` raises
   * KeyError; a `dims` that is a number raises on the membership test, and a
   * list or str that contains "winter" raises on `pop`.
   */
  function MigrateWinter(load: map<string, Value>): (r: Outcome<map<string, Value>>)
    ensures "dims" in load && load["dims"].Dict? ==> r.Ok?
    ensures r.Ok? ==>
      && "dims" in load && r.value.Keys == load.Keys
      && forall k :: k in load && k != "dims" ==> r.value[k] == load[k]
    ensures r.Ok? && r.value["dims"].Dict? ==> "winter" !in r.value["dims"].entries
  {
    if "dims" !in load then Raised
    else match load["dims"]
      case Dict(m) =>
        if "winter" in m then Ok(load["dims" := Dict((m - {"winter"})["seasons" := Dict(map["snow" := m["winter"]])])])
        else Ok(load)
      case List(xs) => if Str("winter") in xs then Raised else Ok(load)
      case Str(t) => if IsSubstring("winter", t) then Raised else Ok(load)
      case Int(_) => Raised
      case Bool(_) => Raised
  }

  /**
   * A legacy tree loses its `winter` key, gains `seasons == {"snow": winter}`
   * in place of any seasons it had, and keeps everything else.
   */
  lemma LegacyWinterMigrated(load: map<string, Value>)
    requires "dims" in load && load["dims"].Dict? && "winter" in load["dims"].entries
    ensures MigrateWinter(load).Ok?
    ensures var m := MigrateWinter(load).value;
      var dm := load["dims"].entries;
      && m.Keys == load.Keys
      && (forall k :: k in load && k != "dims" ==> m[k] == load[k])
      && m["dims"].Dict?
      && m["dims"].entries.Keys == dm.Keys - {"winter"} + {"seasons"}
      && m["dims"].entries["seasons"] == Dict(map["snow" := dm["winter"]])
      && (forall k :: k in dm && k != "winter" && k != "seasons" ==> m["dims"].entries[k] == dm[k])
  {
  }

  /** A tree whose `dims` dict has no `winter` key passes through unchanged. */
  lemma CurrentTreeNotMigrated(load: map<string, Value>)
    requires "dims" in load && load["dims"].Dict? && "winter" !in load["dims"].entries
    ensures MigrateWinter(load) == Ok(load)
  {
  }

  /** Migrating a migrated tree changes nothing: the step runs at most once per file. */
  lemma MigrateWinterIdempotent(load: map<string, Value>)
    requires MigrateWinter(load).Ok?
    ensures MigrateWinter(MigrateWinter(load).value) == MigrateWinter(load)
  {
    var m := MigrateWinter(load).value;
    if load["dims"].Dict? {
      CurrentTreeNotMigrated(m);
    }
  }

  predicate IsNum(v: Value) { AsInt(v).Some? }

  /** The shape of a loaded tree that the typed view needs. */
  predicate TreeShaped(r: map<string, Value>) {
    && "images" in r && Normalize(r["images"]).Filled?
    && "transparency" in r && IsFlag(r["transparency"])
    && "dims" in r && DimsTree(r["dims"])
    && "files" in r && FilesTree(r["files"])
    && "dat" in r && r["dat"].Dict? && "dat_lump" in r["dat"].entries && r["dat"].entries["dat_lump"].Str?
  }

  predicate DimsTree(v: Value) {
    && v.Dict?
    && (var dm := v.entries;
        && "x" in dm && IsNum(dm["x"]) && "y" in dm && IsNum(dm["y"]) && "z" in dm && IsNum(dm["z"])
        && "paksize" in dm && IsNum(dm["paksize"]) && "directions" in dm && IsNum(dm["directions"])
        && "frames" in dm && AsInt(dm["frames"]) == Some(1)
        && "frontimage" in dm && IsFlag(dm["frontimage"])
        && "seasons" in dm && SeasonsTree(dm["seasons"]))
  }

  predicate SeasonsTree(v: Value) {
    && v.Dict?
    && (var sm := v.entries;
        && "snow" in sm && IsFlag(sm["snow"]) && "autumn" in sm && IsFlag(sm["autumn"])
        && "winter" in sm && IsFlag(sm["winter"]) && "spring" in sm && IsFlag(sm["spring"]))
  }

  predicate FilesTree(v: Value) {
    && v.Dict?
    && (var fm := v.entries;
        && "datfile_location" in fm && fm["datfile_location"].Str?
        && "datfile_write" in fm && IsFlag(fm["datfile_write"])
        && "pngfile_location" in fm && fm["pngfile_location"].Str?
        && "pakfile_location" in fm && fm["pakfile_location"].Str?)
  }

  lemma SeasonsFitShaped(v: Value, cfg: Config)
    requires Fits(v, SeasonsSchema(), cfg, false)
    ensures SeasonsTree(v)
  {
    var ch := SeasonsSchema().children;
    assert Fits(v.entries["snow"], ch["snow"], cfg, false) && Fits(v.entries["autumn"], ch["autumn"], cfg, false);
    assert Fits(v.entries["winter"], ch["winter"], cfg, false) && Fits(v.entries["spring"], ch["spring"], cfg, false);
  }

  lemma DimsFitNumbers(v: Value, cfg: Config)
    requires Fits(v, DimsSchema(), cfg, false)
    ensures v.Dict? && "x" in v.entries && IsNum(v.entries["x"]) && "y" in v.entries && IsNum(v.entries["y"])
    ensures "z" in v.entries && IsNum(v.entries["z"]) && "paksize" in v.entries && IsNum(v.entries["paksize"])
    ensures "directions" in v.entries && IsNum(v.entries["directions"])
  {
    FitsChild(v, DimsSchema(), cfg, false, "x");
    FitsChild(v, DimsSchema(), cfg, false, "y");
    FitsChild(v, DimsSchema(), cfg, false, "z");
    FitsChild(v, DimsSchema(), cfg, false, "paksize");
    FitsChild(v, DimsSchema(), cfg, false, "directions");
  }

  lemma DimsFitFlags(v: Value, cfg: Config)
    requires Fits(v, DimsSchema(), cfg, false)
    ensures v.Dict? && "frames" in v.entries && AsInt(v.entries["frames"]) == Some(1)
    ensures "frontimage" in v.entries && IsFlag(v.entries["frontimage"])
    ensures "seasons" in v.entries && SeasonsTree(v.entries["seasons"])
  {
    FitsChild(v, DimsSchema(), cfg, false, "frames");
    FitsChild(v, DimsSchema(), cfg, false, "frontimage");
    FitsChild(v, DimsSchema(), cfg, false, "seasons");
    SeasonsFitShaped(v.entries["seasons"], cfg);
  }

  lemma DimsFitShaped(v: Value, cfg: Config)
    requires Fits(v, DimsSchema(), cfg, false)
    ensures DimsTree(v)
  {
    DimsFitNumbers(v, cfg);
    DimsFitFlags(v, cfg);
  }

  lemma FilesFitShaped(v: Value, cfg: Config)
    requires Fits(v, FilesSchema(), cfg, false)
    ensures FilesTree(v)
  {
    var fm := v.entries;
    var ch := FilesSchema().children;
    assert Fits(fm["datfile_location"], ch["datfile_location"], cfg, false);
    assert Fits(fm["datfile_write"], ch["datfile_write"], cfg, false);
    assert Fits(fm["pngfile_location"], ch["pngfile_location"], cfg, false);
    assert Fits(fm["pakfile_location"], ch["pakfile_location"], cfg, false);
  }

  /** The leaves of a fitting project tree outside `dims` and `files`. */
  lemma FitsTreeLeaves(r: map<string, Value>, cfg: Config)
    requires Fits(Dict(r), ProjectSchema(), cfg, false)
    ensures "images" in r && Normalize(r["images"]).Filled?
    ensures "transparency" in r && IsFlag(r["transparency"])
    ensures "dat" in r && r["dat"].Dict? && "dat_lump" in r["dat"].entries && r["dat"].entries["dat_lump"].Str?
  {
    var ch := ProjectSchema().children;
    FitsChild(Dict(r), ProjectSchema(), cfg, false, "images");
    assert ch["images"] == Leaf(ImagesCheck);
    FitsChild(Dict(r), ProjectSchema(), cfg, false, "transparency");
    assert ch["transparency"] == Leaf(FlagCheck);
    FitsChild(Dict(r), ProjectSchema(), cfg, false, "dat");
    assert ch["dat"] == DatSchema();
    FitsChild(r["dat"], DatSchema(), cfg, false, "dat_lump");
  }

  lemma FitsTreeShaped(r: map<string, Value>, cfg: Config)
    requires Fits(Dict(r), ProjectSchema(), cfg, false)
    ensures TreeShaped(r)
  {
    var ch := ProjectSchema().children;
    FitsTreeLeaves(r, cfg);
    FitsChild(Dict(r), ProjectSchema(), cfg, false, "dims");
    assert ch["dims"] == DimsSchema();
    DimsFitShaped(r["dims"], cfg);
    FitsChild(Dict(r), ProjectSchema(), cfg, false, "files");
    assert ch["files"] == FilesSchema();
    FilesFitShaped(r["files"], cfg);
  }
}
