/**
 * A TileCutter project as the application holds it: an object whose
 * accessors, called with a value, validate it and store it in place, notify
 * the application of the change, and whose hash records the state last saved.
 */
module ProjectModel {
  import opened Values
  import opened Slots
  import opened ImageArray
  import opened Validators
  import opened ProjectTree
  import opened ProjectLoad

  /**
   * Python's `xs[i]` on a list of length `n`: a negative index counts from
   * the end, anything outside `-n .. n-1` raises IndexError.
   */
  function PyIndex(i: int, n: nat): (r: Option<nat>)
    ensures r.Some? <==> -(n as int) <= i < n
    ensures r.Some? ==> n > 0 && r.value == i % n
  {
    if 0 <= i < n then Some(i)
    else if -(n as int) <= i < 0 then Some(n + i)
    else None
  }

  /** The flat position `images[d][s][f][l]` reaches in the one-frame image array, or None for IndexError. */
  function SlotAt(d: int, s: int, f: int, l: int): (r: Option<nat>)
    ensures r.Some? <==> PyIndex(d, Directions).Some? && PyIndex(s, SeasonCount).Some? &&
                         PyIndex(f, FrameCount).Some? && PyIndex(l, LayerCount).Some?
    ensures r.Some? ==> r.value < SlotCount
    ensures ValidSlot(d, s, f, l) ==> r == Some(Idx(d, s, f, l))
  {
    match (PyIndex(d, Directions), PyIndex(s, SeasonCount), PyIndex(f, FrameCount), PyIndex(l, LayerCount))
    case (Some(d'), Some(s'), Some(f'), Some(l')) =>
      IdxBijective(d', s', f', l', 0);
      Some(Idx(d', s', f', l'))
    case _ => None
  }

  /** The four season flags the `seasons` accessor's `season` argument names. */
  datatype SeasonKey = Snow | Autumn | Winter | Spring

  /** The flags with the one `season` names set to `n`. */
  function WithSeason(sf: SeasonFlags, season: SeasonKey, n: int): SeasonFlags {
    match season
    case Snow => sf.(snow := n)
    case Autumn => sf.(autumn := n)
    case Winter => sf.(winter := n)
    case Spring => sf.(spring := n)
  }

  /** A snapshot every accessor keeps: well-formed properties and a full array with no negative offset. */
  predicate Storable(snap: Snapshot) {
    WellFormedProps(snap.props) && |snap.images| == SlotCount && OffsetsNonNegative(snap.images)
  }

  /** The fingerprint tells distinct property trees apart. */
  ghost predicate Injective(h: map<string, Value> -> int) {
    forall a, b :: h(a) == h(b) ==> a == b
  }

  /** Two storable snapshots with the same property tree are the same snapshot. */
  lemma EncodeTreeInjective(a: Snapshot, b: Snapshot)
    requires Storable(a) && Storable(b)
    ensures EncodeTree(a) == EncodeTree(b) <==> a == b
  {
    ExtractEncode(a);
    ExtractEncode(b);
  }

  /**
   * One layer of `image_array` (lines 215-233), written into the fresh array
   * `slots`: a non-dict layer refuses the array; a str path and an accepted
   * offset are copied into the slot, which exists only for frame 0.
   */
  method FillLayer(slots: array<Slot>, layer: Value, d: nat, s: nat, f: nat, l: nat) returns (r: Verdict)
    requires slots.Length == SlotCount && d < Directions && s < SeasonCount && l < LayerCount
    modifies slots
    ensures var step := LayerStep(layer, d, s, f, l, old(slots[..]));
      r == ToVerdict(step) && (step.Filled? ==> slots[..] == step.slots)
  {
    ghost var acc := slots[..];
    if !layer.Dict? {
      return Reject;
    }
    var m := layer.entries;
    var i := Idx(d, s, 0, l);
    IdxBijective(d, s, 0, l, 0);
    if "path" in m && m["path"].Str? {
      if f != 0 {
        return Raise;  // the fresh array has one frame: IndexError
      }
      slots[i] := slots[i].(path := m["path"].s);
    }
    if "offset" in m {
      var verdict := OffsetVerdict(m["offset"]);
      if verdict == Raise {
        return Raise;
      } else if verdict == Accept {
        if f != 0 {
          return Raise;
        }
        slots[i] := slots[i].(offset := CommittedOffset(m["offset"]));
      }
    }
    return Accept;
  }

  /**
   * The bulk validation of `image_array` (lines 198-256): the four nested
   * loops fill a fresh array. A shape error refuses the array and an escaping
   * exception raises; the array is returned only when it is accepted.
   */
  method BuildImageArray(v: Value) returns (r: Verdict, slots: array<Slot>)
    ensures r == ToVerdict(Normalize(v))
    ensures r == Accept ==> fresh(slots) && slots[..] == Normalize(v).slots
  {
    slots := new Slot[SlotCount](_ => EmptySlot);
    assert slots[..] == InitImages();
    if !(v.List? && |v.items| == Directions) {
      return Reject, slots;
    }
    var ds := v.items;
    var d: nat := 0;
    while d < Directions
      modifies slots
      invariant d <= Directions
      invariant Normalize(v) == Dirs(ds, d, slots[..])
    {
      var direction := ds[d];
      if !(direction.List? && |direction.items| == SeasonCount) {
        return Reject, slots;
      }
      var ss := direction.items;
      var s: nat := 0;
      while s < SeasonCount
        modifies slots
        invariant s <= SeasonCount
        invariant Normalize(v) == Seasons(ds, d, ss, s, slots[..])
      {
        var season := ss[s];
        if !(season.List? && |season.items| >= 1) {
          return Reject, slots;
        }
        var fs := season.items;
        var f: nat := 0;
        while f < |fs|
          modifies slots
          invariant f <= |fs|
          invariant Normalize(v) == Frames(ds, d, ss, s, fs, f, slots[..])
        {
          var frame := fs[f];
          if !(frame.List? && |frame.items| == LayerCount) {
            return Reject, slots;
          }
          var ls := frame.items;
          var l: nat := 0;
          while l < LayerCount
            modifies slots
            invariant l <= LayerCount
            invariant Normalize(v) == Layers(ds, d, ss, s, fs, f, ls, l, slots[..])
          {
            var verdict := FillLayer(slots, ls[l], d, s, f, l);
            if verdict != Accept {
              return verdict, slots;
            }
            l := l + 1;
          }
          f := f + 1;
        }
        s := s + 1;
      }
      d := d + 1;
    }
    return Accept, slots;
  }

  class Project {
    /** The application's configuration: the allow-lists and default paksize. */
    const cfg: Config
    /** `hash(repr(...))` of a property tree; the algorithm is a parameter of the model. */
    const fingerprint: map<string, Value> -> int

    /** `props` apart from the image array. */
    var props: Props
    /** `props["images"]`, flattened. */
    var images: array<Slot>
    /** `internals["activeimage"]`. */
    var activeDirection: int
    var activeSeason: int
    var activeFrame: int
    var activeLayer: int
    /** `internals["hash"]`. */
    var hash: int

    /** The snapshot the hash was last taken of. */
    ghost var saved: Snapshot
    /** How many times `on_change` has notified the application. */
    ghost var changes: nat

    /** The persisted state: what `repr(self.props)` is taken of. */
    function Persisted(): Snapshot
      reads this, images
    {
      Snapshot(props, images[..])
    }

    /** The active image's coordinates. */
    function Selection(): (int, int, int, int)
      reads this
    {
      (activeDirection, activeSeason, activeFrame, activeLayer)
    }

    ghost predicate Valid()
      reads this, images
    {
      && images.Length == SlotCount
      && Storable(Persisted())
      && ValidSlot(activeDirection, activeSeason, activeFrame, activeLayer)
      && activeFrame < props.dims.frames
      && Storable(saved)
      && hash == fingerprint(EncodeTree(saved))
    }

    /** A project holding `snap`, with the first image active and its hash taken. */
    constructor FromSnapshot(cfg: Config, fingerprint: map<string, Value> -> int, snap: Snapshot)
      requires Storable(snap)
      ensures Valid() && fresh(images)
      ensures this.cfg == cfg && this.fingerprint == fingerprint
      ensures Persisted() == snap && saved == snap && Selection() == (0, 0, 0, 0)
      ensures changes == 0
    {
      this.cfg := cfg;
      this.fingerprint := fingerprint;
      props := snap.props;
      images := new Slot[SlotCount](i requires 0 <= i < SlotCount reads {} => snap.images[i]);
      activeDirection, activeSeason, activeFrame, activeLayer := 0, 0, 0, 0;
      hash := fingerprint(EncodeTree(snap));
      saved := snap;
      changes := 0;
      new;
      assert images[..] == snap.images;
    }

    /**
     * `Project(load=...)` (lines 34-131): a brand-new project from the
     * defaults, or a saved tree migrated and loaded; either way the hash is
     * taken at the end, so the project starts out unchanged.
     */
    static method Open(cfg: Config, fingerprint: map<string, Value> -> int, load: Option<map<string, Value>>)
      returns (r: Outcome<Project>)
      ensures load.None? ==> r.Ok? && r.value.Persisted() == Snapshot(DefaultProps(cfg), InitImages())
      ensures load.Some? ==> (r.Ok? <==> LoadProject(load.value, cfg).Ok?)
      ensures load.Some? && r.Ok? ==> r.value.Persisted() == LoadProject(load.value, cfg).value
      ensures r.Ok? ==> fresh(r.value) && fresh(r.value.images) && r.value.Valid()
      ensures r.Ok? ==> r.value.cfg == cfg && r.value.fingerprint == fingerprint
      ensures r.Ok? ==> r.value.saved == r.value.Persisted() && r.value.Selection() == (0, 0, 0, 0)
    {
      var snap: Snapshot;
      if load.None? {
        snap := Snapshot(DefaultProps(cfg), InitImages());
      } else {
        var loaded := LoadProject(load.value, cfg);
        if loaded.Raised? {
          return Raised;
        }
        LoadProjectImages(load.value, cfg);
        snap := loaded.value;
      }
      var p := new Project.FromSnapshot(cfg, fingerprint, snap);
      r := Ok(p);
    }

    /** `update_hash` (lines 317-320): the current state becomes the saved one. */
    method UpdateHash() returns (r: bool)
      requires Valid()
      modifies this
      ensures Valid() && r
      ensures hash == fingerprint(EncodeTree(Persisted())) && saved == Persisted()
      ensures props == old(props) && images == old(images) && Selection() == old(Selection())
      ensures changes == old(changes)
    {
      hash := fingerprint(EncodeTree(Persisted()));
      saved := Persisted();
      r := true;
    }

    /**
     * `has_changed` (lines 302-311): the current state's hash differs from
     * the one recorded. A differing hash always means the state differs from
     * the saved one; the converse holds when the fingerprint tells trees apart.
     */
    method HasChanged() returns (changed: bool)
      requires Valid()
      ensures changed <==> fingerprint(EncodeTree(Persisted())) != hash
      ensures changed ==> Persisted() != saved
      ensures Injective(fingerprint) ==> (changed <==> Persisted() != saved)
    {
      changed := fingerprint(EncodeTree(Persisted())) != hash;
      EncodeTreeInjective(Persisted(), saved);
    }

    /** Everything but `props` and the notification count is as it was. */
    twostate predicate OnlyProps()
      reads this
    {
      images == old(images) && Selection() == old(Selection()) && saved == old(saved) && hash == old(hash)
    }

    /** Everything but the image array's contents and the notification count is as it was. */
    twostate predicate OnlyImages()
      reads this
    {
      props == old(props) && images == old(images) && Selection() == old(Selection())
      && saved == old(saved) && hash == old(hash)
    }

    /** Stores an accepted property value and notifies the application (`on_change`). */
    method Store(p: Props)
      requires Valid() && WellFormedProps(p)
      modifies this
      ensures Valid() && OnlyProps()
      ensures props == p && changes == old(changes) + 1
    {
      props := p;
      changes := changes + 1;
    }

    /**
     * `x` (lines 622-636): a value in the dims allow-list is stored as its
     * int; with `validate` set, or for any other value, nothing changes.
     */
    method SetX(v: Value, validate: bool) returns (r: Verdict)
      requires Valid()
      modifies this
      ensures r == Validate(ChoiceCheck(DimsList), v, cfg)
      ensures AllowedDims(old(props), cfg) ==> AllowedDims(props, cfg)
      ensures Valid() && OnlyProps()
      ensures var commit := r == Accept && !validate;
        && props == (if commit then old(props).(dims := old(props).dims.(x := AsInt(v).value)) else old(props))
        && changes == old(changes) + (if commit then 1 else 0)
    {
      if InChoices(v, cfg.dimChoices) {
        if !validate {
          Store(props.(dims := props.dims.(x := AsInt(v).value)));
        }
        return Accept;
      }
      return Reject;
    }

    /** `y` (lines 638-652), as `x`. */
    method SetY(v: Value, validate: bool) returns (r: Verdict)
      requires Valid()
      modifies this
      ensures r == Validate(ChoiceCheck(DimsList), v, cfg)
      ensures AllowedDims(old(props), cfg) ==> AllowedDims(props, cfg)
      ensures Valid() && OnlyProps()
      ensures var commit := r == Accept && !validate;
        && props == (if commit then old(props).(dims := old(props).dims.(y := AsInt(v).value)) else old(props))
        && changes == old(changes) + (if commit then 1 else 0)
    {
      if InChoices(v, cfg.dimChoices) {
        if !validate {
          Store(props.(dims := props.dims.(y := AsInt(v).value)));
        }
        return Accept;
      }
      return Reject;
    }

    /** `z` (lines 654-668), against the dims_z allow-list. */
    method SetZ(v: Value, validate: bool) returns (r: Verdict)
      requires Valid()
      modifies this
      ensures r == Validate(ChoiceCheck(DimsZList), v, cfg)
      ensures AllowedDims(old(props), cfg) ==> AllowedDims(props, cfg)
      ensures Valid() && OnlyProps()
      ensures var commit := r == Accept && !validate;
        && props == (if commit then old(props).(dims := old(props).dims.(z := AsInt(v).value)) else old(props))
        && changes == old(changes) + (if commit then 1 else 0)
    {
      if InChoices(v, cfg.dimZChoices) {
        if !validate {
          Store(props.(dims := props.dims.(z := AsInt(v).value)));
        }
        return Accept;
      }
      return Reject;
    }

    /** `paksize` (lines 692-706), against the paksize allow-list. */
    method SetPaksize(v: Value, validate: bool) returns (r: Verdict)
      requires Valid()
      modifies this
      ensures r == Validate(ChoiceCheck(PaksizeList), v, cfg)
      ensures AllowedDims(old(props), cfg) ==> AllowedDims(props, cfg)
      ensures Valid() && OnlyProps()
      ensures var commit := r == Accept && !validate;
        && props == (if commit then old(props).(dims := old(props).dims.(paksize := AsInt(v).value)) else old(props))
        && changes == old(changes) + (if commit then 1 else 0)
    {
      if InChoices(v, cfg.paksizeChoices) {
        if !validate {
          Store(props.(dims := props.dims.(paksize := AsInt(v).value)));
        }
        return Accept;
      }
      return Reject;
    }

    /** `directions` (lines 770-784), against the views allow-list. */
    method SetDirections(v: Value, validate: bool) returns (r: Verdict)
      requires Valid()
      modifies this
      ensures r == Validate(ChoiceCheck(ViewsList), v, cfg)
      ensures AllowedDims(old(props), cfg) ==> AllowedDims(props, cfg)
      ensures Valid() && OnlyProps()
      ensures var commit := r == Accept && !validate;
        && props == (if commit then old(props).(dims := old(props).dims.(directions := AsInt(v).value)) else old(props))
        && changes == old(changes) + (if commit then 1 else 0)
    {
      if InChoices(v, cfg.viewChoices) {
        if !validate {
          Store(props.(dims := props.dims.(directions := AsInt(v).value)));
        }
        return Accept;
      }
      return Reject;
    }

    /** `frames` (lines 754-768): only one frame is supported, so 1 is the only value accepted. */
    method SetFrames(v: Value, validate: bool) returns (r: Verdict)
      requires Valid()
      modifies this
      ensures r == Validate(FramesCheck, v, cfg)
      ensures Valid() && OnlyProps()
      ensures props == old(props)
      ensures changes == old(changes) + (if r == Accept && !validate then 1 else 0)
    {
      if AsInt(v) == Some(1) {
        if !validate {
          Store(props.(dims := props.dims.(frames := AsInt(v).value)));
        }
        return Accept;
      }
      return Reject;
    }

    /** `transparency` (lines 670-690): `[True, 1]` stores True, `[False, 0]` stores False. */
    method SetTransparency(v: Value, validate: bool) returns (r: Verdict)
      requires Valid()
      modifies this
      ensures r == Validate(FlagCheck, v, cfg)
      ensures Valid() && OnlyProps()
      ensures var commit := r == Accept && !validate;
        && props == (if commit then old(props).(transparency := AsInt(v) == Some(1)) else old(props))
        && changes == old(changes) + (if commit then 1 else 0)
    {
      if AsInt(v) == Some(1) {
        if !validate {
          Store(props.(transparency := true));
        }
        return Accept;
      } else if AsInt(v) == Some(0) {
        if !validate {
          Store(props.(transparency := false));
        }
        return Accept;
      }
      return Reject;
    }

    /** `seasons` (lines 708-729): the named season's flag becomes 1 or 0. */
    method SetSeason(v: Value, validate: bool, season: SeasonKey) returns (r: Verdict)
      requires Valid()
      modifies this
      ensures r == Validate(FlagCheck, v, cfg)
      ensures Valid() && OnlyProps()
      ensures var commit := r == Accept && !validate;
        && props == (if commit then old(props).(dims := old(props).dims.(seasons := WithSeason(old(props).dims.seasons, season, AsInt(v).value))) else old(props))
        && changes == old(changes) + (if commit then 1 else 0)
    {
      if AsInt(v) == Some(1) {
        if !validate {
          Store(props.(dims := props.dims.(seasons := WithSeason(props.dims.seasons, season, 1))));
        }
        return Accept;
      } else if AsInt(v) == Some(0) {
        if !validate {
          Store(props.(dims := props.dims.(seasons := WithSeason(props.dims.seasons, season, 0))));
        }
        return Accept;
      }
      return Reject;
    }

    /** `frontimage` (lines 731-752): the flag becomes 1 or 0. */
    method SetFrontimage(v: Value, validate: bool) returns (r: Verdict)
      requires Valid()
      modifies this
      ensures r == Validate(FlagCheck, v, cfg)
      ensures Valid() && OnlyProps()
      ensures var commit := r == Accept && !validate;
        && props == (if commit then old(props).(dims := old(props).dims.(frontimage := AsInt(v).value)) else old(props))
        && changes == old(changes) + (if commit then 1 else 0)
    {
      if AsInt(v) == Some(1) {
        if !validate {
          Store(props.(dims := props.dims.(frontimage := 1)));
        }
        return Accept;
      } else if AsInt(v) == Some(0) {
        if !validate {
          Store(props.(dims := props.dims.(frontimage := 0)));
        }
        return Accept;
      }
      return Reject;
    }

    /** `datfile_write` (lines 805-826): `[True, 1]` stores True, `[False, 0]` stores False. */
    method SetDatfileWrite(v: Value, validate: bool) returns (r: Verdict)
      requires Valid()
      modifies this
      ensures r == Validate(FlagCheck, v, cfg)
      ensures Valid() && OnlyProps()
      ensures var commit := r == Accept && !validate;
        && props == (if commit then old(props).(files := old(props).files.(datfileWrite := AsInt(v) == Some(1))) else old(props))
        && changes == old(changes) + (if commit then 1 else 0)
    {
      if AsInt(v) == Some(1) {
        if !validate {
          Store(props.(files := props.files.(datfileWrite := true)));
        }
        return Accept;
      } else if AsInt(v) == Some(0) {
        if !validate {
          Store(props.(files := props.files.(datfileWrite := false)));
        }
        return Accept;
      }
      return Reject;
    }

    /** `datfile_location` (lines 789-803): any str is stored. */
    method SetDatfileLocation(v: Value, validate: bool) returns (r: Verdict)
      requires Valid()
      modifies this
      ensures r == Validate(TextCheck, v, cfg)
      ensures Valid() && OnlyProps()
      ensures var commit := r == Accept && !validate;
        && props == (if commit then old(props).(files := old(props).files.(datfileLocation := v.s)) else old(props))
        && changes == old(changes) + (if commit then 1 else 0)
    {
      if v.Str? {
        if !validate {
          Store(props.(files := props.files.(datfileLocation := v.s)));
        }
        return Accept;
      }
      return Reject;
    }

    /** `pngfile_location` (lines 828-842): any str is stored. */
    method SetPngfileLocation(v: Value, validate: bool) returns (r: Verdict)
      requires Valid()
      modifies this
      ensures r == Validate(TextCheck, v, cfg)
      ensures Valid() && OnlyProps()
      ensures var commit := r == Accept && !validate;
        && props == (if commit then old(props).(files := old(props).files.(pngfileLocation := v.s)) else old(props))
        && changes == old(changes) + (if commit then 1 else 0)
    {
      if v.Str? {
        if !validate {
          Store(props.(files := props.files.(pngfileLocation := v.s)));
        }
        return Accept;
      }
      return Reject;
    }

    /** `pakfile_location` (lines 844-858): any str is stored. */
    method SetPakfileLocation(v: Value, validate: bool) returns (r: Verdict)
      requires Valid()
      modifies this
      ensures r == Validate(TextCheck, v, cfg)
      ensures Valid() && OnlyProps()
      ensures var commit := r == Accept && !validate;
        && props == (if commit then old(props).(files := old(props).files.(pakfileLocation := v.s)) else old(props))
        && changes == old(changes) + (if commit then 1 else 0)
    {
      if v.Str? {
        if !validate {
          Store(props.(files := props.files.(pakfileLocation := v.s)));
        }
        return Accept;
      }
      return Reject;
    }

    /** `dat_lump` (lines 325-338): any str is stored. */
    method SetDatLump(v: Value, validate: bool) returns (r: Verdict)
      requires Valid()
      modifies this
      ensures r == Validate(TextCheck, v, cfg)
      ensures Valid() && OnlyProps()
      ensures var commit := r == Accept && !validate;
        && props == (if commit then old(props).(datLump := v.s) else old(props))
        && changes == old(changes) + (if commit then 1 else 0)
    {
      if v.Str? {
        if !validate {
          Store(props.(datLump := v.s));
        }
        return Accept;
      }
      return Reject;
    }

    /** `direction` (lines 538-552): the active direction, one of 0..3. */
    method SelectDirection(v: Value, validate: bool) returns (r: Verdict)
      requires Valid()
      modifies this
      ensures r == Accept <==> InChoices(v, {0, 1, 2, 3})
      ensures r != Raise
      ensures Valid() && props == old(props) && images == old(images) && saved == old(saved) && hash == old(hash)
      ensures var commit := r == Accept && !validate;
        && Selection() == (if commit then old(Selection()).(0 := AsInt(v).value) else old(Selection()))
        && changes == old(changes) + (if commit then 1 else 0)
    {
      if InChoices(v, {0, 1, 2, 3}) {
        if !validate {
          activeDirection := AsInt(v).value;
          changes := changes + 1;
        }
        return Accept;
      }
      return Reject;
    }

    /** `season` (lines 554-568): the active season, in `range(5)`. */
    method SelectSeason(v: Value, validate: bool) returns (r: Verdict)
      requires Valid()
      modifies this
      ensures r == Accept <==> AsInt(v).Some? && 0 <= AsInt(v).value < SeasonCount
      ensures r != Raise
      ensures Valid() && props == old(props) && images == old(images) && saved == old(saved) && hash == old(hash)
      ensures var commit := r == Accept && !validate;
        && Selection() == (if commit then old(Selection()).(1 := AsInt(v).value) else old(Selection()))
        && changes == old(changes) + (if commit then 1 else 0)
    {
      if InChoices(v, {0, 1, 2, 3, 4}) {
        if !validate {
          activeSeason := AsInt(v).value;
          changes := changes + 1;
        }
        return Accept;
      }
      return Reject;
    }

    /** `frame` (lines 570-584): the active frame, in `range(frames)`. */
    method SelectFrame(v: Value, validate: bool) returns (r: Verdict)
      requires Valid()
      modifies this
      ensures r == Accept <==> AsInt(v).Some? && 0 <= AsInt(v).value < props.dims.frames
      ensures r != Raise
      ensures Valid() && props == old(props) && images == old(images) && saved == old(saved) && hash == old(hash)
      ensures var commit := r == Accept && !validate;
        && Selection() == (if commit then old(Selection()).(2 := AsInt(v).value) else old(Selection()))
        && changes == old(changes) + (if commit then 1 else 0)
    {
      if AsInt(v).Some? && 0 <= AsInt(v).value < props.dims.frames {
        if !validate {
          activeFrame := AsInt(v).value;
          changes := changes + 1;
        }
        return Accept;
      }
      return Reject;
    }

    /** `layer` (lines 586-600): the active layer, 0 (back) or 1 (front). */
    method SelectLayer(v: Value, validate: bool) returns (r: Verdict)
      requires Valid()
      modifies this
      ensures r == Accept <==> InChoices(v, {0, 1})
      ensures r != Raise
      ensures Valid() && props == old(props) && images == old(images) && saved == old(saved) && hash == old(hash)
      ensures var commit := r == Accept && !validate;
        && Selection() == (if commit then old(Selection()).(3 := AsInt(v).value) else old(Selection()))
        && changes == old(changes) + (if commit then 1 else 0)
    {
      if InChoices(v, {0, 1}) {
        if !validate {
          activeLayer := AsInt(v).value;
          changes := changes + 1;
        }
        return Accept;
      }
      return Reject;
    }

    /**
     * `image_path` (lines 352-368): a str path is accepted; when it is
     * committed, slot `[d][s][f][l]` gets it, and coordinates outside the
     * array raise IndexError. With `validate` set nothing is indexed.
     */
    method SetImagePath(d: int, s: int, f: int, l: int, v: Value, validate: bool) returns (r: Verdict)
      requires Valid()
      modifies this, images
      ensures Valid() && OnlyImages()
      ensures r == Reject <==> !v.Str?
      ensures r == Raise <==> v.Str? && !validate && SlotAt(d, s, f, l).None?
      ensures var commit := r == Accept && !validate;
        && images[..] == (if commit then old(images[..])[SlotAt(d, s, f, l).value := old(images[SlotAt(d, s, f, l).value]).(path := v.s)] else old(images[..]))
        && changes == old(changes) + (if commit then 1 else 0)
    {
      if !v.Str? {
        return Reject;
      }
      if !validate {
        var i := SlotAt(d, s, f, l);
        if i.None? {
          return Raise;
        }
        images[i.value] := images[i.value].(path := v.s);
        changes := changes + 1;
      }
      return Accept;
    }

    /**
     * `x_offset` (lines 468-482): a value `>= 0` is accepted and, committed,
     * becomes the slot's x offset; comparing a non-number with 0 raises.
     */
    method SetXOffset(d: int, s: int, f: int, l: int, v: Value, validate: bool) returns (r: Verdict)
      requires Valid()
      modifies this, images
      ensures Valid() && OnlyImages()
      ensures r == (if ComponentVerdict(v) == Accept && !validate && SlotAt(d, s, f, l).None? then Raise else ComponentVerdict(v))
      ensures var commit := r == Accept && !validate;
        && images[..] == (if commit then old(images[..])[SlotAt(d, s, f, l).value := old(images[SlotAt(d, s, f, l).value]).(offset := old(images[SlotAt(d, s, f, l).value]).offset.(x := AsInt(v).value))] else old(images[..]))
        && changes == old(changes) + (if commit then 1 else 0)
    {
      r := ComponentVerdict(v);
      if r == Accept && !validate {
        var i := SlotAt(d, s, f, l);
        if i.None? {
          return Raise;
        }
        images[i.value] := images[i.value].(offset := images[i.value].offset.(x := AsInt(v).value));
        changes := changes + 1;
      }
    }

    /** `y_offset` (lines 493-507), as `x_offset` for the y offset. */
    method SetYOffset(d: int, s: int, f: int, l: int, v: Value, validate: bool) returns (r: Verdict)
      requires Valid()
      modifies this, images
      ensures Valid() && OnlyImages()
      ensures r == (if ComponentVerdict(v) == Accept && !validate && SlotAt(d, s, f, l).None? then Raise else ComponentVerdict(v))
      ensures var commit := r == Accept && !validate;
        && images[..] == (if commit then old(images[..])[SlotAt(d, s, f, l).value := old(images[SlotAt(d, s, f, l).value]).(offset := old(images[SlotAt(d, s, f, l).value]).offset.(y := AsInt(v).value))] else old(images[..]))
        && changes == old(changes) + (if commit then 1 else 0)
    {
      r := ComponentVerdict(v);
      if r == Accept && !validate {
        var i := SlotAt(d, s, f, l);
        if i.None? {
          return Raise;
        }
        images[i.value] := images[i.value].(offset := images[i.value].offset.(y := AsInt(v).value));
        changes := changes + 1;
      }
    }

    /**
     * `offset` (lines 518-533): `value[0]` and then `value[1]` are checked as
     * `x_offset` and `y_offset` would, without storing; committed, the pair
     * replaces the slot's offset.
     */
    method SetOffset(d: int, s: int, f: int, l: int, v: Value, validate: bool) returns (r: Verdict)
      requires Valid()
      modifies this, images
      ensures Valid() && OnlyImages()
      ensures r == (if OffsetVerdict(v) == Accept && !validate && SlotAt(d, s, f, l).None? then Raise else OffsetVerdict(v))
      ensures var commit := r == Accept && !validate;
        && images[..] == (if commit then old(images[..])[SlotAt(d, s, f, l).value := old(images[SlotAt(d, s, f, l).value]).(offset := CommittedOffset(v))] else old(images[..]))
        && changes == old(changes) + (if commit then 1 else 0)
    {
      r := OffsetVerdict(v);
      if r == Accept && !validate {
        var i := SlotAt(d, s, f, l);
        if i.None? {
          return Raise;
        }
        images[i.value] := images[i.value].(offset := CommittedOffset(v));
        changes := changes + 1;
      }
    }

    /** `active_image_path` (lines 343-350): `image_path` at the active image, which never raises. */
    method SetActiveImagePath(v: Value, validate: bool) returns (r: Verdict)
      requires Valid()
      modifies this, images
      ensures Valid() && OnlyImages()
      ensures r == (if v.Str? then Accept else Reject)
      ensures var i := Idx(activeDirection, activeSeason, activeFrame, activeLayer);
        var commit := r == Accept && !validate;
        && images[..] == (if commit then old(images[..])[i := old(images[i]).(path := v.s)] else old(images[..]))
        && changes == old(changes) + (if commit then 1 else 0)
    {
      r := SetImagePath(activeDirection, activeSeason, activeFrame, activeLayer, v, validate);
    }

    /** `active_x_offset` (lines 459-466): `x_offset` at the active image, which raises only for a non-number. */
    method SetActiveXOffset(v: Value, validate: bool) returns (r: Verdict)
      requires Valid()
      modifies this, images
      ensures Valid() && OnlyImages()
      ensures r == ComponentVerdict(v)
      ensures var i := Idx(activeDirection, activeSeason, activeFrame, activeLayer);
        var commit := r == Accept && !validate;
        && images[..] == (if commit then old(images[..])[i := old(images[i]).(offset := old(images[i]).offset.(x := AsInt(v).value))] else old(images[..]))
        && changes == old(changes) + (if commit then 1 else 0)
    {
      r := SetXOffset(activeDirection, activeSeason, activeFrame, activeLayer, v, validate);
    }

    /** `active_y_offset` (lines 484-491): `y_offset` at the active image. */
    method SetActiveYOffset(v: Value, validate: bool) returns (r: Verdict)
      requires Valid()
      modifies this, images
      ensures Valid() && OnlyImages()
      ensures r == ComponentVerdict(v)
      ensures var i := Idx(activeDirection, activeSeason, activeFrame, activeLayer);
        var commit := r == Accept && !validate;
        && images[..] == (if commit then old(images[..])[i := old(images[i]).(offset := old(images[i]).offset.(y := AsInt(v).value))] else old(images[..]))
        && changes == old(changes) + (if commit then 1 else 0)
    {
      r := SetYOffset(activeDirection, activeSeason, activeFrame, activeLayer, v, validate);
    }

    /** `active_offset` (lines 509-516): `offset` at the active image, which raises only for a malformed pair. */
    method SetActiveOffset(v: Value, validate: bool) returns (r: Verdict)
      requires Valid()
      modifies this, images
      ensures Valid() && OnlyImages()
      ensures r == OffsetVerdict(v)
      ensures var i := Idx(activeDirection, activeSeason, activeFrame, activeLayer);
        var commit := r == Accept && !validate;
        && images[..] == (if commit then old(images[..])[i := old(images[i]).(offset := CommittedOffset(v))] else old(images[..]))
        && changes == old(changes) + (if commit then 1 else 0)
    {
      r := SetOffset(activeDirection, activeSeason, activeFrame, activeLayer, v, validate);
    }

    /**
     * `image_array` (lines 198-256): an accepted array that is not just being
     * validated replaces the project's array; anything else changes nothing.
     */
    method SetImageArray(v: Value, validate: bool) returns (r: Verdict)
      requires Valid()
      modifies this
      ensures Valid() && props == old(props) && Selection() == old(Selection()) && saved == old(saved) && hash == old(hash)
      ensures r == ToVerdict(Normalize(v))
      ensures var commit := r == Accept && !validate;
        && (commit ==> fresh(images) && images[..] == Normalize(v).slots && changes == old(changes) + 1)
        && (!commit ==> images == old(images) && changes == old(changes))
    {
      var slots;
      r, slots := BuildImageArray(v);
      if r == Accept && !validate {
        images := slots;
        changes := changes + 1;
      }
    }

    /**
     * `set_all_images` (lines 394-402): every slot, in the order of the four
     * nested loops, gets `path`; offsets are kept.
     */
    method SetAllImages(path: string)
      requires Valid()
      modifies this, images
      ensures Valid() && OnlyImages()
      ensures forall i :: 0 <= i < SlotCount ==> images[i] == old(images[i]).(path := path)
      ensures changes == old(changes) + 1
    {
      for d := 0 to Directions
        modifies images
        invariant forall i :: 0 <= i < SlotCount ==>
          images[i] == if i < Idx(d, 0, 0, 0) then old(images[i]).(path := path) else old(images[i])
      {
        for s := 0 to SeasonCount
          modifies images
          invariant forall i :: 0 <= i < SlotCount ==>
            images[i] == if i < Idx(d, s, 0, 0) then old(images[i]).(path := path) else old(images[i])
        {
          for f := 0 to FrameCount
            modifies images
            invariant forall i :: 0 <= i < SlotCount ==>
              images[i] == if i < Idx(d, s, f, 0) then old(images[i]).(path := path) else old(images[i])
          {
            for l := 0 to LayerCount
              modifies images
              invariant forall i :: 0 <= i < SlotCount ==>
                images[i] == if i < Idx(d, s, f, l) then old(images[i]).(path := path) else old(images[i])
            {
              images[Idx(d, s, f, l)] := images[Idx(d, s, f, l)].(path := path);
            }
          }
        }
      }
      changes := changes + 1;
    }
  }
}
