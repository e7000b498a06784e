/**
 * `load_dict`: a loaded property tree is walked in step with the validators
 * tree and the defaults tree. Every key of the validators tree is in the
 * result; a leaf keeps an input value its accessor accepts and otherwise takes
 * the default; a subtree recurses when the input holds a dict there and
 * otherwise takes the whole default subtree; a validators node that is
 * neither an accessor nor a dict raises.
 */
module Loader {
  import opened Values
  import opened Validators

  /** A node of the validators tree: an accessor, a dict of nodes, or anything else. */
  datatype Schema = Leaf(check: Check) | Subtree(children: map<string, Schema>) | Malformed

  /** `defaults[k]`: KeyError when the key is absent, TypeError when `defaults` is not a dict. */
  function Lookup(defaults: Value, k: string): Outcome<Value> {
    if defaults.Dict? && k in defaults.entries then Ok(defaults.entries[k]) else Raised
  }

  /** The value `load_dict` puts under key `k` (one pass of the loop at lines 145-172). */
  function LoadEntry(loaded: map<string, Value>, node: Schema, k: string, defaults: Value, cfg: Config): (r: Outcome<Value>)
    requires node.Subtree? && k in node.children
    ensures k in loaded && node.children[k].Malformed? ==> r.Raised?
    ensures r.Ok? ==>
      || Lookup(defaults, k) == Ok(r.value)
      || (k in loaded && r.value == loaded[k])
      || (k in loaded && node.children[k].Subtree? && loaded[k].Dict? && r.value.Dict?)
    decreases node, 0
  {
    if k !in loaded then Lookup(defaults, k)
    else match node.children[k]
      case Leaf(c) =>
        (match Validate(c, loaded[k], cfg)
         case Accept => Ok(loaded[k])
         case Reject => Lookup(defaults, k)
         case Raise => Raised)
      case Subtree(_) =>
        if loaded[k].Dict? then
          (match Lookup(defaults, k)
           case Raised => Raised
           case Ok(sub) =>
             (match LoadDict(loaded[k].entries, node.children[k], sub, cfg)
              case Raised => Raised
              case Ok(r) => Ok(Dict(r))))
        else Lookup(defaults, k)
      case Malformed => Raised
  }

  /** `load_dict(loaded, validators, defaults)` (lines 139-175); an exception in any entry escapes. */
  function LoadDict(loaded: map<string, Value>, node: Schema, defaults: Value, cfg: Config): (r: Outcome<map<string, Value>>)
    requires node.Subtree?
    ensures r.Ok? ==> r.value.Keys == node.children.Keys
    decreases node, 1
  {
    var entries := map k | k in node.children :: LoadEntry(loaded, node, k, defaults, cfg);
    if exists k :: k in entries && entries[k].Raised? then Raised
    else Ok(map k | k in entries :: entries[k].value)
  }

  /** A successful load is made of its entries, each of which succeeded. */
  lemma LoadDictEntries(loaded: map<string, Value>, node: Schema, defaults: Value, cfg: Config, k: string)
    requires node.Subtree? && k in node.children
    ensures LoadDict(loaded, node, defaults, cfg).Ok? ==>
      LoadEntry(loaded, node, k, defaults, cfg) == Ok(LoadDict(loaded, node, defaults, cfg).value[k])
    ensures LoadEntry(loaded, node, k, defaults, cfg).Raised? ==> LoadDict(loaded, node, defaults, cfg).Raised?
  {
    var entries := map k | k in node.children :: LoadEntry(loaded, node, k, defaults, cfg);
    assert entries[k] == LoadEntry(loaded, node, k, defaults, cfg);
  }

  /** Conversely, entries that all succeed make a successful load. */
  lemma LoadDictFromEntries(loaded: map<string, Value>, node: Schema, defaults: Value, cfg: Config, w: map<string, Value>)
    requires node.Subtree? && w.Keys == node.children.Keys
    requires forall k :: k in node.children ==> LoadEntry(loaded, node, k, defaults, cfg) == Ok(w[k])
    ensures LoadDict(loaded, node, defaults, cfg) == Ok(w)
  {
    var entries := map k | k in node.children :: LoadEntry(loaded, node, k, defaults, cfg);
    assert forall k :: k in entries ==> entries[k] == Ok(w[k]);
    assert (map k | k in entries :: entries[k].value) == w;
  }

  /**
   * What a successful load holds under one key of the validators tree: a
   * missing key takes the default; an accepted leaf keeps its input and a
   * rejected one takes the default; a subtree whose input is not a dict takes
   * the whole default subtree, and one whose input is a dict is loaded
   * recursively against the default subtree. A validators node that is
   * neither an accessor nor a dict, once reached, makes the load raise.
   */
  lemma LoadDictAt(loaded: map<string, Value>, node: Schema, defaults: Value, cfg: Config, k: string)
    requires node.Subtree? && k in node.children
    ensures k in loaded && node.children[k].Malformed? ==> LoadDict(loaded, node, defaults, cfg).Raised?
    ensures LoadDict(loaded, node, defaults, cfg).Ok? ==>
      var r := LoadDict(loaded, node, defaults, cfg).value;
      && (k !in loaded ==> Lookup(defaults, k) == Ok(r[k]))
      && (k in loaded && node.children[k].Leaf? ==>
            if Validate(node.children[k].check, loaded[k], cfg) == Accept then r[k] == loaded[k]
            else Lookup(defaults, k) == Ok(r[k]))
      && (k in loaded && node.children[k].Subtree? && !loaded[k].Dict? ==> Lookup(defaults, k) == Ok(r[k]))
      && (k in loaded && node.children[k].Subtree? && loaded[k].Dict? ==>
            Lookup(defaults, k).Ok? && r[k].Dict? &&
            LoadDict(loaded[k].entries, node.children[k], Lookup(defaults, k).value, cfg) == Ok(r[k].entries))
  {
    LoadDictEntries(loaded, node, defaults, cfg, k);
  }

  /** `LoadDictAt` for an accessor leaf. */
  lemma LoadDictLeaf(loaded: map<string, Value>, node: Schema, defaults: Value, cfg: Config, k: string)
    requires node.Subtree? && k in node.children && node.children[k].Leaf?
    requires LoadDict(loaded, node, defaults, cfg).Ok?
    ensures var r := LoadDict(loaded, node, defaults, cfg).value;
      if k in loaded && Validate(node.children[k].check, loaded[k], cfg) == Accept then r[k] == loaded[k]
      else Lookup(defaults, k) == Ok(r[k])
  {
    LoadDictAt(loaded, node, defaults, cfg, k);
  }

  /** `LoadDictAt` for a subtree whose input is a dict. */
  lemma LoadDictSubtree(loaded: map<string, Value>, node: Schema, defaults: Value, cfg: Config, k: string)
    requires node.Subtree? && k in node.children && node.children[k].Subtree?
    requires k in loaded && loaded[k].Dict?
    requires LoadDict(loaded, node, defaults, cfg).Ok?
    ensures var r := LoadDict(loaded, node, defaults, cfg).value;
      Lookup(defaults, k).Ok? && r[k].Dict? &&
      LoadDict(loaded[k].entries, node.children[k], Lookup(defaults, k).value, cfg) == Ok(r[k].entries)
  {
    LoadDictAt(loaded, node, defaults, cfg, k);
  }

  /** `v` has exactly the keys of the validators tree at every level it describes. */
  predicate Conforms(v: Value, s: Schema)
    decreases s
  {
    match s
    case Leaf(_) => true
    case Malformed => false
    case Subtree(ch) =>
      v.Dict? && v.entries.Keys == ch.Keys && forall k :: k in ch ==> Conforms(v.entries[k], ch[k])
  }

  /**
   * A defaults tree fit for the validators tree: it conforms, and no
   * accessor raises on its own default value.
   */
  predicate Sound(v: Value, s: Schema, cfg: Config)
    decreases s
  {
    match s
    case Leaf(c) => Validate(c, v, cfg) != Raise
    case Malformed => false
    case Subtree(ch) =>
      v.Dict? && v.entries.Keys == ch.Keys && forall k :: k in ch ==> Sound(v.entries[k], ch[k], cfg)
  }

  lemma {:induction false} SoundConforms(v: Value, s: Schema, cfg: Config)
    requires Sound(v, s, cfg)
    ensures Conforms(v, s)
    decreases s
  {
    if s.Subtree? {
      forall k | k in s.children ensures Conforms(v.entries[k], s.children[k]) {
        SoundConforms(v.entries[k], s.children[k], cfg);
      }
    }
  }

  /**
   * With conforming defaults, a loaded tree has exactly the keys of the
   * validators tree at every level: unknown input keys are dropped and no
   * schema key is missing.
   */
  lemma {:induction false} LoadConforms(loaded: map<string, Value>, node: Schema, defaults: Value, cfg: Config)
    requires node.Subtree? && Conforms(defaults, node)
    requires LoadDict(loaded, node, defaults, cfg).Ok?
    ensures Conforms(Dict(LoadDict(loaded, node, defaults, cfg).value), node)
    decreases node
  {
    var r := LoadDict(loaded, node, defaults, cfg).value;
    forall k | k in node.children ensures Conforms(r[k], node.children[k]) {
      LoadDictAt(loaded, node, defaults, cfg, k);
      match node.children[k]
      case Leaf(_) =>
      case Malformed =>
      case Subtree(_) =>
        if k in loaded && loaded[k].Dict? {
          LoadConforms(loaded[k].entries, node.children[k], defaults.entries[k], cfg);
        }
    }
  }

  /** Loading the defaults tree against itself gives it back. */
  lemma {:induction false} LoadDefaultsFixed(node: Schema, defaults: Value, cfg: Config)
    requires node.Subtree? && Sound(defaults, node, cfg)
    ensures LoadDict(defaults.entries, node, defaults, cfg) == Ok(defaults.entries)
    decreases node
  {
    forall k | k in node.children
      ensures LoadEntry(defaults.entries, node, k, defaults, cfg) == Ok(defaults.entries[k])
    {
      match node.children[k]
      case Leaf(_) =>
      case Malformed =>
      case Subtree(_) =>
        LoadDefaultsFixed(node.children[k], defaults.entries[k], cfg);
        assert Dict(defaults.entries[k].entries) == defaults.entries[k];
    }
    LoadDictFromEntries(defaults.entries, node, defaults, cfg, defaults.entries);
  }

  /**
   * Normalisation is idempotent: loading a tree that a load produced, against
   * the same sound validators and defaults, gives it back unchanged.
   */
  lemma {:induction false} LoadIdempotent(loaded: map<string, Value>, node: Schema, defaults: Value, cfg: Config)
    requires node.Subtree? && Sound(defaults, node, cfg)
    requires LoadDict(loaded, node, defaults, cfg).Ok?
    ensures LoadDict(LoadDict(loaded, node, defaults, cfg).value, node, defaults, cfg) == LoadDict(loaded, node, defaults, cfg)
    decreases node
  {
    var r := LoadDict(loaded, node, defaults, cfg).value;
    forall k | k in node.children ensures LoadEntry(r, node, k, defaults, cfg) == Ok(r[k]) {
      LoadDictAt(loaded, node, defaults, cfg, k);
      match node.children[k]
      case Leaf(_) =>
      case Malformed =>
      case Subtree(_) =>
        if k in loaded && loaded[k].Dict? {
          LoadIdempotent(loaded[k].entries, node.children[k], defaults.entries[k], cfg);
          assert Dict(r[k].entries) == r[k];
        } else {
          LoadDefaultsFixed(node.children[k], defaults.entries[k], cfg);
          assert Dict(defaults.entries[k].entries) == defaults.entries[k];
        }
    }
    LoadDictFromEntries(r, node, defaults, cfg, r);
  }

  /**
   * A leaf value fit to stand in the tree: its accessor accepts it, or, when
   * `strict` is off, it is at least a number where an allow-list is consulted
   * (the allow-lists are configuration and need not hold the defaults).
   */
  predicate LeafFits(c: Check, v: Value, cfg: Config, strict: bool) {
    Validate(c, v, cfg) == Accept || (!strict && c.ChoiceCheck? && AsInt(v).Some?)
  }

  /** Every leaf of `v` fits its accessor, and `v` has exactly the keys of the validators tree. */
  predicate Fits(v: Value, s: Schema, cfg: Config, strict: bool)
    decreases s
  {
    match s
    case Leaf(c) => LeafFits(c, v, cfg, strict)
    case Malformed => false
    case Subtree(ch) =>
      v.Dict? && v.entries.Keys == ch.Keys && forall k :: k in ch ==> Fits(v.entries[k], ch[k], cfg, strict)
  }

  /** One entry of a fitting tree fits its node. */
  lemma FitsChild(v: Value, s: Schema, cfg: Config, strict: bool, k: string)
    requires Fits(v, s, cfg, strict) && s.Subtree? && k in s.children
    ensures v.Dict? && k in v.entries && Fits(v.entries[k], s.children[k], cfg, strict)
  {
  }

  /** Acceptance of every leaf implies the looser fit. */
  lemma {:induction false} StrictFitsLoose(v: Value, s: Schema, cfg: Config)
    requires Fits(v, s, cfg, true)
    ensures Fits(v, s, cfg, false)
    decreases s
  {
    if s.Subtree? {
      forall k | k in s.children ensures Fits(v.entries[k], s.children[k], cfg, false) {
        StrictFitsLoose(v.entries[k], s.children[k], cfg);
      }
    }
  }

  lemma {:induction false} FitsSound(v: Value, s: Schema, cfg: Config, strict: bool)
    requires Fits(v, s, cfg, strict)
    ensures Sound(v, s, cfg)
    decreases s
  {
    if s.Subtree? {
      forall k | k in s.children ensures Sound(v.entries[k], s.children[k], cfg) {
        FitsSound(v.entries[k], s.children[k], cfg, strict);
      }
    }
  }

  /**
   * A load keeps every leaf fit when the defaults are: each leaf of the
   * result is either an input value its accessor accepted or a default.
   */
  lemma {:induction false} LoadFits(loaded: map<string, Value>, node: Schema, defaults: Value, cfg: Config, strict: bool)
    requires node.Subtree? && Fits(defaults, node, cfg, strict)
    requires LoadDict(loaded, node, defaults, cfg).Ok?
    ensures Fits(Dict(LoadDict(loaded, node, defaults, cfg).value), node, cfg, strict)
    decreases node
  {
    var r := LoadDict(loaded, node, defaults, cfg).value;
    forall k | k in node.children ensures Fits(r[k], node.children[k], cfg, strict) {
      LoadDictAt(loaded, node, defaults, cfg, k);
      match node.children[k]
      case Leaf(_) =>
      case Malformed =>
      case Subtree(_) =>
        if k in loaded && loaded[k].Dict? {
          LoadFits(loaded[k].entries, node.children[k], defaults.entries[k], cfg, strict);
        }
    }
  }

  /**
   * Whether loading `v` against `s` meets an exception: an accessor that
   * raises on its input value, or a validators node that is neither an
   * accessor nor a dict, reached through dicts present in the input.
   */
  predicate RaisesAt(v: Value, s: Schema, cfg: Config)
    decreases s
  {
    match s
    case Leaf(c) => Validate(c, v, cfg) == Raise
    case Malformed => true
    case Subtree(ch) => v.Dict? && exists k :: k in ch && k in v.entries && RaisesAt(v.entries[k], ch[k], cfg)
  }

  /** With sound defaults, a load raises exactly when the input reaches an exception. */
  lemma {:induction false} LoadRaisesIff(loaded: map<string, Value>, node: Schema, defaults: Value, cfg: Config)
    requires node.Subtree? && Sound(defaults, node, cfg)
    ensures LoadDict(loaded, node, defaults, cfg).Raised? <==> RaisesAt(Dict(loaded), node, cfg)
    decreases node
  {
    if RaisesAt(Dict(loaded), node, cfg) {
      var k :| k in node.children && k in loaded && RaisesAt(loaded[k], node.children[k], cfg);
      if node.children[k].Subtree? {
        LoadRaisesIff(loaded[k].entries, node.children[k], defaults.entries[k], cfg);
      }
      LoadDictEntries(loaded, node, defaults, cfg, k);
    } else if LoadDict(loaded, node, defaults, cfg).Raised? {
      var entries := map k | k in node.children :: LoadEntry(loaded, node, k, defaults, cfg);
      var k :| k in entries && entries[k].Raised?;
      assert LoadEntry(loaded, node, k, defaults, cfg).Raised?;
      assert k in loaded;
      match node.children[k]
      case Leaf(_) =>
      case Malformed =>
      case Subtree(_) =>
        assert loaded[k].Dict?;
        LoadRaisesIff(loaded[k].entries, node.children[k], defaults.entries[k], cfg);
    }
  }

  /** A validators tree made of accessors that never raise. */
  predicate Plain(s: Schema)
    decreases s
  {
    match s
    case Leaf(c) => c != ImagesCheck
    case Malformed => false
    case Subtree(ch) => forall k :: k in ch ==> Plain(ch[k])
  }

  lemma {:induction false} PlainNeverRaises(v: Value, s: Schema, cfg: Config)
    requires Plain(s)
    ensures !RaisesAt(v, s, cfg)
    decreases s
  {
    if s.Subtree? && v.Dict? {
      forall k | k in s.children && k in v.entries ensures !RaisesAt(v.entries[k], s.children[k], cfg) {
        PlainNeverRaises(v.entries[k], s.children[k], cfg);
      }
    }
  }

  /**
   * A tree every accessor accepts, with the keys of the validators tree,
   * loads to itself whatever the (conforming) defaults.
   */
  lemma {:induction false} LoadAcceptedFixed(loaded: map<string, Value>, node: Schema, defaults: Value, cfg: Config)
    requires node.Subtree? && Conforms(defaults, node) && Fits(Dict(loaded), node, cfg, true)
    ensures LoadDict(loaded, node, defaults, cfg) == Ok(loaded)
    decreases node
  {
    forall k | k in node.children ensures LoadEntry(loaded, node, k, defaults, cfg) == Ok(loaded[k]) {
      match node.children[k]
      case Leaf(_) =>
      case Malformed =>
      case Subtree(_) =>
        LoadAcceptedFixed(loaded[k].entries, node.children[k], defaults.entries[k], cfg);
        assert Dict(loaded[k].entries) == loaded[k];
    }
    LoadDictFromEntries(loaded, node, defaults, cfg, loaded);
  }
}
