# TileCutter project model

TileCutter cuts building images for the Simutrans game. It keeps all of an
object's settings in a *project*. The model covers what `project.py` calls
`Project`:

- **The property tree**: dimensions, season flags, front image, transparency,
  file locations and the free-form dat text.
- **The image array**: 4 directions x 5 seasons x 1 frame x 2 layers, each
  slot holding a path and an `[x, y]` offset.
- **The validating accessors**: each one answers whether a value is
  acceptable (`validate=True`) or stores it and notifies the application.
- **The recursive loader**: it rebuilds a project from a saved tree against
  the validators and defaults trees, after migrating the legacy `winter` flag.
- **Hash-based change tracking**, and the choice of a free file name for a
  new project.

## Modules

- `Values`: the dynamic values a project file is made of (Python int, bool,
  str, list and dict). A bool counts as an int, as in Python. It also defines
  `Verdict`: what a validating accessor answers (True, False or an exception).
- `Slots`: the flat 40-slot image array and its index bijection, and the
  offset checks shared by `x_offset`, `y_offset` and `offset`.
- `ImageArray` and `ImageArrayFacts`:
  - the bulk validation of `image_array`, written as the four nested
    traversal steps;
  - a reference description of its result that does not use the traversal;
  - when it accepts, refuses or raises.
- `ImageArrayAsWritten` and `LoadAsWritten`: the code as it is written, where
  it departs from what it evidently intends (see Findings).
- `Validators`: what each accessor answers with `validate=True`.
- `Loader`: `load_dict` over an arbitrary validators tree, and its
  properties:
  - the loaded tree has the validators tree's keys;
  - the defaults load to themselves;
  - loading is idempotent;
  - it raises exactly when an accessor raises;
  - an accepted tree loads to itself.
- `ProjectTree`: the project's validators and defaults trees, the typed
  `Snapshot` of a project, how a snapshot is written out as a property tree,
  and the `winter` migration.
- `ProjectLoad`: opening a saved tree (`LoadProject`):
  - saving then reopening gives the same project back;
  - what the image array and the season flags of an opened project are;
  - when opening raises.
- `ProjectModel`: the `Project` class with its accessors as methods that
  update fields in place. The image array is an `array`. The bulk set and
  `set_all_images` are nested loops proved against the specification
  functions above.
- `SavePath`: `test_path`, with file existence as a parameter.

Python's `set=None` getter path of each accessor is the field itself, read
directly.

## Model

| member | source | states |
|---|---|---|
| Slots.IdxBijective | project.py:177-196 | every `[d][s][f][l]` of the 4x5x1x2 array has exactly one flat position, and every position names exactly one slot |
| Slots.IdxInjective | project.py:177-196 | two slots share a flat position only if they are the same slot |
| Slots.InitImages | project.py:177-196 | the fresh array has 40 slots |
| Slots.InitImagesAt | project.py:177-196 | every slot of the fresh array has path "" and offset [0, 0] |
| Slots.OffsetAcceptedIff | project.py:518-533 | `offset` accepts exactly a list whose first two elements are numbers `>= 0` |
| Slots.CommittedOffset | project.py:518-533 | an accepted offset is stored as a non-negative pair equal to `value[0]`, `value[1]` |
| Slots.CommittedOffsetRoundTrip | project.py:518-533 | an offset the setter stored is accepted back and read back unchanged |
| ImageArray.LayerStep | project.py:215-233 | one layer keeps the array's 40 slots and its non-negative offsets |
| ImageArray.Normalize | project.py:198-245 | an accepted array has 40 slots and no negative offset |
| ImageArray.Dirs | project.py:206-242 | each direction step preserves the slot count and non-negative offsets |
| ImageArray.Seasons | project.py:209-239 | each season step preserves the slot count and non-negative offsets |
| ImageArray.Frames | project.py:212-236 | each frame step preserves the slot count and non-negative offsets |
| ImageArray.Layers | project.py:215-233 | each layer step preserves the slot count and non-negative offsets |
| ImageArrayFacts.LayerStepEffect | project.py:215-233 | a layer in frame 0 writes exactly its own slot with its valid path and offset; a layer in a later frame writes nothing |
| ImageArrayFacts.DirsFilled | project.py:206-242 | an accepted traversal from direction `d` has shaped input and fills the remaining slots from the reference |
| ImageArrayFacts.SeasonsFilled | project.py:209-239 | as above, from season `s` |
| ImageArrayFacts.FramesFilled | project.py:212-236 | as above, from frame `f` |
| ImageArrayFacts.LayersFilled | project.py:215-233 | as above, from layer `l` |
| ImageArrayFacts.NormalizeFilled | project.py:198-256 | an accepted array had the 4x5x(>=1)x2 shape, and every committed slot holds its own layer's str path and accepted offset, or "" and [0, 0] |
| ImageArrayFacts.DirsShaped | project.py:206-242 | a shaped input is never refused from direction `d` on, and is accepted when no layer can raise |
| ImageArrayFacts.SeasonsShaped | project.py:209-239 | as above, from season `s` |
| ImageArrayFacts.FramesShaped | project.py:212-236 | as above, from frame `f` |
| ImageArrayFacts.LayersShaped | project.py:215-233 | as above, from layer `l` |
| ImageArrayFacts.DirsUnsafe | project.py:206-242 | a traversal that starts at or before a layer that raises, from direction `d`, never finishes |
| ImageArrayFacts.SeasonsUnsafe | project.py:209-239 | as above, from season `s` |
| ImageArrayFacts.FramesUnsafe | project.py:212-236 | as above, from frame `f` |
| ImageArrayFacts.LayersUnsafe | project.py:215-233 | as above, from layer `l` |
| ImageArrayFacts.NormalizeShaped | project.py:202-245 | the bulk set accepts exactly the well-shaped arrays none of whose layers can raise, and it refuses only arrays that are not well-shaped |
| ImageArrayAsWritten.CommitOffsetAsWritten | project.py:225-227 | line 227 as written: it raises KeyError exactly when the layer has no path, and a str path stored as the offset makes any later `offset` check of that slot raise |
| ImageArrayAsWritten.RefusalAsWritten | project.py:234-244 | lines 234-244 as written: a shape error is never accepted, and it is refused (returns False) only below the top level and only for a sized element; `ShapeRefusalRaises` gives the raising inputs |
| ImageArrayAsWritten.OffsetStoredAsPath | project.py:225-227 | as written, a valid offset is replaced by the layer's path, or raises KeyError without one; the corrected step stores the offset |
| ImageArrayAsWritten.ShapeRefusalRaises | project.py:234-244 | as written, `image_array(5)` and a numeric direction raise where the corrected traversal refuses |
| Validators.Validate | project.py:90-120 | the accept set of each accessor, written as values: a flag accepts exactly `0`, `1`, `False` and `True`; an allow-list check accepts an int in the list, or a bool whose 0/1 is in it; `frames` accepts exactly `1` and `True`; the text checks refuse exactly ints, bools, lists and dicts; `image_array` accepts exactly the well-shaped arrays with no raising layer and refuses only badly shaped ones; only `image_array` can raise |
| Loader.LoadDict | project.py:139-175 | a successful load has exactly the validators tree's keys at its level |
| Loader.LoadDictEntries | project.py:145-172 | a successful load holds each entry's value, and any entry that raises makes the load raise |
| Loader.LoadDictFromEntries | project.py:143-175 | entries that all succeed make the load succeed with exactly those values |
| Loader.LoadEntry | project.py:145-172 | one key of `load_dict`: a malformed validators node raises, and a successful entry is the default, the input itself, or a dict loaded from a dict input; `Loader.LoadDictAt` states which one |
| Loader.LoadDictAt | project.py:145-172 | per key: a missing key takes the default; an accepted leaf keeps the input and a rejected one the default; a non-dict input for a subtree takes the default subtree; a dict input recurses; a malformed validators node raises |
| Loader.LoadDictLeaf | project.py:148-155 | an accessor leaf keeps an accepted input and otherwise takes the default |
| Loader.LoadDictSubtree | project.py:157-160 | a dict input under a subtree is loaded recursively against the default subtree |
| Loader.SoundConforms | project.py:139-175 | a sound defaults tree has the validators tree's keys at every level |
| Loader.LoadConforms | project.py:139-175 | with conforming defaults, a loaded tree has exactly the validators tree's keys at every level |
| Loader.LoadDefaultsFixed | project.py:139-175 | loading the defaults tree against itself gives it back |
| Loader.LoadIdempotent | project.py:139-175 | loading a loaded tree again gives the same tree |
| Loader.FitsChild | project.py:145-172 | an entry of a fitting tree fits its validators node |
| Loader.StrictFitsLoose | project.py:148-155 | a tree every accessor accepts also fits in the loose sense |
| Loader.FitsSound | project.py:139-175 | a fitting defaults tree is sound |
| Loader.LoadFits | project.py:148-155 | with fitting defaults, every leaf of a loaded tree is an accepted input or a default |
| Loader.LoadRaisesIff | project.py:145-168 | with sound defaults, a load raises exactly when an accessor raises on a reached input or a malformed validators node is reached |
| Loader.PlainNeverRaises | project.py:148-168 | a validators tree of non-raising accessors never raises |
| Loader.LoadAcceptedFixed | project.py:139-175 | a tree that every accessor accepts, with the validators tree's keys, loads to itself |
| ProjectTree.EncodeImagesAt | project.py:177-196 | the written-out array holds each slot at its own `[d][s][f][l]` |
| ProjectTree.ImagesRoundTrip | project.py:198-256 | an array with non-negative offsets, written out, is accepted by `image_array` and reads back identical |
| ProjectTree.DefaultProps | project.py:59-88 | the default properties are well-formed: one frame and 0/1 flags; `ProjectTree.DefaultsAllowedIff` says when they lie in the allow-lists |
| ProjectTree.ProjectDefaults | project.py:59-88 | the defaults tree has exactly the keys `images`, `transparency`, `dims`, `files` and `dat`; `ProjectTree.ProjectDefaultsFit` and `ProjectLoad.LoadDefaultsProject` say it fits the validators and opens to the default project |
| ProjectTree.ProjectSchema | project.py:90-120 | the validators tree is a dict of accessors and subtrees |
| ProjectTree.DefaultsAllowedIff | project.py:59-88 | the defaults' dimensions lie in the allow-lists exactly when 1, 1, 1 and the default paksize are allowed |
| ProjectTree.SeasonsFit | project.py:708-729 | the season flags 0/1 are accepted by `seasons` |
| ProjectTree.DimsLeafFits | project.py:622-784 | each dims leaf of a well-formed snapshot fits its accessor, strictly when its value is allowed |
| ProjectTree.DimsKeys | project.py:90-120 | written-out dims have exactly the keys of the dims validators |
| ProjectTree.DimsFitIf | project.py:622-784 | well-formed dims fit the dims validators, and fit strictly when allowed |
| ProjectTree.DimsFitOnlyIf | project.py:622-784 | dims that fit strictly lie in the allow-lists |
| ProjectTree.DimsChoiceFits | project.py:622-784 | each allow-list leaf of strictly fitting dims holds an allowed value |
| ProjectTree.FilesFit | project.py:786-858 | the files subtree of any snapshot is accepted by its accessors |
| ProjectTree.TreeEntryFits | project.py:59-120 | each top-level entry of a written-out snapshot fits its node |
| ProjectTree.TreeFits | project.py:59-120 | a written-out well-formed snapshot fits the validators tree, and fits strictly exactly when its dimensions are allowed |
| ProjectTree.ProjectDefaultsFit | project.py:59-120 | the defaults tree fits the validators tree whatever the allow-lists |
| ProjectTree.MigrateWinter | project.py:126-128 | a tree whose `dims` is a dict always migrates; a successful migration keeps the top-level keys and every entry but `dims`, and leaves no `winter` under a dict `dims`; a missing `dims` raises KeyError |
| ProjectTree.MigrateWinterIdempotent | project.py:126-128 | migrating a migrated tree changes nothing |
| ProjectTree.LegacyWinterMigrated | project.py:126-128 | a legacy `dims.winter` is removed and becomes `seasons == {"snow": winter}`, replacing any seasons dict; all else is kept |
| ProjectTree.CurrentTreeNotMigrated | project.py:126-128 | a tree with no `dims.winter` passes through unchanged |
| ProjectTree.SeasonsFitShaped | project.py:708-729 | a fitting seasons subtree holds four flags |
| ProjectTree.DimsFitNumbers | project.py:622-784 | a fitting dims subtree holds numbers for x, y, z, paksize and directions |
| ProjectTree.DimsFitFlags | project.py:708-768 | a fitting dims subtree holds flags for the seasons and the front image, and a frames value equal to 1 |
| ProjectTree.DimsFitShaped | project.py:622-784 | a fitting dims subtree can be read as typed dimensions |
| ProjectTree.FilesFitShaped | project.py:786-858 | a fitting files subtree holds three strs and a flag |
| ProjectTree.FitsTreeLeaves | project.py:90-120 | a fitting tree holds an accepted image array, a transparency flag and a str dat text |
| ProjectTree.FitsTreeShaped | project.py:59-120 | a tree that fits the validators tree can be read as a typed snapshot |
| ProjectLoad.Bit | project.py:708-752 | a flag is held as 0 or 1, equal to its value under `==` |
| ProjectLoad.Extract | project.py:121-131 | the typed view of a loaded tree has one frame and 0/1 flags; its leaves are normalised to bools and ints (see "Left out") |
| ProjectLoad.ExtractDims | project.py:622-784 | typed dims have one frame and a 0/1 front image |
| ProjectLoad.ExtractDimsEncode | project.py:622-784 | well-formed dims written out read back unchanged |
| ProjectLoad.ExtractFilesEncode | project.py:786-858 | file settings written out read back unchanged |
| ProjectLoad.ExtractEncode | project.py:59-131 | a storable snapshot written out reads back unchanged |
| ProjectLoad.LoadProject | project.py:121-131 | opening raises whenever the migration raises, and an opened project has well-formed properties and a full 40-slot array with no negative offset; `ProjectLoad.LoadProjectSteps` and `ProjectLoad.LoadProjectRaises` give the steps and the exact raising condition |
| ProjectLoad.LoadProjectRoundTrip | project.py:121-131 | reopening what a project stores, with allowed dimensions, yields the same project |
| ProjectLoad.LoadDefaultsProject | project.py:121-131 | opening the defaults tree yields a brand-new project, whatever the allow-lists |
| ProjectLoad.LoadProjectSteps | project.py:121-131 | a successful open is the migration, then `load_dict`, then the typed view |
| ProjectLoad.LoadedImagesEntry | project.py:148-155 | the loaded `images` entry is the saved array if `image_array` accepts it, else the fresh array |
| ProjectLoad.DefaultImages | project.py:59-63 | the defaults tree holds a fresh image array |
| ProjectLoad.LoadProjectImages | project.py:121-131 | an opened project's array has 40 slots and no negative offset: the reference array built from the saved one if accepted, else a fresh one |
| ProjectLoad.DimsFitsChoices | project.py:622-784 | strictly fitting dims hold numbers in the allow-lists |
| ProjectLoad.DimsFitsAllowed | project.py:622-784 | strictly fitting dims read as allowed typed dims |
| ProjectLoad.LoadProjectAllowed | project.py:121-131 | an opened project is well-formed, and has allowed dimensions when the defaults are allowed |
| ProjectLoad.PlainSubtrees | project.py:90-120 | the dims, files and dat subtrees are made of accessors that never raise |
| ProjectLoad.EntryNeverRaises | project.py:90-120 | no top-level entry other than `images` can raise |
| ProjectLoad.ProjectRaisesAt | project.py:90-120 | a project tree reaches an exception exactly when its `images` makes `image_array` raise |
| ProjectLoad.LoadProjectRaises | project.py:121-131 | opening raises exactly when the migration raises or the saved array makes `image_array` raise |
| ProjectLoad.LegacySeasonsLoad | project.py:126-131 | `{"snow": w}` loads to `w` if it is a flag, else 0, with the other three flags at their default 0 |
| ProjectLoad.LegacySeasonsEntry | project.py:126-131 | the seasons entry a legacy tree loads to |
| ProjectLoad.ExtractSeasons | project.py:708-729 | the typed season flags are the 0/1 values of `dims.seasons` |
| ProjectLoad.LegacyWinterLoads | project.py:126-131 | a legacy `winter` value opens as the snow flag if it is 0/1, else 0; the other season flags are 0 |
| LoadAsWritten.NegativeOffsetLayers | project.py:198-256 | every layer of the exhibit array sits in frame 0 and is either the negative-offset layer or empty |
| LoadAsWritten.NegativeOffsetAccepted | project.py:198-256 | `image_array` accepts an array whose layer has offset [-3, 0] and builds a fresh array from it |
| LoadAsWritten.NegativeOffsetSurvivesLoad | project.py:148-152 | as written, the loaded tree keeps offset [-3, 0]; the corrected open yields a fresh array |
| ProjectModel.PyIndex | project.py:352-368 | Python list indexing: exactly the indices in `-n .. n-1` reach a position, and that position is `i mod n`; the others raise IndexError |
| ProjectModel.SlotAt | project.py:352-368 | `images[d][s][f][l]` reaches a slot exactly when each index is in range; non-negative coordinates reach their own flat position |
| ProjectModel.EncodeTreeInjective | project.py:313-315 | two storable projects have the same property tree exactly when they are equal |
| ProjectModel.FillLayer | project.py:215-233 | one layer written into the fresh array has the effect and answer of the layer step |
| ProjectModel.BuildImageArray | project.py:198-245 | the nested loops answer as the bulk validation does, and an accepted array is exactly the one it builds |
| ProjectModel.Project.FromSnapshot | project.py:34-131 | a new project holds the given state, the first image active, and its hash taken |
| ProjectModel.Project.Open | project.py:34-131 | without a tree, the defaults and a fresh array; with one, it raises exactly when `LoadProject` does and otherwise holds its result; it starts out unchanged |
| ProjectModel.Project.UpdateHash | project.py:317-320 | the hash is taken of the current state, which becomes the saved state; nothing else changes |
| ProjectModel.Project.HasChanged | project.py:302-311 | a differing hash means the state differs from the saved one; the converse holds for an injective fingerprint |
| ProjectModel.Project.SetX | project.py:622-636 | accepts exactly what the validators tree accepts for `x`; a committed value is stored as its int; the allowed-dims invariant is kept; a rejection or `validate` changes nothing |
| ProjectModel.Project.SetY | project.py:638-652 | as `SetX`, for `y` |
| ProjectModel.Project.SetZ | project.py:654-668 | as `SetX`, for `z` against the dims_z allow-list |
| ProjectModel.Project.SetPaksize | project.py:692-706 | as `SetX`, for `paksize` against the paksize allow-list |
| ProjectModel.Project.SetDirections | project.py:770-784 | as `SetX`, for `directions` against the views allow-list |
| ProjectModel.Project.SetFrames | project.py:754-768 | only 1 is accepted, so the stored properties never change |
| ProjectModel.Project.SetTransparency | project.py:670-690 | `[True, 1]` stores True and `[False, 0]` stores False; anything else is refused |
| ProjectModel.Project.SetSeason | project.py:708-729 | the named season flag becomes 1 or 0; anything else is refused |
| ProjectModel.Project.SetFrontimage | project.py:731-752 | the front-image flag becomes 1 or 0; anything else is refused |
| ProjectModel.Project.SetDatfileWrite | project.py:805-826 | `[True, 1]` stores True and `[False, 0]` stores False |
| ProjectModel.Project.SetDatfileLocation | project.py:789-803 | any str is stored, anything else refused |
| ProjectModel.Project.SetPngfileLocation | project.py:828-842 | any str is stored, anything else refused |
| ProjectModel.Project.SetPakfileLocation | project.py:844-858 | any str is stored, anything else refused |
| ProjectModel.Project.SetDatLump | project.py:325-338 | any str is stored, anything else refused |
| ProjectModel.Project.SelectDirection | project.py:538-552 | accepts exactly 0..3 and makes it the active direction; never raises |
| ProjectModel.Project.SelectSeason | project.py:554-568 | accepts exactly `range(5)` and makes it the active season |
| ProjectModel.Project.SelectFrame | project.py:570-584 | accepts exactly `range(frames)` and makes it the active frame |
| ProjectModel.Project.SelectLayer | project.py:586-600 | accepts exactly 0 and 1 and makes it the active layer |
| ProjectModel.Project.SetImagePath | project.py:352-368 | a str is accepted; committed, exactly the addressed slot's path changes, and out-of-range coordinates raise without a change |
| ProjectModel.Project.SetXOffset | project.py:468-482 | numbers `>= 0` are accepted and non-numbers raise; committed, only the addressed slot's x offset changes |
| ProjectModel.Project.SetYOffset | project.py:493-507 | as `SetXOffset`, for the y offset |
| ProjectModel.Project.SetOffset | project.py:518-533 | accepts as `offset` validates; committed, only the addressed slot's offset becomes the pair |
| ProjectModel.Project.SetActiveImagePath | project.py:343-350 | `image_path` at the active image, which never raises |
| ProjectModel.Project.SetActiveXOffset | project.py:459-466 | `x_offset` at the active image, which raises only for a non-number |
| ProjectModel.Project.SetActiveYOffset | project.py:484-491 | `y_offset` at the active image |
| ProjectModel.Project.SetActiveOffset | project.py:509-516 | `offset` at the active image, which raises only for a malformed pair |
| ProjectModel.Project.SetImageArray | project.py:198-256 | answers as the bulk validation; an accepted, committed array replaces the project's array with the reference array; otherwise nothing changes |
| ProjectModel.Project.SetAllImages | project.py:394-402 | every slot's path becomes `path`, offsets and everything else are kept |
| SavePath.Join | project.py:279-288 | `os.path.join` is the directory and the name, with a `/` between them exactly when the directory is non-empty and does not already end in `/` |
| SavePath.Decimal | project.py:284-285 | `"%s" % n` is a non-empty string of decimal digits |
| SavePath.DecimalRoundTrip | project.py:284-285 | the digits read back as the number |
| SavePath.NumberedNamesDistinct | project.py:284-285 | `new_projectN.tcp` names differ for different N and from `new_project.tcp` |
| SavePath.TestPath | project.py:279-288 | the result does not exist; it is `new_project.tcp` when that is free, else the least N >= 1 whose `new_projectN.tcp` is free |

## Left out

- Image loading and caches: `reload_image`, `reload_all_images`, `get_image`,
  `get_bitmap` and the `internals["images"]` cache hold wx image data. They
  are not modelled.
- Cutting: `cut_images` and `get_cut_image` call an external cutting function
  on bitmaps. They are not modelled.
- The save location: `init_save_location`, `save_location` and `saved`
  depend on the platform, the environment and the parent application. They
  are not modelled, and neither are the `parent` argument and the
  constructor's `save_location`.
- `active_image` (lines 602-620): it dispatches to the four selection setters
  modelled above and is not modelled on its own.
- `on_change`: notifying the application is a ghost counter, `changes`.
- `hash(repr(props))`: the hash is a function parameter, `fingerprint`.
  `ProjectModel.Project.HasChanged` proves "changed exactly when the state
  differs from the saved one" only when that function is injective. A real
  hash can collide.
- A setter that stores the value already held leaves `has_changed` false,
  because `has_changed` compares hashes.
- None and floats are not modelled. None turns every accessor into a getter.
- Python 2's ordering of a str against an int is not modelled. Comparing them
  raises TypeError here, as in Python 3.
- ProjectLoad.Extract: the opened project is a typed view of the loaded
  tree, so its leaves are normalised. project.py:152 keeps an accepted leaf
  exactly as loaded: `transparency: 1`, `datfile_write: 0`, `x: True` or
  `seasons.snow: True` stay as they are. The model holds transparency and
  datfile_write as bools and the dimensions and the other flags as ints.
- ProjectModel.Project.HasChanged: because of that normalisation, a setter
  whose stored form differs from the loaded one changes Python's
  `repr(props)` but not the model's state. After opening a file holding
  `transparency: 1`, Python's `transparency(True)` stores `True` and
  `has_changed()` becomes True. In the model,
  `ProjectModel.Project.SetTransparency` leaves the state equal and
  `HasChanged` answers false.
- ProjectModel.Project.SetXOffset, ProjectModel.Project.SetYOffset and
  ProjectModel.Project.SetOffset store the int the accepted value equals.
  `x_offset`, `y_offset` and `offset` store the raw value, so `True` stays
  `True`.
- ImageArray.LayerStep: an accepted saved offset is stored as
  `[int(offset[0]), int(offset[1])]`. A literal `= layer["offset"]` would
  keep `[1, 2, 3]` or `[True, 0]` as given. The model's slot holds two ints,
  so it cannot represent that raw list.
- Aliasing: `self.props = self.defaults` for a new project, and `load_dict`
  keeps references into the loaded dict. The legacy migration
  `load["dims"].pop("winter")` (line 128) also rewrites the caller's dict in
  place, even when `load_dict` raises afterwards. The model holds values,
  so later mutations cannot reach the defaults or the caller's dict.
- ProjectModel.Project.SetSeason: the `season` key is one of the four season
  names. Python writes any other key into the seasons dict as a new entry,
  and the model does not represent that entry.
- ProjectModel.Project.SetAllImages: the path is a str. Python stores any
  value unchecked.
- Frames: the image array holds one frame. A saved array with more frames is
  accepted only when the extra frames carry no str path and no accepted
  offset; otherwise indexing the fresh array raises IndexError. This is the
  code as written, and the model keeps it.
- The legacy migration: a saved `dims.winter: 3` yields a snow flag of 0.
  The migrated `{"snow": 3}` goes through the `seasons` accessor, which
  accepts only 0 and 1. The migration also replaces the whole seasons dict
  (`ProjectLoad.LegacyWinterLoads`).
- SavePath.TestPath: it requires that some numbered name be free. Python
  loops forever otherwise. Only POSIX `os.path.join` is modelled, not
  Windows drive and separator rules.
- Key order of dicts, logging, and the `__getitem__` shortcut are not
  modelled.
- `tcui/menuObject.py` and `logger.py` are not part of this model.

## Findings

| source | as written | input that shows it | evidently intended | confidence | as-written member | corrected member |
|---|---|---|---|---|---|---|
| project.py:225-227 | once `offset(..., validate=True)` accepts, the slot's offset is assigned `layer["path"]` | a layer `{"path": "a.png", "offset": [3, 4]}` gets offset "a.png"; `{"offset": [3, 4]}` raises KeyError | store the accepted offset, `[int(value[0]), int(value[1])]` for `value = layer["offset"]` | high (not executed) | ImageArrayAsWritten.OffsetStoredAsPath | ImageArrayFacts.NormalizeFilled |
| project.py:234-244 | the refusal warnings are formatted before `return False`: the top-level one has two `%s` for one argument, and the inner ones take `len()` of a number | `image_array(5)`; an array whose first direction is `7` | return False (refuse the array) | high (not executed) | ImageArrayAsWritten.ShapeRefusalRaises | ImageArrayFacts.NormalizeShaped |
| project.py:148-152 | `load_dict` stores the loaded `images` value itself once `image_array` accepts it, not the array `image_array` built | a saved array whose layer has offset [-3, 0]: accepted, and kept with the negative offset | the project's array is the one the bulk set builds, with [0, 0] for the invalid offset | medium (not executed) | LoadAsWritten.NegativeOffsetSurvivesLoad | ProjectLoad.LoadProjectImages |
