/**
 * The validating accessors of a project, called with `validate=True`: they
 * answer whether a value would be accepted and change nothing. The allow-lists
 * come from the application's configuration.
 */
module Validators {
  import opened Values
  import opened ImageArray
  import opened ImageArrayFacts

  /** The configuration the accessors consult: the `choicelist_*` allow-lists and the default paksize. */
  datatype Config = Config(
    dimChoices: set<int>,      // choicelist_dims, for x and y
    dimZChoices: set<int>,     // choicelist_dims_z
    paksizeChoices: set<int>,  // choicelist_paksize
    viewChoices: set<int>,     // choicelist_views, for directions
    defaultPaksize: int)       // int(default_paksize)

  datatype ChoiceList = DimsList | DimsZList | PaksizeList | ViewsList

  function Choices(cfg: Config, c: ChoiceList): set<int> {
    match c
    case DimsList => cfg.dimChoices
    case DimsZList => cfg.dimZChoices
    case PaksizeList => cfg.paksizeChoices
    case ViewsList => cfg.viewChoices
  }

  /** The accessors that appear as leaves of the validators tree. */
  datatype Check =
    | ImagesCheck             // image_array
    | FlagCheck               // transparency, seasons, frontimage, datfile_write: value in [True, 1] or [False, 0]
    | ChoiceCheck(list: ChoiceList)  // x, y, z, paksize, directions: value in the allow-list
    | FramesCheck             // frames: value == 1
    | TextCheck               // dat_lump and the three file locations: type(value) is str

  /**
   * The answer of the accessor for `c` to `accessor(v, validate=True)`. The
   * membership and type tests of the scalar accessors cannot raise; only the
   * bulk image-array check can.
   */
  function Validate(c: Check, v: Value, cfg: Config): (r: Verdict)
    ensures r == Raise ==> c == ImagesCheck
    ensures c.FlagCheck? ==> (r == Accept <==> v in {Int(0), Int(1), Bool(false), Bool(true)})
    ensures c.ChoiceCheck? ==> (r == Accept <==>
      (v.Int? && v.i in Choices(cfg, c.list)) || (v.Bool? && (if v.b then 1 else 0) in Choices(cfg, c.list)))
    ensures c.FramesCheck? ==> (r == Accept <==> v in {Int(1), Bool(true)})
    ensures c.TextCheck? ==> (r == Reject <==> v.Int? || v.Bool? || v.List? || v.Dict?)
    ensures c.ImagesCheck? ==> (r == Accept <==> WellShaped(v) && Tame(v)) && (r == Reject ==> !WellShaped(v))
  {
    match c
    case ImagesCheck => NormalizeShaped(v); ToVerdict(Normalize(v))
    case FlagCheck => if IsFlag(v) then Accept else Reject
    case ChoiceCheck(list) => if InChoices(v, Choices(cfg, list)) then Accept else Reject
    case FramesCheck => if AsInt(v) == Some(1) then Accept else Reject
    case TextCheck => if v.Str? then Accept else Reject
  }
}
