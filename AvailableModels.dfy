/** The closed catalog of downloadable model bundles of the `docling-tools models`
    command (the `_AvailableModels` string enumeration), its declaration order,
    the string value of each member, and the default subset. */
module AvailableModels {
  import opened Wrappers

  /** One member per enumeration entry, in declaration order. */
  datatype Model =
    | Layout
    | Tableformer
    | CodeFormula
    | PictureClassifier
    | SmolVlm
    | SmolDocling
    | SmolDoclingMlx
    | GraniteVision
    | EasyOcr

  /** The enumeration's string value of a member, as the command line spells it. */
  function Name(m: Model): string
  {
    match m
    case Layout => "layout"
    case Tableformer => "tableformer"
    case CodeFormula => "code_formula"
    case PictureClassifier => "picture_classifier"
    case SmolVlm => "smolvlm"
    case SmolDocling => "smoldocling"
    case SmolDoclingMlx => "smoldocling_mlx"
    case GraniteVision => "granite_vision"
    case EasyOcr => "easyocr"
  }

  /** Lookup of a member by its string value (the enumeration's call
      `_AvailableModels(value)`); `None` for a string that names no member. */
  function FromName(s: string): (r: Option<Model>)
    ensures r.Some? ==> Name(r.value) == s
  {
    if s == "layout" then Some(Layout)
    else if s == "tableformer" then Some(Tableformer)
    else if s == "code_formula" then Some(CodeFormula)
    else if s == "picture_classifier" then Some(PictureClassifier)
    else if s == "smolvlm" then Some(SmolVlm)
    else if s == "smoldocling" then Some(SmolDocling)
    else if s == "smoldocling_mlx" then Some(SmolDoclingMlx)
    else if s == "granite_vision" then Some(GraniteVision)
    else if s == "easyocr" then Some(EasyOcr)
    else None
  }

  /** Looking up a member's own value gives the member back, and a string is
      accepted exactly when it is the value of some member. */
  lemma NameRoundTrip(m: Model, s: string)
    ensures FromName(Name(m)) == Some(m)
    ensures FromName(s) == Some(m) <==> Name(m) == s
  {
  }

  /** Position of a member in the enumeration's declaration. */
  function Ordinal(m: Model): (i: nat)
    ensures i < 9
  {
    match m
    case Layout => 0
    case Tableformer => 1
    case CodeFormula => 2
    case PictureClassifier => 3
    case SmolVlm => 4
    case SmolDocling => 5
    case SmolDoclingMlx => 6
    case GraniteVision => 7
    case EasyOcr => 8
  }

  /** `list(_AvailableModels)`: every member, in declaration order. */
  const AllModels: seq<Model> :=
    [Layout, Tableformer, CodeFormula, PictureClassifier, SmolVlm,
     SmolDocling, SmolDoclingMlx, GraniteVision, EasyOcr]

  /** `_default_models`: the subset fetched when neither models nor `--all`
      are given. */
  const DefaultModels: seq<Model> :=
    [Layout, Tableformer, CodeFormula, PictureClassifier, EasyOcr]

  /** The members that the default subset leaves out: the vision-language
      models and the MLX variant. */
  predicate IsVisionLanguage(m: Model)
  {
    m == SmolVlm || m == SmolDocling || m == SmolDoclingMlx || m == GraniteVision
  }

  /** The full list holds every member exactly once, each at its declaration
      position. */
  lemma AllModelsInDeclarationOrder(m: Model)
    ensures |AllModels| == 9
    ensures AllModels[Ordinal(m)] == m
    ensures m in AllModels
    ensures forall i :: 0 <= i < |AllModels| ==> Ordinal(AllModels[i]) == i
    ensures forall i, j :: 0 <= i < j < |AllModels| ==> AllModels[i] != AllModels[j]
  {
  }

  /** The default subset is exactly the members that are not vision-language
      models, without duplicates and in declaration order. */
  lemma DefaultModelsAreNonVisionLanguage(m: Model)
    ensures m in DefaultModels <==> !IsVisionLanguage(m)
    ensures forall i, j :: 0 <= i < j < |DefaultModels| ==>
      Ordinal(DefaultModels[i]) < Ordinal(DefaultModels[j])
  {
  }
}
