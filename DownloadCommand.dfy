/** The `download` command of the models helper: the guard against combining
    explicit models with `--all`, the resolution of the selection, the nine
    `with_<model>` flags and the other arguments handed to the downloader, and
    the shape of the report printed afterwards. */
module DownloadCommand {
  import opened Wrappers
  import opened AvailableModels

  /** A file-system path, kept as its text. */
  type Path = string

  /** The usage error raised by the command. */
  datatype CliError = BadParameter(message: string)

  const ConflictMessage: string :=
    "Cannot simultaneously set 'all' parameter and specify models to download."

  /** The nine `with_<model>` booleans passed to the downloader. */
  datatype DownloadFlags = DownloadFlags(
    withLayout: bool,
    withTableformer: bool,
    withCodeFormula: bool,
    withPictureClassifier: bool,
    withSmolVlm: bool,
    withSmolDocling: bool,
    withSmolDoclingMlx: bool,
    withGraniteVision: bool,
    withEasyOcr: bool)
  {
    /** The flag that belongs to model `m`. */
    predicate Has(m: Model)
    {
      match m
      case Layout => withLayout
      case Tableformer => withTableformer
      case CodeFormula => withCodeFormula
      case PictureClassifier => withPictureClassifier
      case SmolVlm => withSmolVlm
      case SmolDocling => withSmolDocling
      case SmolDoclingMlx => withSmolDoclingMlx
      case GraniteVision => withGraniteVision
      case EasyOcr => withEasyOcr
    }
  }

  /** The arguments of the one call into the downloader. */
  datatype DownloadCall = DownloadCall(
    outputDir: Path,
    force: bool,
    progress: bool,
    flags: DownloadFlags)

  /** What the command prints once the downloader returns: in quiet mode only
      the directory, otherwise a success message and usage hint naming it. */
  datatype Report = PathOnly(dir: Path) | Summary(dir: Path)

  /** A successful invocation: whether the console logging setup was called, the
      downloader call made, and the report printed. */
  datatype Run = Run(loggingSetupCalled: bool, call: DownloadCall, report: Report)

  /** Python truthiness of the `models` argument: `None` and `[]` are both
      false. */
  predicate HasExplicitModels(models: Option<seq<Model>>)
  {
    models.Some? && |models.value| > 0
  }

  /** The guard `if models and all: raise BadParameter(...)`. */
  function Validate(models: Option<seq<Model>>, all: bool): (r: Result<(), CliError>)
    ensures r.Failure? <==> HasExplicitModels(models) && all
    ensures r.Failure? ==> r.error.message == ConflictMessage
  {
    if HasExplicitModels(models) && all then Failure(BadParameter(ConflictMessage))
    else Success(())
  }

  /** `models or (list(_AvailableModels) if all else _default_models)`. */
  function Resolve(models: Option<seq<Model>>, all: bool): (sel: seq<Model>)
    ensures |sel| > 0
    ensures forall m :: m in sel ==>
      (HasExplicitModels(models) && m in models.value) || all || !IsVisionLanguage(m)
  {
    if HasExplicitModels(models) then models.value
    else if all then AllModels
    else DefaultModels
  }

  /** `progress=(not quiet)`. */
  function Progress(quiet: bool): (p: bool)
    ensures p != quiet
  {
    !quiet
  }

  /** The nine membership tests `_AvailableModels.X in to_download`. */
  function FlagsOf(sel: seq<Model>): (f: DownloadFlags)
    ensures forall m :: f.Has(m) <==> m in sel
  {
    DownloadFlags(
      Layout in sel,
      Tableformer in sel,
      CodeFormula in sel,
      PictureClassifier in sel,
      SmolVlm in sel,
      SmolDocling in sel,
      SmolDoclingMlx in sel,
      GraniteVision in sel,
      EasyOcr in sel)
  }

  /** Validation followed by the downloader's arguments: either the usage
      error, in which case no call is made, or the call itself. */
  function Plan(outputDir: Path, force: bool, models: Option<seq<Model>>, all: bool, quiet: bool)
    : (r: Result<DownloadCall, CliError>)
    ensures r.Failure? <==> HasExplicitModels(models) && all
    ensures r.Failure? ==> r.error == BadParameter(ConflictMessage)
    ensures r.Success? ==>
      && r.value.outputDir == outputDir
      && r.value.force == force
      && r.value.progress == !quiet
      && (forall m :: r.value.flags.Has(m) <==> m in Resolve(models, all))
  {
    match Validate(models, all)
    case Failure(e) => Failure(e)
    case Success(_) =>
      Success(DownloadCall(outputDir, force, Progress(quiet), FlagsOf(Resolve(models, all))))
  }

  /** The whole command, with the downloader `fetch` as a parameter that maps
      its arguments to the directory it returns. */
  function Download(outputDir: Path, force: bool, models: Option<seq<Model>>, all: bool,
                    quiet: bool, fetch: DownloadCall -> Path)
    : (r: Result<Run, CliError>)
    ensures r.Failure? <==> HasExplicitModels(models) && all
    ensures r.Failure? ==> r.error == BadParameter(ConflictMessage)
    ensures r.Success? ==>
      && Plan(outputDir, force, models, all, quiet) == Success(r.value.call)
      && r.value.loggingSetupCalled == !quiet
      && r.value.report.dir == fetch(r.value.call)
      && (r.value.report.PathOnly? <==> quiet)
  {
    match Plan(outputDir, force, models, all, quiet)
    case Failure(e) => Failure(e)
    case Success(call) =>
      var dir := fetch(call);
      Success(Run(!quiet, call, if quiet then PathOnly(dir) else Summary(dir)))
  }

  // ----- Properties of the selection -----

  /** An absent or empty model list together with `--all` is accepted and
      selects the whole catalog in declaration order. */
  lemma EmptyListWithAllSelectsEverything(models: Option<seq<Model>>, outputDir: Path,
                                          force: bool, quiet: bool)
    requires models == None || models == Some([])
    ensures Plan(outputDir, force, models, true, quiet).Success?
    ensures Resolve(models, true) == AllModels
    ensures forall m :: Plan(outputDir, force, models, true, quiet).value.flags.Has(m)
  {
  }

  /** Without models and without `--all`, the selection is the default subset
      and only the vision-language flags are off. */
  lemma NoModelsSelectsDefaults(models: Option<seq<Model>>, outputDir: Path,
                                force: bool, quiet: bool)
    requires !HasExplicitModels(models)
    ensures Resolve(models, false) == [Layout, Tableformer, CodeFormula, PictureClassifier, EasyOcr]
    ensures Plan(outputDir, force, models, false, quiet).Success?
    ensures Plan(outputDir, force, models, false, quiet).value.flags
         == DownloadFlags(true, true, true, true, false, false, false, false, true)
  {
  }

  /** A non-empty explicit list without `--all` is the selection, verbatim:
      order and duplicates are kept. */
  lemma ExplicitListUsedVerbatim(sel: seq<Model>, outputDir: Path, force: bool, quiet: bool)
    requires |sel| > 0
    ensures Resolve(Some(sel), false) == sel
    ensures Plan(outputDir, force, Some(sel), false, quiet).Success?
  {
  }

  // ----- Properties of the flags -----

  /** The models whose flag is set, in declaration order; what the downloader
      can tell about the selection from the flags alone. */
  function Enabled(f: DownloadFlags): (r: seq<Model>)
    ensures forall m :: m in r <==> f.Has(m)
    ensures InDeclarationOrder(r)
  {
    Keep(AllModels, f)
  }

  /** Strictly increasing declaration positions: declaration order, no
      duplicates. */
  predicate InDeclarationOrder(ms: seq<Model>)
  {
    forall i, j :: 0 <= i < j < |ms| ==> Ordinal(ms[i]) < Ordinal(ms[j])
  }

  /** The members of `ms` whose flag is set, keeping their order. */
  function Keep(ms: seq<Model>, f: DownloadFlags): (r: seq<Model>)
    ensures |r| <= |ms|
    ensures forall m :: m in r <==> m in ms && f.Has(m)
    ensures InDeclarationOrder(ms) ==> InDeclarationOrder(r)
  {
    if ms == [] then []
    else if f.Has(ms[0]) then
      var rest := Keep(ms[1..], f);
      assert InDeclarationOrder(ms) ==> forall k :: 0 <= k < |rest| ==> Ordinal(ms[0]) < Ordinal(rest[k]) by {
        if InDeclarationOrder(ms) {
          forall k | 0 <= k < |rest| ensures Ordinal(ms[0]) < Ordinal(rest[k]) {
            assert rest[k] in ms[1..];
            var i :| 0 <= i < |ms[1..]| && ms[1..][i] == rest[k];
            assert ms[i + 1] == rest[k];
          }
        }
      }
      [ms[0]] + rest
    else Keep(ms[1..], f)
  }

  /** The flags keep the selection's members and forget only order and
      duplicates: two selections give the same flags exactly when they hold
      the same models. */
  lemma FlagsIgnoreOrderAndDuplicates(s1: seq<Model>, s2: seq<Model>)
    ensures FlagsOf(s1) == FlagsOf(s2) <==> (forall m :: m in s1 <==> m in s2)
  {
  }

  /** The flags and `Enabled` are inverse up to order and duplicates: the flags
      rebuilt from the enabled models are the same flags, and the enabled
      models of a selection's flags are exactly its members. */
  lemma FlagsRoundTrip(f: DownloadFlags, sel: seq<Model>)
    ensures FlagsOf(Enabled(f)) == f
    ensures forall m :: m in Enabled(FlagsOf(sel)) <==> m in sel
  {
  }
}
