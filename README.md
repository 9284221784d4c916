# docling models helper: the `download` command's model selection

This project models, in Dafny, the selection logic of the `download` command of
docling's models helper CLI (`docling/cli/models.py`). The command takes an
output directory, a `--force` flag, an optional list of model identifiers, an
`--all` flag and a `--quiet` flag. It rejects a model list combined with
`--all`, resolves which models to fetch, and makes one call to the downloader.
That call carries the output directory, `force`, `progress = not quiet` and
one `with_<model>` boolean for each of the nine catalog entries. Afterwards
the command prints either the bare directory (quiet) or a summary.

Everything is pure, so the model uses datatypes, functions and lemmas:

- `Wrappers.dfy`: `Option` (Python's `Optional`) and `Result`.
- `AvailableModels.dfy`: the nine-member catalog `Model`, its string values
  (`Name`, `FromName`), its declaration order (`Ordinal`, `AllModels`) and the
  default subset `DefaultModels`.
- `DownloadCommand.dfy`: the guard (`Validate`), the resolution (`Resolve`),
  the flags (`FlagsOf`, `DownloadFlags.Has`) and `Progress`. `Plan` gives
  either the usage error or the downloader's arguments. `Download` is the
  whole command, with the downloader passed in as a function. `Enabled`
  reads the selected models back from the flags.

The guard uses Python truthiness (`if models and all`). An absent list and an
empty list are both "no models" (`HasExplicitModels`). So an empty list with
`--all` is accepted and selects the whole catalog. The `--all` option's help
text (docling/cli/models.py:76) calls it mutually exclusive with passing
specific models. The code only rejects a non-empty list, and the model follows
the code. An explicit list is passed on verbatim (docling/cli/models.py:101),
with its order and duplicates. Only the flags derived from it ignore order and
duplicates (`FlagsIgnoreOrderAndDuplicates`).

## Model

| member | source | states |
|---|---|---|
| `AvailableModels.FromName` | docling/cli/models.py:30-39 | a string maps to a member only when it is that member's enumeration value. `Name` gives the values declared at lines 31-39 |
| `AvailableModels.NameRoundTrip` | docling/cli/models.py:30-39 | looking up a member's value gives that member back, and a string is accepted as `m` exactly when it is `m`'s value |
| `AvailableModels.AllModelsInDeclarationOrder` | docling/cli/models.py:30-39 | `list(_AvailableModels)` has nine entries. Every member occurs in it exactly once, at its declaration position |
| `AvailableModels.DefaultModelsAreNonVisionLanguage` | docling/cli/models.py:42-48 | the default subset holds exactly the members other than smolvlm, smoldocling, smoldocling_mlx and granite_vision, in declaration order |
| `DownloadCommand.Validate` | docling/cli/models.py:90-93 | fails, with the BadParameter message, exactly when a non-empty model list is given together with `--all`. "Non-empty" is `HasExplicitModels`, the truthiness of `models`: `None` and `[]` are both false |
| `DownloadCommand.Resolve` | docling/cli/models.py:101 | the selection is never empty. A vision-language model is in it only when explicitly listed or under `--all` |
| `DownloadCommand.Progress` | docling/cli/models.py:105 | `progress` is the negation of `quiet` |
| `DownloadCommand.FlagsOf` | docling/cli/models.py:106-114 | for every model, its `with_<model>` flag is true exactly when the model occurs in the selection. `DownloadFlags.Has` pairs each member with its own `with_<model>` field |
| `DownloadCommand.Plan` | docling/cli/models.py:90-115 | the result is an error exactly when a non-empty list meets `--all`, and then no downloader call is produced. Otherwise the call passes the output directory and `force` unchanged, `progress = not quiet`, and flags equal to membership in the resolved selection |
| `DownloadCommand.Download` | docling/cli/models.py:90-129 | fails exactly as `Plan` does, before any logging setup or downloader call. On success it makes `Plan`'s call, calls the logging setup exactly when not quiet, and reports the directory the downloader returned: path only when quiet, summary otherwise |
| `DownloadCommand.EmptyListWithAllSelectsEverything` | docling/cli/models.py:90-101 | an absent or empty list with `--all` is accepted. It selects the whole catalog in declaration order, and every flag is set |
| `DownloadCommand.NoModelsSelectsDefaults` | docling/cli/models.py:101-114 | with no models (absent or empty) and no `--all`, the selection is `[layout, tableformer, code_formula, picture_classifier, easyocr]`. The flags of smolvlm, smoldocling, smoldocling_mlx and granite_vision are false and the other five are true |
| `DownloadCommand.ExplicitListUsedVerbatim` | docling/cli/models.py:101 | a non-empty list without `--all` is accepted and is the selection verbatim, keeping order and duplicates |
| `DownloadCommand.FlagsIgnoreOrderAndDuplicates` | docling/cli/models.py:106-114 | two selections give the same flags exactly when they contain the same models |
| `DownloadCommand.Enabled` | docling/cli/models.py:106-114 | the models read back from the flags are exactly those whose flag is set. They come without duplicates and in declaration order |
| `DownloadCommand.FlagsRoundTrip` | docling/cli/models.py:106-114 | flags rebuilt from their enabled models are the same flags. The enabled models of a selection's flags are exactly its members |

## Left out

- `download_models` is not part of this model. It does network and file I/O. `Download` takes it as a function from the call's arguments to the returned directory.
- Typer option declarations, defaults and command wiring are argument parsing by a library that is not modelled. This includes the `settings.cache_dir / "models"` default directory. The output directory is a plain parameter. The parsing of argument strings into members is modelled only as the enumeration lookup `FromName`.
- The logging configuration with a rich handler is a process-wide side effect. Only whether `logging.basicConfig` is called is modelled (`Run.loggingSetupCalled`). Whether it takes effect is not modelled: it does nothing when the root logger already has handlers.
- Console output is represented only by its shape (`Report.PathOnly` or `Report.Summary`) and the directory it names. The message texts and colours are left out.
- The module-level warning filters are global interpreter configuration and are left out.
- Exceptions raised inside the downloader are not modelled. The command passes them through unchanged.
