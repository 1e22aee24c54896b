# Logging configuration builder and channel filter, modelled in Dafny

This project models the logging core of `python_basic_template`
(`src/python_basic_template/settings/logging_provider.py`):

- the **channel filter** (`LoggingChannelFilter`), which turns a dotted logger
  name such as `pkg.sub.mod` into a short channel alias and tags each record
  with it. It first looks for the longest registered name that is the logger
  name itself or a dotted ancestor of it. Failing that, the project name stays
  itself, a name below the project yields its second dotted segment, and any
  other name yields its first segment;
- the **configuration builder** (`LoggingConfigProvider`), a small state
  machine over three maps: handler specs, logger specs and the channel
  mapping. Construction seeds the console handler, the root file handler and
  the identity entry for the project. `add_loggers` registers logger specs and
  creates `file__<alias>` / `custom__<alias>` handlers on demand.
  `get_logging_config` takes a snapshot of the state.

Everything is pure: strings are `seq<char>`, the state is an immutable
`Builder` datatype, and every operation returns the next state.

Modules, one file each:

| file | module | contents |
|---|---|---|
| wrappers.dfy | `Wrappers` | `Option` |
| names.dfy | `Names` | `startswith`, `str.split(".")` and its inverse `Join` |
| aliases.dfy | `Aliases` | longest-prefix lookup, the builder's alias rule, the filter's alias rule |
| channel_filter.dfy | `ChannelFilters` | the filter object and `filter(record)` |
| config_types.dfy | `ConfigTypes` | options, handler, logger, filter and root specs, the config dictionary, the format presets |
| provider.dfy | `Provider` | the builder state, its operations and its invariant `Wf` |
| agreement.dfy | `Agreement` | how the filter rebuilt from the produced configuration relates to the builder's aliases |

What the proofs establish:

- `str.split(".")` and `".".join` are inverse to each other.
- The lookup that tries each dot of the name from the right finds the longest
  applicable key. So does the source's scan over the items sorted longest
  first, whatever order keys of equal length come in. Two different keys of
  equal length never both apply.
- A dotted descendant keeps its ancestor's alias, unless that ancestor is the
  project itself or lies above the project.
- `add_loggers` gives each logger a handler list drawn from
  `console, file__<alias>, custom__<alias>` in that order, without repeats.
  The list is fully determined by which kinds were requested, and `propagate`
  holds iff the list is empty. Handlers only grow, and the first registration's
  level stays. Nothing else in the mapping or the logger map changes.
- Every reachable builder satisfies `Wf`. As a consequence the produced
  configuration is closed: every handler, filter and formatter it refers to is
  defined in it.
- The filter built from the configuration gives every registered name the
  alias the builder computed for it. The exceptions are `""` and `"root"`,
  which the filter always maps to the project.

Some behaviours of the code are easy to overlook; the model states them as the code has them:

- **Constructing the builder a second time does not keep the first options.**
  `__new__` returns the existing instance, but Python then runs `__init__`
  again on it, and that resets every option and map. The model therefore has
  no singleton: `Provider.New` builds a fresh state from its options.
- **Aliases can be empty.** One might expect every alias to be non-empty, but the
  code gives `""` for a leading dot (`.x`) and for `<project>.`
  (`Aliases.EmptyAliasesOccur`). A file handler named `file__` can then be
  created.
- **The fallback to the project name in the project branch is dead code.** A
  name below the project always has a second segment
  (`Aliases.UnderProjectHasSecondSegment`).
- **For a dotted project name, the project branch returns segment 1 of the
  whole name, not the segment after the project.** For example, project `a.b`
  and name `a.b.c` give `b` (`Aliases.DottedProjectAlias`).
  `Aliases.ProjectModuleAlias` covers the dot-free project name.
- **The project's identity entry shadows the sub-package rule.** The builder
  always seeds the mapping with `{project: project}`. Because of that, the
  filter the dispatcher builds from the configuration reports every name below
  the project as the project itself, unless a longer registered name applies
  (`Agreement.ProjectEntryShadowsSubpackages`,
  `Agreement.ConfiguredFilterAgreement`). With that mapping, the filter's own
  sub-package step never runs for such names.

## Model

| member | source | states |
|---|---|---|
| `Names.Split` | src/python_basic_template/settings/logging_provider.py:39 | `split(".")` returns at least one segment, no segment holds a dot, and there is more than one segment iff the name holds a dot |
| `Names.JoinSplit` | src/python_basic_template/settings/logging_provider.py:39 | joining the segments of a name with dots gives the name back |
| `Names.SplitJoin` | src/python_basic_template/settings/logging_provider.py:39 | splitting dot-joined, dot-free segments gives the segments back (the other direction of the round trip) |
| `Names.SplitAppend` | src/python_basic_template/settings/logging_provider.py:39 | the segments of `a.b` are the segments of `a` followed by those of `b` |
| `Names.SplitNoDot` | src/python_basic_template/settings/logging_provider.py:42 | a name without dots is a single segment |
| `Names.Head` | src/python_basic_template/settings/logging_provider.py:42 | the first segment (`split(".", 1)[0]`) is a prefix of the name, holds no dot, and is followed by a dot or by the end of the name |
| `Aliases.Matches` | src/python_basic_template/settings/logging_provider.py:32 | the test whether a mapping key applies to a logger name: the name itself or a dotted ancestor of it; its shape is stated by `Aliases.MatchesShape` |
| `Aliases.MatchesShape` | src/python_basic_template/settings/logging_provider.py:32 | a key applies to a name iff it is the name or a proper prefix of it followed by a dot |
| `Aliases.EqualLengthMatchesCoincide` | src/python_basic_template/settings/logging_provider.py:31-33 | two keys of equal length that both apply to one name are the same key, so the order among ties is irrelevant |
| `Aliases.MatchBelowFindsLongest` | src/python_basic_template/settings/logging_provider.py:31-33 | trying each dot of the name from the right finds an applicable key shorter than the bound, and none longer than it |
| `Aliases.LongestMatch` | src/python_basic_template/settings/logging_provider.py:30-33 | the result is an applicable key of the mapping, at least as long as every applicable key; there is a result iff some key applies |
| `Aliases.FirstMatch` | src/python_basic_template/settings/logging_provider.py:31-33 | the source's loop: the position of the first entry whose key applies, with no applicable key before it; no position iff no entry applies |
| `Aliases.ScanAlias` | src/python_basic_template/settings/logging_provider.py:31-33 | the loop returns the value of the first item whose key applies, with no applicable key before it, and returns nothing iff no key applies |
| `Aliases.SortedScanFindsLongest` | src/python_basic_template/settings/logging_provider.py:31-33 | scanning every item longest key first, in any order among equally long keys, returns exactly the value of the longest applicable key |
| `Aliases.DerivedAlias` | src/python_basic_template/settings/logging_provider.py:240-246 | the builder's alias is the project name or one of the dotted segments of the logger name |
| `Aliases.UnderProjectHasSecondSegment` | src/python_basic_template/settings/logging_provider.py:243-245 | a name below the project always has a second segment, so the `else project_name` fallback never runs |
| `Aliases.DerivedAliasInherited` | src/python_basic_template/settings/logging_provider.py:240-246 | a dotted descendant gets the same alias as its ancestor, whenever the ancestor is not the project and the descendant lies in the project only if the ancestor lies strictly below it |
| `Aliases.ProjectModuleAlias` | src/python_basic_template/settings/logging_provider.py:243-245 | for a dot-free project, `project.sub` and every `project.sub.rest` get the alias `sub` |
| `Aliases.DottedProjectAlias` | src/python_basic_template/settings/logging_provider.py:243-245 | for a two-segment project `p1.p2`, every name below the project gets `p2`, segment 1 of the whole name, not the segment after the project |
| `Aliases.ForeignModuleAlias` | src/python_basic_template/settings/logging_provider.py:246 | a top-level package outside the project, and every module in it, get the package name as alias |
| `Aliases.NotUnderProject` | src/python_basic_template/settings/logging_provider.py:241-243 | a module of a dot-free package other than the project, and not above it, is neither the project nor below it |
| `Aliases.DotFreeAlias` | src/python_basic_template/settings/logging_provider.py:241-246 | a name without dots is its own alias |
| `Aliases.EmptyAliasesOccur` | src/python_basic_template/settings/logging_provider.py:38-42 | `.x` and `project.` both get the empty alias |
| `Aliases.LongestMatchIsTheLongest` | src/python_basic_template/settings/logging_provider.py:31-33 | any applicable key at least as long as every applicable key is the one the lookup returns |
| `Aliases.FilterAlias` | src/python_basic_template/settings/logging_provider.py:26-42 | the empty name and `root` get the project name; otherwise, when a key applies and no applicable key is longer, the result is that key's alias (longest prefix wins); when no key applies (in particular with an empty mapping) the result is exactly the builder's rule |
| `Aliases.FilterRegisteredName` | src/python_basic_template/settings/logging_provider.py:31-33 | a name that is itself a key gets that key's alias: an exact match is the longest match |
| `Aliases.FilterAgreesWithBuilder` | src/python_basic_template/settings/logging_provider.py:26-42 | with a mapping whose entries record the builder's aliases and hold the project, the filter agrees with the builder's rule on every name except those below the project whose longest applicable key is the project; these get the project name |
| `ChannelFilters.NewChannelFilter` | src/python_basic_template/settings/logging_provider.py:21-24 | the filter keeps the project name, and a missing mapping becomes the empty one |
| `ChannelFilters.Filter` | src/python_basic_template/settings/logging_provider.py:44-46 | every record passes, its channel becomes the filter's alias for its name, and no other field changes |
| `ChannelFilters.FilterIdempotent` | src/python_basic_template/settings/logging_provider.py:44-46 | filtering an already tagged record changes nothing further |
| `ChannelFilters.RootRecordsUseProject` | src/python_basic_template/settings/logging_provider.py:27-28 | records of the root logger, or without a name, are tagged with the project name |
| `Provider.HandlerNamesDistinct` | src/python_basic_template/settings/logging_provider.py:217-230 | `console`, `file__<a>` and `custom__<b>` never collide, and file or custom names are equal iff their aliases are |
| `Provider.RootLevel` | src/python_basic_template/settings/logging_provider.py:160-161 | the root level is `DEBUG` iff debug is set, and `INFO` iff it is not |
| `ConfigTypes.MakeOptions` | src/python_basic_template/settings/logging_provider.py:84-98 | the options hold the given project name, debug flag, directory, size limit and backup count; rich output is on iff it was asked for and the renderer is available |
| `ConfigTypes.DefaultOptions` | src/python_basic_template/settings/logging_provider.py:88-91 | with only the directory and the debug flag given, the project is `my_project`, rich output is on iff available, files rotate at 5 MiB (5242880 bytes) and three backups are kept |
| `Provider.RootFileHandlerName` | src/python_basic_template/settings/logging_provider.py:217-218 | the root's file handler is the one `_ensure_file_handler` would name for the project's own alias |
| `Provider.RootHandlers` | src/python_basic_template/settings/logging_provider.py:163-164 | the root's handler list is the canonical list `add_loggers` would attach for the kinds `console` and `file` under the project alias: `console`, then the project's file handler |
| `Provider.BuildFileHandler` | src/python_basic_template/settings/logging_provider.py:205-215 | a `RotatingFileHandler` entry on the given file name with the builder's size limit and backup count, UTF-8 encoded, at the given level with the `verbose` formatter and the channel filter |
| `Provider.CallbackHandler` | src/python_basic_template/settings/logging_provider.py:232-237 | a `CallableHandler` entry at the given level with the `verbose` formatter and the channel filter |
| `Provider.New` | src/python_basic_template/settings/logging_provider.py:166-193 | after construction the handlers are exactly `console` and `file__<project>`, both at the root level; the console is the rich one (class `rich.logging.RichHandler`, formatter `rich`) iff rich is in use and otherwise `logging.StreamHandler` with `verbose`; the root file handler is the `_build_file_handler` entry on `<log_dir>/<project>.log` at the root level (so the `verbose` formatter and the channel filter, with the given size and backup count); the mapping is exactly `{project: project}`; there are no loggers |
| `Provider.EnsureFileHandler` | src/python_basic_template/settings/logging_provider.py:220-227 | returns `file__<alias>`; afterwards that key exists, the keys grow by at most it, existing entries are unchanged, only the handlers change, and a new entry is a rotating file handler on `<alias>.log` at the given level |
| `Provider.EnsureCustomHandler` | src/python_basic_template/settings/logging_provider.py:229-238 | returns `custom__<alias>`; the same frame and growth facts; a new entry is the `CallableHandler` entry at the given level |
| `Provider.EnsureHandlersIdempotent` | src/python_basic_template/settings/logging_provider.py:220-238 | ensuring the same handler again, at any level, changes nothing |
| `Provider.AttachedListIsCanonical` | src/python_basic_template/settings/logging_provider.py:119-126 | the list built by testing console, file and custom in turn is in canonical order without repeats, and holds each handler iff its kind was requested |
| `Provider.AttachHandlers` | src/python_basic_template/settings/logging_provider.py:119-126 | the attached names are canonical for the requested kinds, the file and callback ones exist afterwards, handlers only grow, the new handler keys are exactly the requested `file__<alias>` and `custom__<alias>` that were missing, and each new entry is the rotating file handler on `<alias>.log` or the callback handler, at the requested level |
| `Provider.OrderedHeadsAgree` | src/python_basic_template/settings/logging_provider.py:119-126 | two ordered handler lists with mutually contained heads start with the same name |
| `Provider.OrderedTailsAgree` | src/python_basic_template/settings/logging_provider.py:119-126 | behind a shared head, ordered lists with the same members have tails with the same members |
| `Provider.OrderedDeterminedByMembers` | src/python_basic_template/settings/logging_provider.py:119-126 | two ordered handler lists with the same members are equal |
| `Provider.CanonicalHandlersUnique` | src/python_basic_template/settings/logging_provider.py:119-126 | the handler list is determined by which of console, file and custom were requested, whatever their order or repetition |
| `Provider.AddLogger` | src/python_basic_template/settings/logging_provider.py:116-136 | one iteration: the mapping gains `name -> alias` and nothing else; the logger map gains `name` with the requested level, the canonical handler list and `propagate` iff that list is empty, and no other logger changes; handlers only grow; the only new handler keys are the requested `file__<alias>` and `custom__<alias>`, each created as the rotating file handler on `<alias>.log` or the callback handler at the requested level |
| `Provider.AddLoggerRegisters` | src/python_basic_template/settings/logging_provider.py:116-136 | one iteration meets the registration predicates for the single name |
| `Provider.AddLoggerCreates` | src/python_basic_template/settings/logging_provider.py:118-126 | one iteration creates exactly the missing requested handlers for the name's alias |
| `Provider.MappingCompose` | src/python_basic_template/settings/logging_provider.py:116 | registering one name and then a list is registering the concatenated list (mapping part) |
| `Provider.LoggersCompose` | src/python_basic_template/settings/logging_provider.py:116 | the same for the logger entries |
| `Provider.ResolvedCompose` | src/python_basic_template/settings/logging_provider.py:116 | the same for the presence of the handlers the loggers use |
| `Provider.CreatedCompose` | src/python_basic_template/settings/logging_provider.py:116 | the same for the handlers created on demand |
| `Provider.AddLoggers` | src/python_basic_template/settings/logging_provider.py:109-137 | for the whole list: each name maps to its builder alias and holds the registered spec, every other mapping and logger entry is unchanged, no other key appears; handlers only grow, the handler keys grow by exactly the requested `file__`/`custom__` names of the aliases of the names, and each new entry is the one created for its alias at the requested level; the file and callback handlers each logger uses exist. `level` defaults to `INFO` and the kinds to none |
| `Provider.NoHandlerKindsKeepHandlers` | src/python_basic_template/settings/logging_provider.py:118-126 | when neither `file` nor `custom` is requested (in particular with the default of no kinds), `add_loggers` leaves the handler map unchanged |
| `Provider.NewIsWf` | src/python_basic_template/settings/logging_provider.py:166-193 | a freshly constructed builder satisfies the invariant |
| `Provider.AddLoggerKeepsLoggersWf` | src/python_basic_template/settings/logging_provider.py:116-136 | one iteration keeps every logger ordered, resolved and propagating iff handler-less |
| `Provider.AddLoggerKeepsHandlerSpecsWf` | src/python_basic_template/settings/logging_provider.py:220-238 | handlers created on demand use a defined formatter and the channel filter |
| `Provider.AddLoggerPreservesWf` | src/python_basic_template/settings/logging_provider.py:116-136 | one iteration preserves the invariant: fixed root handlers, project entry present, mapping consistent with the builder's rule, loggers well formed, handler specs well formed |
| `Provider.AddLoggersPreservesWf` | src/python_basic_template/settings/logging_provider.py:109-137 | `add_loggers` preserves the invariant |
| `Provider.GetLoggingConfig` | src/python_basic_template/settings/logging_provider.py:139-157 | version 1, existing loggers kept; the handler and logger maps are the current ones; one filter entry, whose factory is `python_basic_template.settings.logging_provider.LoggingChannelFilter`, carrying the project and the current mapping; the formatters are the four presets; the root uses `console` and `file__<project>` at `DEBUG` when debug is set and `INFO` otherwise; for a builder satisfying the invariant, every handler, filter and formatter the configuration refers to is defined in it |
| `Provider.ReregistrationOverwrites` | src/python_basic_template/settings/logging_provider.py:116-137 | registering a name again replaces its logger entry by the new level and kinds, while the handlers the first call created stay, at the first call's level |
| `Provider.KindOrderIrrelevant` | src/python_basic_template/settings/logging_provider.py:120-126 | `add_loggers` gives the same state for any two lists that request the same kinds |
| `Agreement.RegisteredNamesAgree` | src/python_basic_template/settings/logging_provider.py:116-130 | after `add_loggers`, the filter built from the configuration gives each registered name other than `""` and `root` the alias the builder computed |
| `Agreement.ConfiguredFilterAgreement` | src/python_basic_template/settings/logging_provider.py:139-146 | for a builder satisfying the invariant, the configured filter agrees with the builder's rule on every name except those below the project that no registration longer than the project covers; these get the project name |
| `Aliases.SoleProjectEntry` | src/python_basic_template/settings/logging_provider.py:30-33 | with only the project's own entry in the mapping, every name below the project is shown under the project name |
| `Agreement.ProjectEntryShadowsSubpackages` | src/python_basic_template/settings/logging_provider.py:193 | right after construction, the configured filter shows `project.sub` under the project, while the builder's rule would give `sub` |
| `Agreement.RootAndEmptyNamesDisagree` | src/python_basic_template/settings/logging_provider.py:27-28 | after registering `root` and `""`, the mapping holds `root -> root` and `"" -> ""`, but the configured filter shows both under the project |

## Left out

- `CallableHandler` (environment lookup of `LOGGING_CUSTOM_CALLBACK`, dynamic import, swallowed callback errors) is foreign code. A custom handler appears only as the `Callable` handler kind.
- The singleton `__new__` is left out because it does not keep the first options: `__init__` runs again and resets the state. Construction is modelled by `Provider.New` alone.
- The `mkdir` of the log directory, the import that detects the rich renderer (its outcome is the `richAvailable` parameter of `ConfigTypes.MakeOptions`), and the rotating-file behaviour are runtime effects or library behaviour.
- Path semantics are left out: `log_dir / "<alias>.log"` is modelled as `logDir + "/" + alias + ".log"`, so no normalisation of slashes and no absolute aliases.
- The format strings and the rich console flags are static data. They appear as literal constants, with no behaviour.
- `add_loggers` returns the builder itself for chaining. The model returns the next state instead.
- The `bool(...)` and `int(...)` conversions of the constructor arguments are left out: the options already have those types.
- `add_loggers(None, ...)` raises in the source. The model takes a plain list of names. A missing `handlers` argument (`None`) is modelled as the empty list, the default of `Provider.AddLoggers`, which the source treats the same way.
- Python's `str` is modelled as `seq<char>`. There is no Unicode-specific behaviour.
- `Provider.AddLogger`, `Provider.AttachHandlers`, `Provider.AddLoggers`: the contracts say the file and callback handlers a logger uses exist, but say nothing about `console`. The console handler's presence comes from construction and is stated by the invariant `Provider.Wf` (`Provider.NewIsWf`, `Provider.AddLoggersPreservesWf`).
- `src/python_basic_template/utils/file_utils.py`, `src/python_basic_template/settings/settings.py`, `src/python_basic_template/data_handler/load_data.py` and `scripts/prepare_data.py` are not part of this model. They are filesystem and JSON I/O, import-time glue and a CSV loader.
