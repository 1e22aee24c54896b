/** The shapes of the configuration dictionary the builder produces (the
    `dictConfig` schema as the builder fills it). */
module ConfigTypes {

  /** Constructor options of the builder; `useRich` is already combined with
      the availability of the rich renderer. */
  datatype Options = Options(
    projectName: string,
    debug: bool,
    logDir: string,
    useRich: bool,
    maxBytes: int,
    backups: int)

  /** The option fields `__init__` stores, with its defaults for the project
      name, the rich console, the file size limit and the backup count. The
      rich console is used only when the renderer is available. */
  function MakeOptions(richAvailable: bool, logDir: string, debug: bool, projectName: string := "my_project",
                       useRich: bool := true, maxBytes: int := 5 * 1024 * 1024, backups: int := 3): (o: Options)
    ensures o.projectName == projectName && o.debug == debug && o.logDir == logDir
    ensures o.useRich <==> useRich && richAvailable
    ensures o.maxBytes == maxBytes && o.backups == backups
  {
    Options(projectName, debug, logDir, useRich && richAvailable, maxBytes, backups)
  }

  /** With only the required arguments, the options are the defaults: the
      project "my_project", rich output when available, 5 MiB files and
      three backups. */
  lemma DefaultOptions(richAvailable: bool, logDir: string, debug: bool)
    ensures var o := MakeOptions(richAvailable, logDir, debug);
            && o.projectName == "my_project"
            && (o.useRich <==> richAvailable)
            && o.maxBytes == 5242880
            && o.backups == 3
  {
  }

  /** The handler class and its class-specific arguments. */
  datatype HandlerKind =
    | RichConsole(showTime: bool, showLevel: bool, showPath: bool, markup: bool, richTracebacks: bool)
    | StreamConsole
    | RotatingFile(filename: string, maxBytes: int, backupCount: int, encoding: string)
    | Callable

  const ProviderModule := "python_basic_template.settings.logging_provider"

  /** The dotted class path written under the `class` key. */
  function ClassPath(kind: HandlerKind): string
  {
    match kind
    case RichConsole(_, _, _, _, _) => "rich.logging.RichHandler"
    case StreamConsole => "logging.StreamHandler"
    case RotatingFile(_, _, _, _) => "logging.handlers.RotatingFileHandler"
    case Callable => ProviderModule + ".CallableHandler"
  }

  datatype HandlerSpec = HandlerSpec(kind: HandlerKind, level: string, formatter: string, filters: seq<string>)

  datatype LoggerSpec = LoggerSpec(level: string, handlers: seq<string>, propagate: bool)

  /** Configuration of the channel filter; `factory` is the `()` key. */
  datatype FilterSpec = FilterSpec(factory: string, projectName: string, channelMapping: map<string, string>)

  datatype RootSpec = RootSpec(level: string, handlers: seq<string>)

  datatype LoggingConfigDict = LoggingConfigDict(
    version: int,
    disableExistingLoggers: bool,
    filters: map<string, FilterSpec>,
    formatters: map<string, string>,
    handlers: map<string, HandlerSpec>,
    loggers: map<string, LoggerSpec>,
    root: RootSpec)

  const ChannelFilterName := "logging_channel"

  /** The four fixed format presets, by name. */
  const Formatters: map<string, string> := map[
    "simple" := "%(logging_channel)s | %(levelname)s: %(message)s",
    "verbose" := "%(asctime)s %(logging_channel)s | %(levelname)s: %(name)s:%(lineno)d: %(message)s",
    "detailed" := "%(asctime)s %(logging_channel)s | %(levelname)s: pid=%(process)d tid=%(thread)d %(name)s:%(lineno)d: %(message)s",
    "rich" := "%(logging_channel)s | %(message)s"
  ]

  /** Every name the configuration refers to is defined in it: the handlers
      of the root and of each logger, and the filters and formatter of each
      handler. */
  ghost predicate Closed(c: LoggingConfigDict)
  {
    && (forall h :: h in c.root.handlers ==> h in c.handlers)
    && (forall n, h :: n in c.loggers && h in c.loggers[n].handlers ==> h in c.handlers)
    && (forall h :: h in c.handlers ==> c.handlers[h].formatter in c.formatters)
    && (forall h, f :: h in c.handlers && f in c.handlers[h].filters ==> f in c.filters)
  }
}
