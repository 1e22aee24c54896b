/** `LoggingConfigProvider` as a state machine over three maps: handler specs,
    logger specs and the channel mapping (full logger name to alias). */
module Provider {
  import opened Names
  import opened Aliases
  import opened ConfigTypes

  datatype Builder = Builder(
    opts: Options,
    handlers: map<string, HandlerSpec>,
    loggers: map<string, LoggerSpec>,
    mapping: map<string, string>)

  const ConsoleName := "console"

  function FileHandlerName(alias: string): string
  {
    "file__" + alias
  }

  function CustomHandlerName(alias: string): string
  {
    "custom__" + alias
  }

  /** The generated handler names never collide across kinds, and within a
      kind they are one per alias. */
  lemma HandlerNamesDistinct(a: string, b: string)
    ensures ConsoleName != FileHandlerName(a)
    ensures ConsoleName != CustomHandlerName(a)
    ensures FileHandlerName(a) != CustomHandlerName(b)
    ensures FileHandlerName(a) == FileHandlerName(b) <==> a == b
    ensures CustomHandlerName(a) == CustomHandlerName(b) <==> a == b
  {
    assert FileHandlerName(a)[0] == 'f';
    assert CustomHandlerName(a)[0] == 'c' && CustomHandlerName(a)[1] == 'u';
    assert CustomHandlerName(b)[0] == 'c';
    assert FileHandlerName(a)[6..] == a && FileHandlerName(b)[6..] == b;
    assert CustomHandlerName(a)[8..] == a && CustomHandlerName(b)[8..] == b;
  }

  /** `_root_level` */
  function RootLevel(debug: bool): (level: string)
    ensures level == "DEBUG" <==> debug
    ensures level == "INFO" <==> !debug
  {
    if debug then "DEBUG" else "INFO"
  }

  /** `_root_file_handler_name`: the root's file handler is the one
      `_ensure_file_handler` names for the project's own alias. */
  function RootFileHandlerName(opts: Options): (name: string)
    ensures name == FileHandlerName(DerivedAlias(opts.projectName, opts.projectName))
  {
    FileHandlerName(opts.projectName)
  }

  /** `_root_handlers` */
  function RootHandlers(opts: Options): (hs: seq<string>)
    ensures CanonicalHandlers(opts.projectName, ["console", "file"], hs)
  {
    var kinds := ["console", "file"];
    assert "console" in kinds && "file" in kinds && "custom" !in kinds;
    AttachedListIsCanonical(opts.projectName, kinds);
    assert [ConsoleName, RootFileHandlerName(opts)] ==
           When(true, ConsoleName) + When(true, FileHandlerName(opts.projectName)) + When(false, CustomHandlerName(opts.projectName));
    [ConsoleName, RootFileHandlerName(opts)]
  }

  /** `log_dir / f"{alias}.log"`, as plain concatenation. */
  function LogFileName(logDir: string, alias: string): string
  {
    logDir + "/" + alias + ".log"
  }

  /** `_build_file_handler`: a rotating file handler on `filename` with the
      builder's size limit and backup count. */
  function BuildFileHandler(opts: Options, filename: string, level: string): (h: HandlerSpec)
    ensures ClassPath(h.kind) == "logging.handlers.RotatingFileHandler"
    ensures h.kind.filename == filename && h.kind.maxBytes == opts.maxBytes
    ensures h.kind.backupCount == opts.backups && h.kind.encoding == "utf-8"
    ensures CreatedFor(h, level)
  {
    HandlerSpec(RotatingFile(filename, opts.maxBytes, opts.backups, "utf-8"), level, "verbose", [ChannelFilterName])
  }

  /** The entry `_ensure_custom_handler` writes. */
  function CallbackHandler(level: string): (h: HandlerSpec)
    ensures ClassPath(h.kind) == ProviderModule + ".CallableHandler"
    ensures CreatedFor(h, level)
  {
    HandlerSpec(Callable, level, "verbose", [ChannelFilterName])
  }

  /** The console entry `_configure_root` writes. */
  function ConsoleHandler(opts: Options): HandlerSpec
  {
    if opts.useRich then
      HandlerSpec(RichConsole(true, true, false, true, true), RootLevel(opts.debug), "rich", [ChannelFilterName])
    else
      HandlerSpec(StreamConsole, RootLevel(opts.debug), "verbose", [ChannelFilterName])
  }

  /** The root file entry `_configure_root` writes. */
  function RootFileHandler(opts: Options): HandlerSpec
  {
    BuildFileHandler(opts, LogFileName(opts.logDir, opts.projectName), RootLevel(opts.debug))
  }

  /** `__init__` (state part) followed by `_configure_root`. */
  function New(opts: Options): (b: Builder)
    ensures b.opts == opts
    ensures b.handlers.Keys == {ConsoleName, FileHandlerName(opts.projectName)}
    ensures b.handlers[ConsoleName].level == RootLevel(opts.debug)
    ensures b.handlers[ConsoleName].kind.RichConsole? <==> opts.useRich
    ensures b.handlers[ConsoleName].kind.StreamConsole? <==> !opts.useRich
    ensures ClassPath(b.handlers[ConsoleName].kind) ==
              if opts.useRich then "rich.logging.RichHandler" else "logging.StreamHandler"
    ensures b.handlers[ConsoleName].formatter == if opts.useRich then "rich" else "verbose"
    ensures b.handlers[FileHandlerName(opts.projectName)].level == RootLevel(opts.debug)
    ensures b.handlers[FileHandlerName(opts.projectName)].kind ==
              RotatingFile(LogFileName(opts.logDir, opts.projectName), opts.maxBytes, opts.backups, "utf-8")
    ensures b.handlers[FileHandlerName(opts.projectName)] ==
              BuildFileHandler(opts, LogFileName(opts.logDir, opts.projectName), RootLevel(opts.debug))
    ensures b.mapping.Keys == {opts.projectName} && b.mapping[opts.projectName] == opts.projectName
    ensures b.loggers == map[]
  {
    HandlerNamesDistinct(opts.projectName, opts.projectName);
    var handlers := map[ConsoleName := ConsoleHandler(opts)];
    var handlers := handlers[RootFileHandlerName(opts) := RootFileHandler(opts)];
    Builder(opts, handlers, map[], map[opts.projectName := opts.projectName])
  }

  /** Every entry of `before` is still in `after`, unchanged. */
  ghost predicate Grows(before: map<string, HandlerSpec>, after: map<string, HandlerSpec>)
  {
    forall h :: h in before ==> h in after && after[h] == before[h]
  }

  /** `_ensure_file_handler`: adds the alias's file handler unless a handler
      of that name exists, in which case nothing changes and the first
      registration's level stays. */
  function EnsureFileHandler(b: Builder, alias: string, level: string): (r: (Builder, string))
    ensures r.1 == FileHandlerName(alias)
    ensures r.0 == b.(handlers := r.0.handlers)
    ensures r.0.handlers.Keys == b.handlers.Keys + {r.1}
    ensures Grows(b.handlers, r.0.handlers)
    ensures r.1 !in b.handlers ==>
              r.0.handlers[r.1] == BuildFileHandler(b.opts, LogFileName(b.opts.logDir, alias), level)
  {
    var name := FileHandlerName(alias);
    if name in b.handlers then (b, name)
    else (b.(handlers := b.handlers[name := BuildFileHandler(b.opts, LogFileName(b.opts.logDir, alias), level)]), name)
  }

  /** `_ensure_custom_handler`: the same for the alias's callback handler. */
  function EnsureCustomHandler(b: Builder, alias: string, level: string): (r: (Builder, string))
    ensures r.1 == CustomHandlerName(alias)
    ensures r.0 == b.(handlers := r.0.handlers)
    ensures r.0.handlers.Keys == b.handlers.Keys + {r.1}
    ensures Grows(b.handlers, r.0.handlers)
    ensures r.1 !in b.handlers ==>
              r.0.handlers[r.1] == CallbackHandler(level)
  {
    var name := CustomHandlerName(alias);
    if name in b.handlers then (b, name)
    else (b.(handlers := b.handlers[name := CallbackHandler(level)]), name)
  }

  /** Ensuring a handler twice is the same as ensuring it once, whatever
      level the second call asks for. */
  lemma EnsureHandlersIdempotent(b: Builder, alias: string, level1: string, level2: string)
    ensures var e := EnsureFileHandler(b, alias, level1);
            EnsureFileHandler(e.0, alias, level2) == e
    ensures var e := EnsureCustomHandler(b, alias, level1);
            EnsureCustomHandler(e.0, alias, level2) == e
  {
  }

  /** Position of a handler name in the fixed order console, file, custom. */
  function Rank(alias: string, h: string): nat
  {
    if h == ConsoleName then 0 else if h == FileHandlerName(alias) then 1 else 2
  }

  /** `hs` is drawn from console, `file__<alias>`, `custom__<alias>` in that
      order, each at most once. */
  ghost predicate OrderedHandlers(alias: string, hs: seq<string>)
  {
    && (forall h :: h in hs ==> h in [ConsoleName, FileHandlerName(alias), CustomHandlerName(alias)])
    && (forall i, j :: 0 <= i < j < |hs| ==> Rank(alias, hs[i]) < Rank(alias, hs[j]))
  }

  /** The handler list a logger gets for the requested kinds. */
  ghost predicate CanonicalHandlers(alias: string, kinds: seq<string>, hs: seq<string>)
  {
    && OrderedHandlers(alias, hs)
    && (ConsoleName in hs <==> "console" in kinds)
    && (FileHandlerName(alias) in hs <==> "file" in kinds)
    && (CustomHandlerName(alias) in hs <==> "custom" in kinds)
  }

  /** The logger entry `add_loggers` stores. */
  ghost predicate RegisteredAs(spec: LoggerSpec, alias: string, level: string, kinds: seq<string>)
  {
    && spec.level == level
    && CanonicalHandlers(alias, kinds, spec.handlers)
    && (spec.propagate <==> |spec.handlers| == 0)
  }

  /** A handler `add_loggers` creates: at the requested level, with the
      verbose formatter and the channel filter. */
  ghost predicate CreatedFor(spec: HandlerSpec, level: string)
  {
    spec.level == level && spec.formatter == "verbose" && spec.filters == [ChannelFilterName]
  }

  /** `[h]` when `present`, else nothing. */
  function When(present: bool, h: string): seq<string>
  {
    if present then [h] else []
  }

  /** Names of the handlers `add_loggers` ensures for one alias. */
  function RequestedHandlers(alias: string, kinds: seq<string>): set<string>
  {
    (if "file" in kinds then {FileHandlerName(alias)} else {})
    + (if "custom" in kinds then {CustomHandlerName(alias)} else {})
  }

  /** The entry `add_loggers` creates for the alias's handler `h`. */
  function CreatedHandler(opts: Options, alias: string, level: string, h: string): HandlerSpec
  {
    if h == FileHandlerName(alias) then BuildFileHandler(opts, LogFileName(opts.logDir, alias), level)
    else CallbackHandler(level)
  }

  /** A handler name is requested for at most one alias. */
  lemma RequestedByOneAlias(a1: string, a2: string, kinds: seq<string>, h: string)
    requires h in RequestedHandlers(a1, kinds) && h in RequestedHandlers(a2, kinds)
    ensures a1 == a2
  {
    HandlerNamesDistinct(a1, a2);
    HandlerNamesDistinct(a2, a1);
  }

  /** The list `add_loggers` builds by testing console, file and custom in
      turn meets the canonical description. */
  lemma AttachedListIsCanonical(alias: string, kinds: seq<string>)
    ensures CanonicalHandlers(alias, kinds,
              When("console" in kinds, ConsoleName)
              + When("file" in kinds, FileHandlerName(alias))
              + When("custom" in kinds, CustomHandlerName(alias)))
  {
    HandlerNamesDistinct(alias, alias);
    assert Rank(alias, ConsoleName) == 0;
    assert Rank(alias, FileHandlerName(alias)) == 1;
    assert Rank(alias, CustomHandlerName(alias)) == 2;
  }

  /** The handler part of one iteration of `add_loggers`: the handler names
      attached to the logger, creating the alias's file and callback handlers
      on demand. */
  function AttachHandlers(b: Builder, alias: string, level: string, kinds: seq<string>): (r: (Builder, seq<string>))
    ensures r.0 == b.(handlers := r.0.handlers)
    ensures CanonicalHandlers(alias, kinds, r.1)
    ensures forall h :: h in r.1 && h != ConsoleName ==> h in r.0.handlers
    ensures Grows(b.handlers, r.0.handlers)
    ensures r.0.handlers.Keys == b.handlers.Keys + RequestedHandlers(alias, kinds)
    ensures forall h :: h in r.0.handlers && h !in b.handlers ==>
              r.0.handlers[h] == CreatedHandler(b.opts, alias, level, h)
    ensures forall h :: h in r.0.handlers && h !in b.handlers ==> CreatedFor(r.0.handlers[h], level)
  {
    AttachedListIsCanonical(alias, kinds);
    HandlerNamesDistinct(alias, alias);
    var withConsole := When("console" in kinds, ConsoleName);
    var afterFile :=
      if "file" in kinds then
        var e := EnsureFileHandler(b, alias, level); (e.0, withConsole + [e.1])
      else (b, withConsole);
    var afterCustom :=
      if "custom" in kinds then
        var e := EnsureCustomHandler(afterFile.0, alias, level); (e.0, afterFile.1 + [e.1])
      else afterFile;
    assert afterFile.1 == withConsole + When("file" in kinds, FileHandlerName(alias));
    assert afterCustom.1 == afterFile.1 + When("custom" in kinds, CustomHandlerName(alias));
    afterCustom
  }

  /** The smallest-ranked member of an ordered list comes first. */
  lemma OrderedHeadsAgree(alias: string, h1: seq<string>, h2: seq<string>)
    requires OrderedHandlers(alias, h1) && OrderedHandlers(alias, h2)
    requires |h1| > 0 && |h2| > 0
    requires h1[0] in h2 && h2[0] in h1
    ensures h1[0] == h2[0]
  {
    HandlerNamesDistinct(alias, alias);
    var j :| 0 <= j < |h2| && h2[j] == h1[0];
    var i :| 0 <= i < |h1| && h1[i] == h2[0];
    assert Rank(alias, h1[0]) == Rank(alias, h2[0]);
  }

  /** Behind a shared head, two ordered lists with the same members have
      tails with the same members. */
  lemma OrderedTailsAgree(alias: string, h1: seq<string>, h2: seq<string>, x: string)
    requires OrderedHandlers(alias, h1) && OrderedHandlers(alias, h2)
    requires |h1| > 0 && |h2| > 0 && h1[0] == h2[0]
    requires x in h1 <==> x in h2
    ensures x in h1[1..] <==> x in h2[1..]
  {
    assert h1 == [h1[0]] + h1[1..] && h2 == [h2[0]] + h2[1..];
    if x in h1[1..] {
      var k :| 0 <= k < |h1| - 1 && h1[1..][k] == x;
      assert Rank(alias, h1[0]) < Rank(alias, h1[k + 1]);
    }
    if x in h2[1..] {
      var k :| 0 <= k < |h2| - 1 && h2[1..][k] == x;
      assert Rank(alias, h2[0]) < Rank(alias, h2[k + 1]);
    }
  }

  /** Two ordered handler lists with the same members are the same list. */
  lemma {:induction false} OrderedDeterminedByMembers(alias: string, h1: seq<string>, h2: seq<string>)
    requires OrderedHandlers(alias, h1) && OrderedHandlers(alias, h2)
    requires forall x :: x in h1 <==> x in h2
    ensures h1 == h2
    decreases |h1|
  {
    assert |h2| > 0 ==> h2[0] in h2;
    if |h1| > 0 {
      assert h1[0] in h1;
      OrderedHeadsAgree(alias, h1, h2);
      forall x
        ensures x in h1[1..] <==> x in h2[1..]
      {
        OrderedTailsAgree(alias, h1, h2, x);
      }
      OrderedDeterminedByMembers(alias, h1[1..], h2[1..]);
      assert h1 == [h1[0]] + h1[1..] && h2 == [h2[0]] + h2[1..];
    }
  }

  /** The handler list is fully determined by which kinds were requested:
      neither their order nor their repetition can change it. */
  lemma CanonicalHandlersUnique(alias: string, k1: seq<string>, k2: seq<string>, h1: seq<string>, h2: seq<string>)
    requires forall w :: w in ["console", "file", "custom"] ==> (w in k1 <==> w in k2)
    requires CanonicalHandlers(alias, k1, h1) && CanonicalHandlers(alias, k2, h2)
    ensures h1 == h2
  {
    assert "console" in ["console", "file", "custom"];
    assert "file" in ["console", "file", "custom"];
    assert "custom" in ["console", "file", "custom"];
    OrderedDeterminedByMembers(alias, h1, h2);
  }

  /** One iteration of the loop in `add_loggers`. */
  function AddLogger(b: Builder, name: string, level: string, kinds: seq<string>): (r: Builder)
    ensures r.opts == b.opts
    ensures r.mapping == b.mapping[name := DerivedAlias(b.opts.projectName, name)]
    ensures r.loggers.Keys == b.loggers.Keys + {name}
    ensures forall n :: n in b.loggers && n != name ==> r.loggers[n] == b.loggers[n]
    ensures RegisteredAs(r.loggers[name], DerivedAlias(b.opts.projectName, name), level, kinds)
    ensures forall h :: h in r.loggers[name].handlers && h != ConsoleName ==> h in r.handlers
    ensures Grows(b.handlers, r.handlers)
    ensures r.handlers.Keys == b.handlers.Keys + RequestedHandlers(DerivedAlias(b.opts.projectName, name), kinds)
    ensures forall h :: h in r.handlers && h !in b.handlers ==>
              r.handlers[h] == CreatedHandler(b.opts, DerivedAlias(b.opts.projectName, name), level, h)
    ensures forall h :: h in r.handlers && h !in b.handlers ==> CreatedFor(r.handlers[h], level)
  {
    var alias := DerivedAlias(b.opts.projectName, name);
    var (b2, attached) := AttachHandlers(b, alias, level, kinds);
    b2.(mapping := b2.mapping[name := alias],
        loggers := b2.loggers[name := LoggerSpec(level, attached, |attached| == 0)])
  }

  /** The channel mapping after registering `names`: each gets the builder's
      alias, nothing else changes. */
  ghost predicate MappingRegistered(project: string, before: map<string, string>, after: map<string, string>,
                                    names: seq<string>)
  {
    && after.Keys == before.Keys + (set n | n in names)
    && (forall n :: n in names ==> after[n] == DerivedAlias(project, n))
    && (forall k :: k in before && k !in names ==> after[k] == before[k])
  }

  /** The logger entries after registering `names` with one level and one
      list of kinds: each gets its entry, nothing else changes. */
  ghost predicate LoggersRegistered(project: string, before: map<string, LoggerSpec>, after: map<string, LoggerSpec>,
                                    names: seq<string>, level: string, kinds: seq<string>)
  {
    && after.Keys == before.Keys + (set n | n in names)
    && (forall n :: n in names ==> RegisteredAs(after[n], DerivedAlias(project, n), level, kinds))
    && (forall k :: k in before && k !in names ==> after[k] == before[k])
  }

  /** Handlers only grow, and every new one was created at `level`. */
  ghost predicate HandlersAdded(before: map<string, HandlerSpec>, after: map<string, HandlerSpec>, level: string)
  {
    && Grows(before, after)
    && (forall h :: h in after && h !in before ==> CreatedFor(after[h], level))
  }

  /** Names of the handlers requested for the aliases of `names`. */
  function RequestedFor(project: string, names: seq<string>, kinds: seq<string>): set<string>
    decreases |names|
  {
    if |names| == 0 then {}
    else RequestedHandlers(DerivedAlias(project, names[0]), kinds) + RequestedFor(project, names[1..], kinds)
  }

  lemma {:induction false} RequestedForContains(project: string, names: seq<string>, kinds: seq<string>,
                                                n: string, h: string)
    requires n in names && h in RequestedHandlers(DerivedAlias(project, n), kinds)
    ensures h in RequestedFor(project, names, kinds)
    decreases |names|
  {
    if names[0] != n {
      assert n in names[1..];
      RequestedForContains(project, names[1..], kinds, n, h);
    }
  }

  /** The handler keys grow by exactly the requested names. */
  ghost predicate HandlerKeysCreated(project: string, before: map<string, HandlerSpec>, after: map<string, HandlerSpec>,
                                     names: seq<string>, kinds: seq<string>)
  {
    after.Keys == before.Keys + RequestedFor(project, names, kinds)
  }

  /** Each requested handler that was missing is added as created for its
      alias at `level`. */
  ghost predicate HandlerEntriesCreated(opts: Options, before: map<string, HandlerSpec>, after: map<string, HandlerSpec>,
                                        names: seq<string>, level: string, kinds: seq<string>)
  {
    forall n, h :: n in names && h in RequestedHandlers(DerivedAlias(opts.projectName, n), kinds) && h !in before
      ==> h in after && after[h] == CreatedHandler(opts, DerivedAlias(opts.projectName, n), level, h)
  }

  /** Exactly the requested handlers that were missing are added, each as
      created for its alias at `level`. */
  ghost predicate HandlersCreated(opts: Options, before: map<string, HandlerSpec>, after: map<string, HandlerSpec>,
                                  names: seq<string>, level: string, kinds: seq<string>)
  {
    && HandlerKeysCreated(opts.projectName, before, after, names, kinds)
    && HandlerEntriesCreated(opts, before, after, names, level, kinds)
  }

  /** The file and callback handlers the loggers `names` use exist. */
  ghost predicate HandlersResolved(b: Builder, names: seq<string>)
  {
    forall n, h :: n in names && n in b.loggers && h in b.loggers[n].handlers && h != ConsoleName ==> h in b.handlers
  }

  lemma AddLoggerRegisters(b: Builder, name: string, level: string, kinds: seq<string>)
    ensures var r := AddLogger(b, name, level, kinds);
            && MappingRegistered(b.opts.projectName, b.mapping, r.mapping, [name])
            && LoggersRegistered(b.opts.projectName, b.loggers, r.loggers, [name], level, kinds)
            && HandlersAdded(b.handlers, r.handlers, level)
            && HandlersResolved(r, [name])
  {
    assert (set n | n in [name]) == {name};
  }

  lemma AddLoggerCreates(b: Builder, name: string, level: string, kinds: seq<string>)
    ensures HandlersCreated(b.opts, b.handlers, AddLogger(b, name, level, kinds).handlers, [name], level, kinds)
  {
    assert [name][1..] == [];
    assert RequestedFor(b.opts.projectName, [name], kinds) ==
           RequestedHandlers(DerivedAlias(b.opts.projectName, name), kinds);
  }

  lemma MappingCompose(project: string, m0: map<string, string>, m1: map<string, string>, m2: map<string, string>,
                       x: string, rest: seq<string>)
    requires MappingRegistered(project, m0, m1, [x]) && MappingRegistered(project, m1, m2, rest)
    ensures MappingRegistered(project, m0, m2, [x] + rest)
  {
    assert (set n | n in [x] + rest) == (set n | n in [x]) + (set n | n in rest);
  }

  lemma LoggersCompose(project: string, m0: map<string, LoggerSpec>, m1: map<string, LoggerSpec>,
                       m2: map<string, LoggerSpec>, x: string, rest: seq<string>, level: string, kinds: seq<string>)
    requires LoggersRegistered(project, m0, m1, [x], level, kinds)
    requires LoggersRegistered(project, m1, m2, rest, level, kinds)
    ensures LoggersRegistered(project, m0, m2, [x] + rest, level, kinds)
  {
    assert (set n | n in [x] + rest) == (set n | n in [x]) + (set n | n in rest);
  }

  lemma RequestedForCons(project: string, x: string, rest: seq<string>, kinds: seq<string>)
    ensures RequestedFor(project, [x], kinds) == RequestedHandlers(DerivedAlias(project, x), kinds)
    ensures RequestedFor(project, [x] + rest, kinds) ==
              RequestedHandlers(DerivedAlias(project, x), kinds) + RequestedFor(project, rest, kinds)
  {
    assert ([x] + rest)[0] == x && ([x] + rest)[1..] == rest && [x][1..] == [];
  }

  lemma CreatedComposeAt(opts: Options, h0: map<string, HandlerSpec>, h1: map<string, HandlerSpec>,
                         h2: map<string, HandlerSpec>, x: string, rest: seq<string>, level: string, kinds: seq<string>,
                         n: string, h: string)
    requires h1.Keys == h0.Keys + RequestedHandlers(DerivedAlias(opts.projectName, x), kinds)
    requires HandlerEntriesCreated(opts, h0, h1, [x], level, kinds) && Grows(h1, h2)
    requires HandlerEntriesCreated(opts, h1, h2, rest, level, kinds)
    requires n in [x] + rest && h in RequestedHandlers(DerivedAlias(opts.projectName, n), kinds) && h !in h0
    ensures h in h2 && h2[h] == CreatedHandler(opts, DerivedAlias(opts.projectName, n), level, h)
  {
    var ax := DerivedAlias(opts.projectName, x);
    if h in h1 {
      assert h in RequestedHandlers(ax, kinds);
      RequestedByOneAlias(ax, DerivedAlias(opts.projectName, n), kinds, h);
      assert x in [x];
    } else {
      assert n != x;
      assert n in rest;
    }
  }

  lemma EntriesCompose(opts: Options, h0: map<string, HandlerSpec>, h1: map<string, HandlerSpec>,
                       h2: map<string, HandlerSpec>, x: string, rest: seq<string>, level: string, kinds: seq<string>)
    requires h1.Keys == h0.Keys + RequestedHandlers(DerivedAlias(opts.projectName, x), kinds)
    requires HandlerEntriesCreated(opts, h0, h1, [x], level, kinds) && Grows(h1, h2)
    requires HandlerEntriesCreated(opts, h1, h2, rest, level, kinds)
    ensures HandlerEntriesCreated(opts, h0, h2, [x] + rest, level, kinds)
  {
    forall n, h | n in [x] + rest && h in RequestedHandlers(DerivedAlias(opts.projectName, n), kinds) && h !in h0
      ensures h in h2 && h2[h] == CreatedHandler(opts, DerivedAlias(opts.projectName, n), level, h)
    {
      CreatedComposeAt(opts, h0, h1, h2, x, rest, level, kinds, n, h);
    }
  }

  lemma CreatedCompose(opts: Options, h0: map<string, HandlerSpec>, h1: map<string, HandlerSpec>,
                       h2: map<string, HandlerSpec>, x: string, rest: seq<string>, level: string, kinds: seq<string>)
    requires HandlersCreated(opts, h0, h1, [x], level, kinds) && Grows(h0, h1)
    requires HandlersCreated(opts, h1, h2, rest, level, kinds) && Grows(h1, h2)
    ensures HandlersCreated(opts, h0, h2, [x] + rest, level, kinds)
  {
    RequestedForCons(opts.projectName, x, rest, kinds);
    EntriesCompose(opts, h0, h1, h2, x, rest, level, kinds);
  }

  lemma ResolvedCompose(mid: Builder, r: Builder, x: string, rest: seq<string>)
    requires x in mid.loggers && HandlersResolved(mid, [x]) && HandlersResolved(r, rest)
    requires Grows(mid.handlers, r.handlers)
    requires forall k :: k in mid.loggers && k !in rest ==> k in r.loggers && r.loggers[k] == mid.loggers[k]
    ensures HandlersResolved(r, [x] + rest)
  {
    forall n, h | n in [x] + rest && n in r.loggers && h in r.loggers[n].handlers && h != ConsoleName
      ensures h in r.handlers
    {
      if n !in rest {
        assert n == x;
        assert h in mid.handlers;
      }
    }
  }

  /** `add_loggers(names, level, handlers)`: registers each name in turn; a
      name given twice is simply registered again with the same entry. */
  function AddLoggers(b: Builder, names: seq<string>, level: string := "INFO", kinds: seq<string> := []): (r: Builder)
    ensures r.opts == b.opts
    ensures MappingRegistered(b.opts.projectName, b.mapping, r.mapping, names)
    ensures LoggersRegistered(b.opts.projectName, b.loggers, r.loggers, names, level, kinds)
    ensures HandlersAdded(b.handlers, r.handlers, level)
    ensures HandlersCreated(b.opts, b.handlers, r.handlers, names, level, kinds)
    ensures HandlersResolved(r, names)
    decreases |names|
  {
    if |names| == 0 then
      assert (set n | n in names) == {};
      b
    else
      var mid := AddLogger(b, names[0], level, kinds);
      var r := AddLoggers(mid, names[1..], level, kinds);
      AddLoggerRegisters(b, names[0], level, kinds);
      AddLoggerCreates(b, names[0], level, kinds);
      assert names == [names[0]] + names[1..];
      MappingCompose(b.opts.projectName, b.mapping, mid.mapping, r.mapping, names[0], names[1..]);
      LoggersCompose(b.opts.projectName, b.loggers, mid.loggers, r.loggers, names[0], names[1..], level, kinds);
      ResolvedCompose(mid, r, names[0], names[1..]);
      CreatedCompose(b.opts, b.handlers, mid.handlers, r.handlers, names[0], names[1..], level, kinds);
      r
  }

  lemma {:induction false} NothingRequested(project: string, names: seq<string>, kinds: seq<string>)
    requires "file" !in kinds && "custom" !in kinds
    ensures RequestedFor(project, names, kinds) == {}
    decreases |names|
  {
    if |names| > 0 {
      NothingRequested(project, names[1..], kinds);
    }
  }

  /** Without "file" or "custom" among the kinds (in particular with the
      default of none), `add_loggers` leaves the handlers as they were. */
  lemma NoHandlerKindsKeepHandlers(b: Builder, names: seq<string>, level: string, kinds: seq<string>)
    requires "file" !in kinds && "custom" !in kinds
    ensures AddLoggers(b, names, level, kinds).handlers == b.handlers
  {
    NothingRequested(b.opts.projectName, names, kinds);
  }

  /** The handlers of the root logger are there from construction on, as
      construction made them. */
  ghost predicate RootHandlersFixed(b: Builder)
  {
    && ConsoleName in b.handlers
    && b.handlers[ConsoleName] == ConsoleHandler(b.opts)
    && RootFileHandlerName(b.opts) in b.handlers
    && b.handlers[RootFileHandlerName(b.opts)] == RootFileHandler(b.opts)
  }

  /** Every logger entry is ordered, resolved and propagates iff it has no
      handlers. */
  ghost predicate LoggersWf(b: Builder)
  {
    && b.loggers.Keys <= b.mapping.Keys
    && (forall n :: n in b.loggers ==> OrderedHandlers(b.mapping[n], b.loggers[n].handlers))
    && (forall n :: n in b.loggers ==> (b.loggers[n].propagate <==> |b.loggers[n].handlers| == 0))
    && (forall n, h :: n in b.loggers && h in b.loggers[n].handlers ==> h in b.handlers)
  }

  /** Every handler uses a defined formatter and the channel filter. */
  ghost predicate HandlerSpecsWf(b: Builder)
  {
    && (forall h :: h in b.handlers ==> b.handlers[h].formatter in Formatters)
    && (forall h :: h in b.handlers ==> b.handlers[h].filters == [ChannelFilterName])
  }

  /** The invariant every reachable builder keeps. */
  ghost predicate Wf(b: Builder)
  {
    && RootHandlersFixed(b)
    && b.opts.projectName in b.mapping
    && Consistent(b.opts.projectName, b.mapping)
    && LoggersWf(b)
    && HandlerSpecsWf(b)
  }

  lemma NewIsWf(opts: Options)
    ensures Wf(New(opts))
  {
  }

  lemma AddLoggerKeepsLoggersWf(b: Builder, name: string, level: string, kinds: seq<string>)
    requires LoggersWf(b)
    requires ConsoleName in b.handlers
    ensures LoggersWf(AddLogger(b, name, level, kinds))
  {
    var r := AddLogger(b, name, level, kinds);
    forall n | n in r.loggers
      ensures OrderedHandlers(r.mapping[n], r.loggers[n].handlers)
      ensures r.loggers[n].propagate <==> |r.loggers[n].handlers| == 0
      ensures forall h :: h in r.loggers[n].handlers ==> h in r.handlers
    {
      if n != name {
        assert r.loggers[n] == b.loggers[n];
        assert r.mapping[n] == b.mapping[n];
      }
    }
  }

  lemma AddLoggerKeepsHandlerSpecsWf(b: Builder, name: string, level: string, kinds: seq<string>)
    requires HandlerSpecsWf(b)
    ensures HandlerSpecsWf(AddLogger(b, name, level, kinds))
  {
    var r := AddLogger(b, name, level, kinds);
    var alias := DerivedAlias(b.opts.projectName, name);
    assert forall h :: h in r.handlers && h !in b.handlers ==> CreatedFor(CreatedHandler(b.opts, alias, level, h), level);
  }

  lemma AddLoggerPreservesWf(b: Builder, name: string, level: string, kinds: seq<string>)
    requires Wf(b)
    ensures Wf(AddLogger(b, name, level, kinds))
  {
    var r := AddLogger(b, name, level, kinds);
    assert RootHandlersFixed(r);
    assert Consistent(r.opts.projectName, r.mapping);
    AddLoggerKeepsHandlerSpecsWf(b, name, level, kinds);
    AddLoggerKeepsLoggersWf(b, name, level, kinds);
  }

  lemma {:induction false} AddLoggersPreservesWf(b: Builder, names: seq<string>, level: string, kinds: seq<string>)
    requires Wf(b)
    ensures Wf(AddLoggers(b, names, level, kinds))
    decreases |names|
  {
    if |names| > 0 {
      AddLoggerPreservesWf(b, names[0], level, kinds);
      AddLoggersPreservesWf(AddLogger(b, names[0], level, kinds), names[1..], level, kinds);
    }
  }

  /** `get_logging_config`: a snapshot of the current maps, with the channel
      mapping handed to the filter's configuration. */
  function GetLoggingConfig(b: Builder): (c: LoggingConfigDict)
    ensures c.version == 1 && !c.disableExistingLoggers
    ensures c.handlers == b.handlers && c.loggers == b.loggers
    ensures c.filters.Keys == {ChannelFilterName}
    ensures c.filters[ChannelFilterName].factory == ProviderModule + ".LoggingChannelFilter"
    ensures c.filters[ChannelFilterName].projectName == b.opts.projectName
    ensures c.filters[ChannelFilterName].channelMapping == b.mapping
    ensures c.root.handlers == [ConsoleName, FileHandlerName(b.opts.projectName)]
    ensures c.root.level == RootLevel(b.opts.debug)
    ensures c.formatters == Formatters
    ensures Wf(b) ==> Closed(c)
  {
    LoggingConfigDict(
      1,
      false,
      map[ChannelFilterName := FilterSpec(ProviderModule + ".LoggingChannelFilter", b.opts.projectName, b.mapping)],
      Formatters,
      b.handlers,
      b.loggers,
      RootSpec(RootLevel(b.opts.debug), RootHandlers(b.opts)))
  }

  /** Registering a name again replaces its logger entry, while a handler the
      first registration created keeps that registration's level. */
  lemma ReregistrationOverwrites(b: Builder, n: string, level1: string, kinds1: seq<string>,
                                 level2: string, kinds2: seq<string>)
    ensures var alias := DerivedAlias(b.opts.projectName, n);
            var b1 := AddLoggers(b, [n], level1, kinds1);
            var b2 := AddLoggers(b1, [n], level2, kinds2);
            && RegisteredAs(b2.loggers[n], alias, level2, kinds2)
            && Grows(b1.handlers, b2.handlers)
            && ("file" in kinds1 && FileHandlerName(alias) !in b.handlers ==>
                  b2.handlers[FileHandlerName(alias)].level == level1)
            && ("custom" in kinds1 && CustomHandlerName(alias) !in b.handlers ==>
                  b2.handlers[CustomHandlerName(alias)].level == level1)
  {
    var alias := DerivedAlias(b.opts.projectName, n);
    var b1 := AddLoggers(b, [n], level1, kinds1);
    assert n in [n];
    HandlerNamesDistinct(alias, alias);
  }

  /** The order and repetition of the requested kinds never matter. */
  lemma {:induction false} KindOrderIrrelevant(b: Builder, names: seq<string>, level: string,
                                               k1: seq<string>, k2: seq<string>)
    requires forall w :: w in ["console", "file", "custom"] ==> (w in k1 <==> w in k2)
    ensures AddLoggers(b, names, level, k1) == AddLoggers(b, names, level, k2)
    decreases |names|
  {
    assert "console" in ["console", "file", "custom"];
    assert "file" in ["console", "file", "custom"];
    assert "custom" in ["console", "file", "custom"];
    if |names| > 0 {
      assert AddLogger(b, names[0], level, k1) == AddLogger(b, names[0], level, k2);
      KindOrderIrrelevant(AddLogger(b, names[0], level, k1), names[1..], level, k1, k2);
    }
  }
}
