/** How the channel filter rebuilt from the produced configuration relates
    to the aliases the builder computed while registering loggers. */
module Agreement {
  import opened Wrappers
  import opened Names
  import opened Aliases
  import opened ConfigTypes
  import opened ChannelFilters
  import opened Provider

  /** The filter the logging dispatcher constructs from the `filters` entry. */
  function ConfiguredFilter(c: LoggingConfigDict): ChannelFilter
    requires ChannelFilterName in c.filters
    requires c.filters[ChannelFilterName].factory == ProviderModule + ".LoggingChannelFilter"
  {
    var f := c.filters[ChannelFilterName];
    NewChannelFilter(f.projectName, Some(f.channelMapping))
  }

  /** After `add_loggers`, the configured filter gives every registered name
      (other than the empty name and "root") the alias the builder computed
      for it, because an exact key is the longest possible match. */
  lemma RegisteredNamesAgree(b: Builder, names: seq<string>, level: string, kinds: seq<string>, n: string)
    requires n in names && n != "" && n != "root"
    ensures AliasFor(ConfiguredFilter(GetLoggingConfig(AddLoggers(b, names, level, kinds))), n)
            == DerivedAlias(b.opts.projectName, n)
  {
    var r := AddLoggers(b, names, level, kinds);
    FilterRegisteredName(r.opts.projectName, r.mapping, n);
  }

  /** For any name, the configured filter of a reachable builder agrees with
      the builder's rule, except below the project where no registration
      longer than the project name applies: there the project's own entry
      answers with the project name. */
  lemma ConfiguredFilterAgreement(b: Builder, n: string)
    requires Wf(b) && n != "" && n != "root"
    ensures var pn := b.opts.projectName;
            AliasFor(ConfiguredFilter(GetLoggingConfig(b)), n) ==
              if StartsWith(n, pn + ".") && LongestMatch(b.mapping, n) == Some(pn)
              then pn
              else DerivedAlias(pn, n)
  {
    var c := GetLoggingConfig(b);
    assert ConfiguredFilter(c) == ChannelFilter(b.opts.projectName, b.mapping);
    FilterAgreesWithBuilder(b.opts.projectName, b.mapping, n);
  }

  /** Right after construction, every module below a dot-free project is
      shown under the project name by the configured filter, although the
      builder's rule would name its sub-package. */
  lemma ProjectEntryShadowsSubpackages(opts: Options, sub: string)
    requires '.' !in opts.projectName && '.' !in sub
    ensures var pn := opts.projectName;
            var n := pn + "." + sub;
            && AliasFor(ConfiguredFilter(GetLoggingConfig(New(opts))), n) == pn
            && DerivedAlias(pn, n) == sub
  {
    var pn := opts.projectName;
    var n := pn + "." + sub;
    ProjectModuleAlias(pn, sub, "");
    assert n[..|pn| + 1] == pn + ".";
    assert n[|pn|] == '.';
    SoleProjectEntry(pn, n);
    assert ConfiguredFilter(GetLoggingConfig(New(opts))) == ChannelFilter(pn, map[pn := pn]);
  }

  /** Registering "root" or the empty name records the builder's alias for
      it, but the filter always shows such records under the project. */
  lemma RootAndEmptyNamesDisagree(opts: Options, level: string, kinds: seq<string>)
    requires opts.projectName != "root" && opts.projectName != ""
    ensures var b := AddLoggers(New(opts), ["root", ""], level, kinds);
            && b.mapping["root"] == "root"
            && b.mapping[""] == ""
            && AliasFor(ConfiguredFilter(GetLoggingConfig(b)), "root") == opts.projectName
            && AliasFor(ConfiguredFilter(GetLoggingConfig(b)), "") == opts.projectName
  {
    DotFreeAlias(opts.projectName, "root");
    DotFreeAlias(opts.projectName, "");
  }
}
