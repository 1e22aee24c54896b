/** `LoggingChannelFilter`: tags each record with its channel alias and lets
    every record through. */
module ChannelFilters {
  import opened Wrappers
  import opened Aliases

  datatype ChannelFilter = ChannelFilter(projectName: string, channelMapping: map<string, string>)

  /** The filter's constructor: a missing mapping means the empty one. */
  function NewChannelFilter(projectName: string, channelMapping: Option<map<string, string>>): (f: ChannelFilter)
    ensures f.projectName == projectName
    ensures channelMapping.None? ==> f.channelMapping == map[]
    ensures channelMapping.Some? ==> f.channelMapping == channelMapping.value
  {
    ChannelFilter(projectName, if channelMapping.Some? then channelMapping.value else map[])
  }

  /** The record fields the model keeps; `channel` is the attribute the
      filter attaches (`logging_channel`). */
  datatype LogRecord = LogRecord(name: string, levelName: string, message: string, channel: Option<string>)

  function AliasFor(f: ChannelFilter, loggerName: string): string
  {
    FilterAlias(f.projectName, f.channelMapping, loggerName)
  }

  /** `filter(record)`: always keeps the record, and the only change to it is
      the channel attribute. */
  function Filter(f: ChannelFilter, rec: LogRecord): (r: (bool, LogRecord))
    ensures r.0
    ensures r.1.channel == Some(AliasFor(f, rec.name))
    ensures r.1.(channel := rec.channel) == rec
  {
    (true, rec.(channel := Some(AliasFor(f, rec.name))))
  }

  /** Filtering a record again changes nothing further. */
  lemma FilterIdempotent(f: ChannelFilter, rec: LogRecord)
    ensures Filter(f, Filter(f, rec).1) == Filter(f, rec)
  {
  }

  /** Root records and records without a name are shown under the project. */
  lemma RootRecordsUseProject(f: ChannelFilter, rec: LogRecord)
    requires rec.name == "" || rec.name == "root"
    ensures Filter(f, rec).1.channel == Some(f.projectName)
  {
  }
}
