/**
 * The `networks` section of Lima's default configuration file and the query
 * that decides whether Finch's shared network is configured there.
 *
 * YAML decoding is a foreign library, so the decoder is a parameter: `Format`
 * bundles it with the canonical block Finch appends and the entry that block
 * decodes to.
 */
module NetworkConfig {
  import opened Wrappers
  import opened FileSystem
  import opened Logging

  /** The identity Finch's network entry carries under the `lima` key. */
  const SharedNetwork: string := "finch-shared"

  /**
   * One element of the `networks` list: the `lima` key (empty when the entry
   * has no such key) and whatever other keys the entry holds.
   */
  datatype NetworkEntry = NetworkEntry(lima: string, attributes: map<string, string>)

  /**
   * The decoder into the `networks` list (None when the bytes do not decode
   * into that shape), the canonical block, and the entry it stands for.
   */
  datatype Format = Format(
    parse: seq<byte> -> Option<seq<NetworkEntry>>,
    text: seq<byte>,
    entry: NetworkEntry)

  /** The one assumption about the decoder: the canonical block decodes to its single entry. */
  predicate WellFormed(format: Format)
  {
    format.parse(format.text) == Some([format.entry]) && format.entry.lima == SharedNetwork
  }

  /** The answer of the query together with what it logged. */
  datatype Verdict = Verdict(installed: bool, log: seq<LogEvent>)

  /**
   * verifyConfigHasNetworkSection: read the file, decode it, insist on exactly
   * one network, and compare that network with the canonical entry. Every
   * failure is folded into `false`; each failure except the last logs once.
   */
  function NetworkSectionVerdict(format: Format, files: Files, path: string): (v: Verdict)
    ensures v.installed <==> path in files && format.parse(files[path]) == Some([format.entry])
    ensures v.installed ==> v.log == []
    ensures |v.log| <= 1
    ensures v.log == [] <==>
      path in files && format.parse(files[path]).Some? && |format.parse(files[path]).value| == 1
  {
    match Read(files, path)
    case Failure(err) => Verdict(false, [LogEvent(Debug, ConfigNotFound(err))])
    case Success(bytes) =>
      match format.parse(bytes)
      case None => Verdict(false, [LogEvent(Error, UnmarshalFailed)])
      case Some(networks) =>
        if |networks| != 1 then Verdict(false, [LogEvent(Error, WrongNetworkCount(|networks|))])
        else
          assert networks == [networks[0]];
          Verdict(networks[0] == format.entry, [])
  }

  /** A file holding exactly the canonical block is recognised, and nothing is logged. */
  lemma CanonicalFileIsRecognised(format: Format, files: Files, path: string)
    requires WellFormed(format)
    requires path in files && files[path] == format.text
    ensures NetworkSectionVerdict(format, files, path) == Verdict(true, [])
  {
  }

  /**
   * A missing file is not installed, and on top of any earlier log the query
   * adds exactly one debug event naming the missing path and no error.
   */
  lemma {:induction false} MissingFileLogsOneDebug(format: Format, files: Files, path: string, prior: seq<LogEvent>)
    requires path !in files
    ensures !NetworkSectionVerdict(format, files, path).installed
    ensures NetworkSectionVerdict(format, files, path).log == [LogEvent(Debug, ConfigNotFound(NotExist(path)))]
    ensures CountLevel(prior + NetworkSectionVerdict(format, files, path).log, Debug) == CountLevel(prior, Debug) + 1
    ensures CountLevel(prior + NetworkSectionVerdict(format, files, path).log, Error) == CountLevel(prior, Error)
  {
    var log := NetworkSectionVerdict(format, files, path).log;
    CountLevelAppend(prior, log, Debug);
    CountLevelAppend(prior, log, Error);
  }

  /** Content that does not decode is not installed and adds exactly one error event. */
  lemma {:induction false} UndecodableFileLogsOneError(format: Format, files: Files, path: string, prior: seq<LogEvent>)
    requires path in files && format.parse(files[path]) == None
    ensures !NetworkSectionVerdict(format, files, path).installed
    ensures NetworkSectionVerdict(format, files, path).log == [LogEvent(Error, UnmarshalFailed)]
    ensures CountLevel(prior + NetworkSectionVerdict(format, files, path).log, Error) == CountLevel(prior, Error) + 1
    ensures CountLevel(prior + NetworkSectionVerdict(format, files, path).log, Debug) == CountLevel(prior, Debug)
  {
    var log := NetworkSectionVerdict(format, files, path).log;
    CountLevelAppend(prior, log, Debug);
    CountLevelAppend(prior, log, Error);
  }

  /**
   * A `networks` list of any length other than one is not installed, and the
   * one error event carries the length of the whole list.
   */
  lemma {:induction false} WrongCountLogsCount(format: Format, files: Files, path: string, networks: seq<NetworkEntry>, prior: seq<LogEvent>)
    requires path in files && format.parse(files[path]) == Some(networks)
    requires |networks| != 1
    ensures !NetworkSectionVerdict(format, files, path).installed
    ensures NetworkSectionVerdict(format, files, path).log == [LogEvent(Error, WrongNetworkCount(|networks|))]
    ensures CountLevel(prior + NetworkSectionVerdict(format, files, path).log, Error) == CountLevel(prior, Error) + 1
    ensures CountLevel(prior + NetworkSectionVerdict(format, files, path).log, Debug) == CountLevel(prior, Debug)
  {
    var log := NetworkSectionVerdict(format, files, path).log;
    CountLevelAppend(prior, log, Debug);
    CountLevelAppend(prior, log, Error);
  }

  /**
   * Two entries count as two whatever their identities: Finch's entry next to
   * an entry without the `lima` key is reported as 2, so the count is of all
   * entries, not of those carrying the identity.
   */
  lemma SecondForeignEntryCountsTwo(format: Format, files: Files, path: string, shared: NetworkEntry, other: NetworkEntry)
    requires path in files && format.parse(files[path]) == Some([shared, other])
    ensures NetworkSectionVerdict(format, files, path) == Verdict(false, [LogEvent(Error, WrongNetworkCount(2))])
  {
  }

  /**
   * A single entry that is not the canonical one (a renamed identity among
   * others) is rejected without any log.
   */
  lemma RenamedEntryIsRejected(format: Format, files: Files, path: string, entry: NetworkEntry)
    requires WellFormed(format)
    requires path in files && format.parse(files[path]) == Some([entry])
    requires entry.lima != SharedNetwork
    ensures NetworkSectionVerdict(format, files, path) == Verdict(false, [])
  {
  }
}
