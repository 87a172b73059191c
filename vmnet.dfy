/**
 * The dependency that adds Finch's shared network to Lima's default
 * configuration file (`defaultLimaConfig` in package vmnet).
 */
module Vmnet {
  import opened Wrappers
  import opened FileSystem
  import opened Logging
  import opened NetworkConfig
  import opened Prerequisites

  /** The text of the error `Install` returns when the gate does not pass. */
  const PrerequisitesMissingMessage: string :=
    "skipping installation of network configuration because pre-requisites are missing"

  datatype InstallError =
    | PrerequisitesMissing
    | WriteFailed(cause: FsError)   // the file system's error, passed through unwrapped

  /** The text `Install`'s error prints; a file-system error's own text is not modelled. */
  function ErrorText(err: InstallError): (text: Option<string>)
    ensures text.Some? <==> err.PrerequisitesMissing?
    ensures err.PrerequisitesMissing? ==> text == Some(PrerequisitesMissingMessage)
  {
    match err
    case PrerequisitesMissing => Some(PrerequisitesMissingMessage)
    case WriteFailed(_) => None
  }

  /**
   * Appending the canonical block to a writable, missing or empty file leaves
   * a file the query recognises.
   */
  lemma InstallThenInstalled(format: Format, files: Files, readOnly: set<string>, path: string)
    requires WellFormed(format)
    requires path !in readOnly
    requires path !in files || files[path] == []
    ensures Append(files, readOnly, path, format.text).Success?
    ensures NetworkSectionVerdict(format, Append(files, readOnly, path, format.text).value, path) == Verdict(true, [])
  {
  }

  class DefaultLimaConfig {
    /** Lima's default configuration file, as resolved from the Finch path. */
    const configPath: string
    const binaries: Dependency
    const sudoers: Dependency
    const fs: MemFs
    const l: Logger
    const format: Format

    /** The wiring every configured instance has. */
    predicate Valid()
    {
      WellFormed(format) &&
      binaries.id == Binaries && sudoers.id == Sudoers &&
      binaries.recorder == sudoers.recorder
    }

    constructor (configPath0: string, binaries0: Dependency, sudoers0: Dependency, fs0: MemFs, l0: Logger, format0: Format)
      requires WellFormed(format0)
      requires binaries0.id == Binaries && sudoers0.id == Sudoers
      requires binaries0.recorder == sudoers0.recorder
      ensures Valid()
      ensures configPath == configPath0 && binaries == binaries0 && sudoers == sudoers0
      ensures fs == fs0 && l == l0 && format == format0
    {
      configPath := configPath0;
      binaries := binaries0;
      sudoers := sudoers0;
      fs := fs0;
      l := l0;
      format := format0;
    }

    /** Whether `path` holds exactly Finch's network section; logs why not. */
    method VerifyConfigHasNetworkSection(path: string) returns (ok: bool)
      modifies l
      ensures ok == NetworkSectionVerdict(format, fs.files, path).installed
      ensures l.events == old(l.events) + NetworkSectionVerdict(format, fs.files, path).log
    {
      var read := fs.ReadFile(path);
      if read.Failure? {
        l.Debugf(ConfigNotFound(read.error));
        return false;
      }
      var decoded := format.parse(read.value);
      if decoded.None? {
        l.Errorf(UnmarshalFailed);
        return false;
      }
      var networks := decoded.value;
      if |networks| != 1 {
        l.Errorf(WrongNetworkCount(|networks|));
        return false;
      }
      ok := networks[0] == format.entry;
    }

    /** Appends the canonical block to `path`, creating the file when missing. */
    method AppendNetworkConfiguration(path: string) returns (err: Option<FsError>)
      modifies fs
      ensures match Append(old(fs.files), fs.readOnly, path, format.text)
              case Success(after) => err == None && fs.files == after
              case Failure(e) => err == Some(e) && fs.files == old(fs.files)
    {
      err := fs.AppendFile(path, format.text);
    }

    /** Whether both prerequisites are installed, asking the binaries first. */
    method ShouldAddNetworksConfig() returns (ok: bool)
      requires Valid()
      modifies binaries.recorder
      ensures ok == Gate(binaries.installed, sudoers.installed).proceed
      ensures binaries.recorder.calls ==
        old(binaries.recorder.calls) + Gate(binaries.installed, sudoers.installed).queried
    {
      ok := binaries.Installed();
      if ok {
        ok := sudoers.Installed();
      }
    }

    method Installed() returns (ok: bool)
      modifies l
      ensures ok == NetworkSectionVerdict(format, fs.files, configPath).installed
      ensures l.events == old(l.events) + NetworkSectionVerdict(format, fs.files, configPath).log
    {
      ok := VerifyConfigHasNetworkSection(configPath);
    }

    /**
     * Appends the canonical block to the default configuration file when both
     * prerequisites are installed; otherwise refuses without touching the file.
     */
    method Install() returns (err: Option<InstallError>)
      requires Valid()
      modifies binaries.recorder, fs
      ensures binaries.recorder.calls ==
        old(binaries.recorder.calls) + Gate(binaries.installed, sudoers.installed).queried
      ensures !Gate(binaries.installed, sudoers.installed).proceed ==>
        err == Some(PrerequisitesMissing) && fs.files == old(fs.files)
      ensures Gate(binaries.installed, sudoers.installed).proceed ==>
        match Append(old(fs.files), fs.readOnly, configPath, format.text)
        case Success(after) => err == None && fs.files == after
        case Failure(e) => err == Some(WriteFailed(e)) && fs.files == old(fs.files)
    {
      var ready := ShouldAddNetworksConfig();
      if !ready {
        return Some(PrerequisitesMissing);
      }
      var written := AppendNetworkConfiguration(configPath);
      err := if written.Some? then Some(WriteFailed(written.value)) else None;
    }

    /** Appending to the Lima configuration never needs elevated privilege. */
    function RequiresRoot(): (r: bool)
      ensures !r
    {
      false
    }
  }
}
