/**
 * The situations of the package's tests, stated against the model: each method
 * builds a fresh file system, logger and dependencies, calls the operation
 * and returns what the test inspects afterwards.
 */
module VmnetScenarios {
  import opened Wrappers
  import opened FileSystem
  import opened Logging
  import opened NetworkConfig
  import opened Prerequisites
  import opened Vmnet

  const MockConfigFile: string := "mock_config_file"

  method NewConfig(configPath: string, files: Files, binariesInstalled: bool, sudoersInstalled: bool, format: Format)
    returns (c: DefaultLimaConfig)
    requires WellFormed(format)
    ensures fresh(c) && fresh(c.fs) && fresh(c.l) && fresh(c.binaries) && fresh(c.sudoers) && fresh(c.binaries.recorder)
    ensures c.Valid() && c.configPath == configPath && c.format == format
    ensures c.fs.files == files && c.fs.readOnly == {} && c.l.events == []
    ensures c.binaries.installed == binariesInstalled && c.sudoers.installed == sudoersInstalled
    ensures c.binaries.recorder.calls == []
  {
    var recorder := new CallRecorder();
    var binaries := new Dependency(Binaries, recorder, binariesInstalled);
    var sudoers := new Dependency(Sudoers, recorder, sudoersInstalled);
    var fs := new MemFs(files, {});
    var l := new Logger();
    c := new DefaultLimaConfig(configPath, binaries, sudoers, fs, l, format);
  }

  /** Appending to a missing file succeeds and the file then holds exactly the block. */
  method AppendToMissingFile(format: Format) returns (err: Option<FsError>, content: Result<seq<byte>, FsError>)
    requires WellFormed(format)
    ensures err == None
    ensures content == Success(format.text)
  {
    var c := NewConfig("", map[], false, false, format);
    err := c.AppendNetworkConfiguration(MockConfigFile);
    content := c.fs.ReadFile(MockConfigFile);
  }

  /**
   * The gate on every combination of answers: true only when both are
   * installed, and the sudoers dependency is asked only after the binaries
   * said yes.
   */
  method ShouldAddNetworks(binariesInstalled: bool, sudoersInstalled: bool, format: Format)
    returns (got: bool, calls: seq<DependencyId>)
    requires WellFormed(format)
    ensures got == (binariesInstalled && sudoersInstalled)
    ensures calls == if binariesInstalled then [Binaries, Sudoers] else [Binaries]
  {
    var c := NewConfig("", map[], binariesInstalled, sudoersInstalled, format);
    got := c.ShouldAddNetworksConfig();
    calls := c.binaries.recorder.calls;
  }

  /** The default configuration file holding the block is installed, without any log. */
  method InstalledOnCanonicalFile(configPath: string, format: Format) returns (got: bool, events: seq<LogEvent>)
    requires WellFormed(format)
    ensures got && events == []
  {
    var c := NewConfig(configPath, map[configPath := format.text], false, false, format);
    got := c.Installed();
    events := c.l.events;
  }

  /**
   * With both prerequisites installed and an empty configuration file,
   * installing succeeds after asking both dependencies, and the file is then
   * recognised as installed.
   */
  method InstallOnEmptyFile(configPath: string, format: Format)
    returns (err: Option<InstallError>, calls: seq<DependencyId>, installedAfter: bool)
    requires WellFormed(format)
    ensures err == None && calls == [Binaries, Sudoers] && installedAfter
  {
    var c := NewConfig(configPath, map[configPath := []], true, true, format);
    err := c.Install();
    calls := c.binaries.recorder.calls;
    InstallThenInstalled(format, map[configPath := []], {}, configPath);
    installedAfter := c.Installed();
  }

  /**
   * Without the binaries, installing refuses with the prerequisites error and
   * its fixed text, never asks the sudoers dependency and creates no file.
   */
  method InstallWithoutBinaries(configPath: string, sudoersInstalled: bool, format: Format)
    returns (err: Option<InstallError>, calls: seq<DependencyId>, files: Files)
    requires WellFormed(format)
    ensures err == Some(PrerequisitesMissing) && calls == [Binaries] && files == map[]
    ensures ErrorText(err.value) == Some(PrerequisitesMissingMessage)
  {
    var c := NewConfig(configPath, map[], false, sudoersInstalled, format);
    err := c.Install();
    calls := c.binaries.recorder.calls;
    files := c.fs.files;
  }
}
