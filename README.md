# Finch vmnet: the Lima network-configuration dependency

Finch runs its containers in a Lima virtual machine. Lima's default configuration file can carry a `networks` list. The vmnet package provides a dependency, `defaultLimaConfig`, that makes sure this list holds Finch's shared network. The dependency has the usual three operations:

- `Installed()` asks whether the file already holds exactly Finch's network section (`verifyConfigHasNetworkSection`).
- `Install()` appends the canonical block (`appendNetworkConfiguration`). It does so only when two other dependencies, the vmnet binaries and the sudoers file, both say they are installed (`shouldAddNetworksConfig`).
- `RequiresRoot()` is always false.

The implementation file is not part of this model. Its behaviour is taken from the package's test file, `pkg/dependency/vmnet/update_network_lima_config_unix_test.go`, which pins it down case by case.

The model holds explicit state:

- `FileSystem`: the afero file system, as a map from path to bytes. It also has a set of paths that refuse to be opened for writing. `Read` and `Append` are its specification. `MemFs` is the object the operations change in place.
- `Logging`: the logger, as a trace of events. Each event has a level (`Debugf` or `Errorf`) and a tagged message; the count of the wrong-length case is carried as a payload. `CountLevel` is what a strict logger mock counts.
- `NetworkConfig`: the `networks` entries and the query. The YAML decoder, the canonical block and the entry it decodes to are injected together as a `Format`. The only assumption made about the decoder is `WellFormed`: the canonical block decodes to exactly its one entry, and that entry's `lima` key is `finch-shared`. `NetworkSectionVerdict` gives the query's answer and its log as a function of the files.
- `Prerequisites`: the two dependencies. Each answers from its own state and records every question on a shared `CallRecorder`, which plays the role of the gomock controller, so the order of questions can be stated. `Gate` specifies the short-circuit conjunction.
- `Vmnet`: the `DefaultLimaConfig` class. Its methods are proved against the functions above.
- `VmnetScenarios`: the situations of the class-level tests. Each method builds fresh objects, calls the operation and returns what the test inspects.

One point of the model follows directly from the tests: the count of networks is of all entries. The test at lines 69-80 expects 2 for one `lima: finch-shared` entry and one `not-lima` entry (`SecondForeignEntryCountsTwo`).

One point is a modelling choice: `Append` assumes append-mode concatenation. The block follows the old content and no separator is inserted, because no test pins down appending to a non-empty file.

## Model

| member | source | states |
|---|---|---|
| `NetworkConfig.NetworkSectionVerdict` | pkg/dependency/vmnet/update_network_lima_config_unix_test.go:34-90 | The query answers true exactly when the file exists and decodes to a one-entry list equal to the canonical entry. A true answer logs nothing. At most one event is logged. Nothing is logged exactly when the file decodes to a list of length one. |
| `NetworkConfig.CanonicalFileIsRecognised` | pkg/dependency/vmnet/update_network_lima_config_unix_test.go:34-41 | A file holding exactly the canonical block is recognised and nothing is logged, as the happy path's strict logger mock requires. |
| `NetworkConfig.MissingFileLogsOneDebug` | pkg/dependency/vmnet/update_network_lima_config_unix_test.go:42-54 | A missing file gives false. The log is one debug event naming the missing path. Added to any earlier log, it adds one debug event and no error event. |
| `NetworkConfig.UndecodableFileLogsOneError` | pkg/dependency/vmnet/update_network_lima_config_unix_test.go:55-67 | Content that does not decode into the networks shape gives false. It adds exactly one error event (the unmarshal failure) and no debug event. |
| `NetworkConfig.WrongCountLogsCount` | pkg/dependency/vmnet/update_network_lima_config_unix_test.go:68-81 | A networks list of any length other than one gives false. The single error event carries that length. No debug event is added. |
| `NetworkConfig.SecondForeignEntryCountsTwo` | pkg/dependency/vmnet/update_network_lima_config_unix_test.go:69-80 | A list of Finch's entry plus an entry without Finch's identity is still reported as 2 networks. The count is of all entries. |
| `NetworkConfig.RenamedEntryIsRejected` | pkg/dependency/vmnet/update_network_lima_config_unix_test.go:82-90 | A single entry whose identity is not `finch-shared` is rejected, and nothing is logged. |
| `Logging.CountLevelAppend` | pkg/dependency/vmnet/update_network_lima_config_unix_test.go:45-66 | The number of events at one level (what the strict logger mock counts) in a log extended by later events is the sum of the counts of the two parts. The per-case lemmas rely on this to count on top of an earlier log. |
| `Logging.Logger.Debugf` | pkg/dependency/vmnet/update_network_lima_config_unix_test.go:51 | A debug call appends exactly one debug-level event with its message to the trace. |
| `Logging.Logger.Errorf` | pkg/dependency/vmnet/update_network_lima_config_unix_test.go:64 | An error call appends exactly one error-level event with its message to the trace. |
| `FileSystem.Append` | pkg/dependency/vmnet/update_network_lima_config_unix_test.go:119-128 | Opening a file for append and writing fails only on a read-only path, and then changes nothing. On success the old content is a prefix of the new content and the data follows it. Every other file is unchanged. |
| `FileSystem.MemFs.ReadFile` | pkg/dependency/vmnet/update_network_lima_config_unix_test.go:124 | Reading a file returns what `Read` defines: the stored bytes, or a not-exist error for a missing path. `Read` is the definition of a foreign read and states nothing beyond that. |
| `FileSystem.MemFs.AppendFile` | pkg/dependency/vmnet/update_network_lima_config_unix_test.go:138 | Opening for append and writing leaves the files as `Append` defines, returning no error; on a read-only path it returns the error and leaves the files unchanged. |
| `FileSystem.AppendToEmpty` | pkg/dependency/vmnet/update_network_lima_config_unix_test.go:123-127 | Appending to a missing or empty file leaves exactly the appended bytes. |
| `Prerequisites.Gate` | pkg/dependency/vmnet/update_network_lima_config_unix_test.go:153-176 | The gate proceeds exactly when both dependencies are installed. The binaries are asked first. The sudoers file is asked exactly when the binaries said yes. No dependency is asked twice. |
| `Prerequisites.Dependency.Installed` | pkg/dependency/vmnet/update_network_lima_config_unix_test.go:156-157 | A dependency answers from its own state and appends its identity to the shared record of questions. |
| `Vmnet.InstallThenInstalled` | pkg/dependency/vmnet/update_network_lima_config_unix_test.go:236-245 | Appending the canonical block to a writable, missing or empty file succeeds, and the query then recognises the file with no log. |
| `Vmnet.ErrorText` | pkg/dependency/vmnet/update_network_lima_config_unix_test.go:251 | An install error has a modelled text exactly when it is the prerequisites error, and that text is "skipping installation of network configuration because pre-requisites are missing". A file-system error's own text is not modelled. |
| `Vmnet.DefaultLimaConfig.constructor` | pkg/dependency/vmnet/update_network_lima_config_unix_test.go:102 | Building the dependency (`newDefaultLimaConfig`, also called at :138, :187, :221, :265 and :275) keeps the given path, dependencies, file system, logger and format. The result satisfies `Valid()`. Every instance assumes `WellFormed` of its format, the model's one assumption about the decoder. Both dependencies share one call recorder, standing for the single gomock controller of :259-261. |
| `Vmnet.DefaultLimaConfig.VerifyConfigHasNetworkSection` | pkg/dependency/vmnet/update_network_lima_config_unix_test.go:102 | The answer is that of `NetworkSectionVerdict` on the current files. The logger's trace grows by exactly that verdict's log. |
| `Vmnet.DefaultLimaConfig.AppendNetworkConfiguration` | pkg/dependency/vmnet/update_network_lima_config_unix_test.go:138-140 | The file system becomes `Append` of the canonical block, or it stays unchanged and the error is returned. |
| `Vmnet.DefaultLimaConfig.ShouldAddNetworksConfig` | pkg/dependency/vmnet/update_network_lima_config_unix_test.go:187 | The answer is `Gate`'s decision. The shared record grows by exactly `Gate`'s queries. |
| `Vmnet.DefaultLimaConfig.Installed` | pkg/dependency/vmnet/update_network_lima_config_unix_test.go:221 | The query runs on the default configuration path, with the same answer and log as `NetworkSectionVerdict` there. |
| `Vmnet.DefaultLimaConfig.Install` | pkg/dependency/vmnet/update_network_lima_config_unix_test.go:266-267 | Install queries what `Gate` queries. If the gate fails, it returns the prerequisites-missing error and leaves the files unchanged. Otherwise the result is exactly that of appending the canonical block to the default configuration file, and a write error passes through. |
| `Vmnet.DefaultLimaConfig.RequiresRoot` | pkg/dependency/vmnet/update_network_lima_config_unix_test.go:272-277 | False, whatever the file or prerequisite state. |
| `VmnetScenarios.AppendToMissingFile` | pkg/dependency/vmnet/update_network_lima_config_unix_test.go:118-141 | Appending to a missing file returns no error. Reading the file back gives exactly the canonical block. |
| `VmnetScenarios.ShouldAddNetworks` | pkg/dependency/vmnet/update_network_lima_config_unix_test.go:153-189 | For each of the three tested answer combinations, and the fourth: the result is the conjunction. The questions are exactly binaries-then-sudoers, or binaries alone when the binaries are missing. |
| `VmnetScenarios.InstalledOnCanonicalFile` | pkg/dependency/vmnet/update_network_lima_config_unix_test.go:201-223 | The default configuration file holding the canonical block is installed, and nothing is logged. |
| `VmnetScenarios.InstallOnEmptyFile` | pkg/dependency/vmnet/update_network_lima_config_unix_test.go:236-267 | With both prerequisites installed and an existing empty file, Install returns no error after asking binaries and then sudoers. `Installed()` is then true. |
| `VmnetScenarios.InstallWithoutBinaries` | pkg/dependency/vmnet/update_network_lima_config_unix_test.go:247-267 | With the binaries missing, Install returns the prerequisites-missing error, whose text is exactly "skipping installation of network configuration because pre-requisites are missing". Only the binaries are asked, and no file is created. |

## Left out

- YAML decoding (gopkg.in/yaml.v3) is a foreign library. It is a parameter of `Format`, and the only assumption made about it is `WellFormed`. The near-miss and two-entry cases are therefore stated in terms of what the decoder returns for those files, not in terms of their text.
- The literal canonical block (`networkConfigString`), the `strings.ReplaceAll` near-miss fixture and the two-entry YAML are not modelled as text. The canonical block is not part of this model; it is injected as `Format.text`.
- Message formatting: log events are tagged messages with their payload (the file error, the count). They are not formatted strings. The `fs.PathError` operation name and the `yaml.TypeError` detail are dropped.
- `FileSystem.Append`: write failures other than a read-only path (disk full, a failure after a partial write) are not modelled.
- `FileSystem.Read`: only a missing file is a read failure in the model; the tests show the debug log for that case only.
- Appending to a file that already has content is modelled as plain concatenation; the tests do not assert this case.
- Lima path resolution (`LimaDefaultConfigPath` on the Finch path) is not modelled: the resolved path is a constructor argument.
- gomock machinery, `t.Parallel` concurrency and the darwin build tag are not modelled. There is also no guard against two processes appending at once, and the model adds none.
- cmd/finch/main_native.go is command-line wiring (configuration loading, cobra commands, the `--debug` log level, collaborator construction) and is not part of this model.
