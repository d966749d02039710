# App Engine Gradle plugin: project resolution and managed Cloud SDK provisioning

A Dafny model of the decision logic of the App Engine Gradle plugin:

- **Deployment project and version.** The deploy extension
  (`DeployExtension.withPropertiesFromAppEngineWebXml`) settles the project id
  and version a deployment goes to. It reads them from the build configuration
  and from the `<application>` and `<version>` elements of `appengine-web.xml`.
  The `deploy.read.appengine.web.xml` system property decides which source
  may supply them. The result is a fresh deep copy of the extension; the
  receiver is never written.
- **Project only.** The standard environment's `ProjectResolver.getProject`
  does the same for the project id alone. The two are modelled side by side,
  with lemmas that say where they agree and where they part.
- **Managed Cloud SDK.** `CloudSdkDownloader.downloadSdk` installs the SDK if it
  is missing, then the `app-engine-java` component if it is absent, then
  updates the SDK if `LATEST` was asked for and it is out of date. It creates
  its installer, component installer and updater lazily and keeps them.
  `isSdkValid` and the check task apply one version rule: `LATEST` matches any
  installed version. On success the check task records the SDK home in the
  builder factory.

Modules:

- `Wrappers`: Option and Result.
- `Descriptor`: what the resolvers share. This is the parsed descriptor,
  the exceptions with their messages, and the read-mode switch.
- `Deploy`: the `DeployExtension` class and the pure `Resolve` decision
  that its method is proved to follow.
- `ProjectResolution`: `GetProject` and the lemmas relating it to `Resolve`.
- `SdkDownload`: the pure `Download` step sequence, the idempotence lemma over
  consecutive calls, `IsSdkValid`, and the `CloudSdkDownloader` class.
- `SdkCheck`: the `CheckCloudSdkTask` class and the pure `CheckOutcome` it
  follows.

Exceptions become error values:

- `GradleError(message)` is a `GradleException` with its exact message.
- `DescriptorError(message)` is a parser exception that escapes unchanged.
- `NullPointer` is a `NullPointerException`.
- `TaskExecutionError(cause)` is a `TaskExecutionException`.

The parts the model cannot see are parameters:

- the descriptor parser's output (a `Parse` value);
- the value of the system property (an `Option<string>`);
- the failures the managed-SDK collaborators raise (a `Faults` value);
- the version the installed SDK reports, and what its validation raises.

The SDK collaborators act on an `SdkInstallation` object. It holds three
flags and a ghost log of every install, component-install and update call,
each entry naming the object that made the call. Each installer, component
installer and updater is bound to the installation it was made for.

When a descriptor is configured, the deploy extension needs both project and
version, each from at least one of the two sources (`DeployExtension.java`
line 91); without one it passes the configuration through unchecked. The
project resolver needs only the project. The two resolvers are kept separate,
because they differ.

## Model

| member | source | states |
|---|---|---|
| `Descriptor.ReadMode` | src/main/java/com/google/cloud/tools/gradle/appengine/core/DeployExtension.java:98-100 | read mode is on exactly when the property is present and equals "true" (the same test sits at ProjectResolver.java lines 55-57) |
| `Deploy.Resolve` | src/main/java/com/google/cloud/tools/gradle/appengine/core/DeployExtension.java:77-127 | no descriptor: the build values pass through unchecked, even when unset; a parser failure escapes unchanged; "not configured" is raised exactly when project or version is set in neither source, whatever the mode; in read mode success holds exactly when each value comes from exactly one source, and the result takes the xml value if present, else the build value; "cannot override" is raised exactly for an overlap; outside read mode success holds exactly when the build sets both, the xml values are ignored, and "set the system property" is raised otherwise; success never leaves either value unset |
| `Deploy.DeployExtension.constructor` | src/main/java/com/google/cloud/tools/gradle/appengine/core/DeployExtension.java:51-53 | a new extension holds the Gradle project and no settings |
| `Deploy.DeployExtension.Copy` | src/main/java/com/google/cloud/tools/gradle/appengine/core/DeployExtension.java:55-69 | the copy equals the original in every field; its deployables list is null when the original's is, otherwise a fresh list with the same files |
| `Deploy.DeployExtension.SetProject` | src/main/java/com/google/cloud/tools/gradle/appengine/core/DeployExtension.java:161-163 | sets the project and nothing else |
| `Deploy.DeployExtension.SetVersion` | src/main/java/com/google/cloud/tools/gradle/appengine/core/DeployExtension.java:197-199 | sets the version and nothing else |
| `Deploy.DeployExtension.SetAppEngineWebXml` | src/main/java/com/google/cloud/tools/gradle/appengine/core/DeployExtension.java:210-212 | sets the descriptor file and nothing else |
| `Deploy.DeployExtension.SetDeployables` | src/main/java/com/google/cloud/tools/gradle/appengine/core/DeployExtension.java:143-145 | replaces the deployables with a fresh list of the resolved files, and nothing else |
| `Deploy.DeployExtension.WithPropertiesFromAppEngineWebXml` | src/main/java/com/google/cloud/tools/gradle/appengine/core/DeployExtension.java:77-127 | writes nothing that existed before the call, so the receiver is untouched; fails exactly when `Resolve` fails, with the same error; on success returns a fresh object whose project and version are `Resolve`'s and whose other fields are the receiver's deep copy; the parse result is consulted only when a descriptor file is configured |
| `ProjectResolution.GetProject` | src/main/java/com/google/cloud/tools/gradle/appengine/standard/ProjectResolver.java:41-84 | a null descriptor file raises a NullPointerException; a parser failure becomes a GradleException with the parser's message; "not configured" is raised exactly when both sources are unset; in read mode it succeeds exactly when one source sets the project and returns that one, and "cannot override" is raised exactly when both do; outside read mode it succeeds exactly when the user set the project, returns it and ignores the xml value; any returned project was set in one of the two sources |
| `ProjectResolution.AgreesWithDeployExtension` | src/main/java/com/google/cloud/tools/gradle/appengine/standard/ProjectResolver.java:48-80 | when the version side of the deploy extension's check cannot fail, the two resolvers succeed or fail together, with the same error or the same project |
| `ProjectResolution.VersionNeverChecked` | src/main/java/com/google/cloud/tools/gradle/appengine/standard/ProjectResolver.java:45-80 | the project resolver's outcome does not depend on the xml version |
| `ProjectResolution.Divergences` | src/main/java/com/google/cloud/tools/gradle/appengine/standard/ProjectResolver.java:42-83 | with no descriptor, the deploy extension passes values through while the resolver raises a NullPointerException; a parser failure escapes unchanged from one and is rewrapped by the other; with a project set and the version set nowhere, the deploy extension fails and the resolver succeeds |
| `SdkDownload.Download` | src/main/java/com/google/cloud/tools/gradle/appengine/core/CloudSdkDownloader.java:78-181 | a call takes at most three steps, each at most once, in the order install, component, update; success returns the SDK home and leaves the installation installed, with the component, and up to date when LATEST was asked for; an installation already in that state gets no step and is left unchanged |
| `SdkDownload.DownloadTakesNeededSteps` | src/main/java/com/google/cloud/tools/gradle/appengine/core/CloudSdkDownloader.java:146-169 | install is taken exactly when the SDK is not installed; the component install exactly when the component is absent and nothing failed before; the update exactly when LATEST was asked for, the SDK is out of date and nothing failed before, so a pinned version never updates |
| `SdkDownload.DownloadStopsAtFailure` | src/main/java/com/google/cloud/tools/gradle/appengine/core/CloudSdkDownloader.java:144-178 | no step follows a failed one; the call succeeds exactly when creation and every step taken succeed; a failure carries the message of the creation failure or of the last step taken |
| `SdkDownload.DownloadChangesOnlyBySteps` | src/main/java/com/google/cloud/tools/gradle/appengine/core/CloudSdkDownloader.java:146-169 | each flag of the installation becomes true only through its own step succeeding, and is otherwise as it was |
| `SdkDownload.DownloadSeries` | src/main/java/com/google/cloud/tools/gradle/appengine/core/CloudSdkDownloader.java:78-181 | in consecutive calls, each call starts from the installation the previous call left |
| `SdkDownload.QuietAfterSuccess` | src/main/java/com/google/cloud/tools/gradle/appengine/core/CloudSdkDownloader.java:146-169 | once a call has succeeded, every later call for the same version takes no install, component or update step and leaves the installation as it was |
| `SdkDownload.IsSdkValid` | src/main/java/com/google/cloud/tools/gradle/appengine/core/CloudSdkDownloader.java:188-214 | false when a version other than LATEST differs from the installed one; false when validation fails; true when the version is LATEST or equals the installed one and validation passes |
| `SdkDownload.CloudSdkDownloader.constructor` | src/main/java/com/google/cloud/tools/gradle/appengine/core/CloudSdkDownloader.java:52-58 | a new downloader holds no installer, component installer or updater |
| `SdkDownload.CloudSdkDownloader.SetInstaller` | src/main/java/com/google/cloud/tools/gradle/appengine/core/CloudSdkDownloader.java:60-62 | injects the installer and changes nothing else |
| `SdkDownload.CloudSdkDownloader.SetComponentInstaller` | src/main/java/com/google/cloud/tools/gradle/appengine/core/CloudSdkDownloader.java:64-66 | injects the component installer and changes nothing else |
| `SdkDownload.CloudSdkDownloader.SetUpdater` | src/main/java/com/google/cloud/tools/gradle/appengine/core/CloudSdkDownloader.java:68-70 | injects the updater and changes nothing else |
| `SdkDownload.CloudSdkDownloader.InstallIfMissing` | src/main/java/com/google/cloud/tools/gradle/appengine/core/CloudSdkDownloader.java:145-152 | the install block: the step, its result and the creation of an installer follow `Attempt` on the installation's flags; an installer is created, bound to this installation, only if none is held and the SDK is not installed; the flags the later blocks read stay as the model has them; when every held tool is bound to this installation, its state follows `Attempt` and the log grows by one call through the installer |
| `SdkDownload.CloudSdkDownloader.InstallComponentIfMissing` | src/main/java/com/google/cloud/tools/gradle/appengine/core/CloudSdkDownloader.java:154-161 | the component block: the step, its result and the creation of a component installer follow `Attempt`; one is created, bound to this installation, only if none is held and the component is absent; when every held tool is bound here, the installation and its log follow `Attempt` |
| `SdkDownload.CloudSdkDownloader.UpdateIfLatest` | src/main/java/com/google/cloud/tools/gradle/appengine/core/CloudSdkDownloader.java:163-169 | the update block: the step, its result and the creation of an updater follow `Attempt`; one is created, bound to this installation, only if none is held and LATEST was asked for while the SDK is out of date; when every held tool is bound here, the installation and its log follow `Attempt` |
| `SdkDownload.CloudSdkDownloader.CompleteInstallation` | src/main/java/com/google/cloud/tools/gradle/appengine/core/CloudSdkDownloader.java:154-169 | the component block and then the update block, stopping at a failure: result, steps and tool creation match the two `Attempt`s one after the other; when every held tool is bound here, so do the installation and its log |
| `SdkDownload.CloudSdkDownloader.Provision` | src/main/java/com/google/cloud/tools/gradle/appengine/core/CloudSdkDownloader.java:144-178 | the three blocks in order, stopping at the first failure: result, steps and tool creation match the three `Attempt`s; when every held tool is bound to this installation, so do the installation and its call log |
| `SdkDownload.CloudSdkDownloader.DownloadSdk` | src/main/java/com/google/cloud/tools/gradle/appengine/core/CloudSdkDownloader.java:78-181 | returns `Download`'s result, whatever installations held tools were made for; a held installer, component installer or updater is kept as it is; a missing one is created fresh, bound to this installation, and exactly for a step `Download` takes; a creation failure changes nothing, not even the installations held tools act on; when every held tool is bound to this installation, its new state is `Download`'s and its log grows by exactly `Download`'s steps, each made through the tool the downloader holds for it |
| `SdkCheck.CheckOutcome` | src/main/java/com/google/cloud/tools/gradle/appengine/core/CheckCloudSdkTask.java:45-74 | the check passes exactly when a home is configured and `IsSdkValid` accepts the configured version; a missing home raises "SDK home directory must be specified"; a missing version raises a NullPointerException; LATEST skips the version comparison; a mismatch raises the version-mismatch GradleException; a validation failure raises a TaskExecutionException |
| `SdkCheck.CheckCloudSdkTask.constructor` | src/main/java/com/google/cloud/tools/gradle/appengine/core/CheckCloudSdkTask.java:35-41 | the task holds the given tools extension and builder factory |
| `SdkCheck.CheckCloudSdkTask.CheckCloudSdkAction` | src/main/java/com/google/cloud/tools/gradle/appengine/core/CheckCloudSdkTask.java:45-74 | fails exactly as `CheckOutcome` says; on success the factory's SDK home equals the configured home; on every failure the factory is unchanged; nothing else is written |

## Left out

- Parsing appengine-web.xml is done by a foreign library. Its output is the `Parse` parameter.
- One `ParseFailed` stands for any failure of the parser or its getters. The deploy extension reads both the project and the version (`DeployExtension.java` lines 87-88). The project resolver reads only the project (`ProjectResolver.java` line 45). A failure confined to reading the version would therefore reach only the deploy extension, and `ProjectResolution.Divergences` does not cover that case.
- Reading the system property is a parameter. The source reads it twice; the model assumes both reads agree.
- The Cloud SDK collaborators are modelled as abstract flags: the managed SDK factory, the installer, the component installer, the updater and `CloudSdk` validation. Each step either fails with a message or sets its own flag on the installation its tool was made for, and nothing else. A failed step changes nothing, and the flags change only through these steps.
- `SdkDownload.CloudSdkDownloader.DownloadSdk`: the tool fields outlive a call. A tool injected for, or created in, an earlier call keeps acting on the installation it was made for. The result, the steps taken and the tools created are promised in every case. The installation's new state and call log are promised only when every held tool was made for this installation. For example, an installer kept from a LATEST download would install into that installation, not into a later pinned version's.
- `SdkDownload.QuietAfterSuccess`: for LATEST, the quiet series assumes no new Cloud SDK release is published between calls. In the model `upToDate` never turns false again; in the real world a new release would make the update step run again (`CloudSdkDownloader.java` line 164).
- The state queries `isInstalled`, `hasComponent` and `isUpToDate` are taken never to throw. Their own verification exceptions are not modelled.
- The installed version and the validation outcome are given as parameters. Nothing ties them to the flags that `downloadSdk` sets.
- Progress and console listeners, and the logger in `CloudSdkDownloader`, only print; they are left out.
- A null `version` argument to `downloadSdk` or `isSdkValid` is not modelled, because Dafny strings are never null. A null `home` for `isSdkValid` is not modelled either: the code would raise a NullPointerException building the SDK path (`CloudSdkDownloader.java` line 189). The check task's null version is modelled, as `NullPointer`.
- Getters of `DeployExtension` are plain field reads, so the model reads the fields directly.
- The setters `setBucket`, `setImageUrl`, `setPromote`, `setServer` and `setStopPreviousVersion` are plain field assignments, like `SetProject`. They are not modelled one by one.
- `setDeployables` and `setAppEngineDirectory` resolve paths through Gradle. The model takes the resolved files as input.
- The check task's `setToolsExtension` and `setCloudSdkBuilderFactory` are modelled by its constructor. The task is assumed to be wired, with neither field null.
- `ToolsExtension.java` at this revision has no `getCloudSdkVersion`, although `CheckCloudSdkTask` calls it. The model gives the tools extension an optional version field.
- The builder factory is modelled only by the SDK home it holds. How it builds SDK handles is not modelled.
- Logging in `checkCloudSdkAction` is left out. So is the message text of the `TaskExecutionException`; only its cause is kept.
