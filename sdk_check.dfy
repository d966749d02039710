/**
 * The check task: validate the Cloud SDK the build points at and, when it
 * passes, hand its home directory to the SDK builder factory.
 */
module SdkCheck {
  import opened Wrappers
  import SdkDownload

  const HOME_NOT_SPECIFIED_MESSAGE := "SDK home directory must be specified for validation."

  /** The message of the version-mismatch failure. */
  function MismatchMessage(specified: string, installed: string): string
  {
    "Cloud SDK validate: Specified version (" + specified + ") does not match installed version (" + installed + ")."
  }

  /** The exceptions the task raises. */
  datatype CheckError =
    | GradleError(message: string)        // a GradleException
    | TaskExecutionError(cause: string)   // a TaskExecutionException wrapping the validation failure
    | NullPointer                         // a NullPointerException: no version configured

  /**
   * The outcome of checkCloudSdkAction for the configured SDK home and version,
   * where `installedVersion` is what the SDK at that home reports and
   * `validationFailure` what validating it raises, if anything.
   */
  function CheckOutcome(home: Option<string>, version: Option<string>, installedVersion: string, validationFailure: Option<string>): (error: Option<CheckError>)
    // the check passes exactly when a home is given and isSdkValid would accept the SDK
    ensures error.None? <==>
      home.Some? && version.Some? && SdkDownload.IsSdkValid(version.value, installedVersion, validationFailure)
    ensures home.None? ==> error == Some(GradleError(HOME_NOT_SPECIFIED_MESSAGE))
    // with a home but no version, comparing the version raises a NullPointerException
    ensures home.Some? && version.None? ==> error == Some(NullPointer)
    // LATEST skips the version comparison: only validation decides
    ensures home.Some? && version == Some(SdkDownload.LATEST) ==> (error.None? <==> validationFailure.None?)
    ensures home.Some? && version.Some? && version.value != SdkDownload.LATEST && version.value != installedVersion ==>
      error == Some(GradleError(MismatchMessage(version.value, installedVersion)))
    ensures home.Some? && version.Some? && SdkDownload.VersionMatches(version.value, installedVersion) && validationFailure.Some? ==>
      error == Some(TaskExecutionError(validationFailure.value))
  {
    if home.None? then Some(GradleError(HOME_NOT_SPECIFIED_MESSAGE))
    else if version.None? then Some(NullPointer)
    else if version.value != SdkDownload.LATEST && version.value != installedVersion then
      Some(GradleError(MismatchMessage(version.value, installedVersion)))
    else if validationFailure.Some? then Some(TaskExecutionError(validationFailure.value))
    else None
  }

  /** The tools configuration: where the Cloud SDK lives and which version is wanted. */
  class ToolsExtension {
    var cloudSdkHome: Option<string>
    var cloudSdkVersion: Option<string>

    constructor (cloudSdkHome: Option<string>, cloudSdkVersion: Option<string>)
      ensures this.cloudSdkHome == cloudSdkHome && this.cloudSdkVersion == cloudSdkVersion
    {
      this.cloudSdkHome, this.cloudSdkVersion := cloudSdkHome, cloudSdkVersion;
    }
  }

  /** The factory that builds Cloud SDK handles; only the home it builds them for is modelled. */
  class CloudSdkBuilderFactory {
    var cloudSdkHome: Option<string>

    constructor ()
      ensures cloudSdkHome.None?
    {
      cloudSdkHome := None;
    }
  }

  class CheckCloudSdkTask {
    var toolsExtension: ToolsExtension
    var cloudSdkBuilderFactory: CloudSdkBuilderFactory

    constructor (toolsExtension: ToolsExtension, cloudSdkBuilderFactory: CloudSdkBuilderFactory)
      ensures this.toolsExtension == toolsExtension && this.cloudSdkBuilderFactory == cloudSdkBuilderFactory
    {
      this.toolsExtension, this.cloudSdkBuilderFactory := toolsExtension, cloudSdkBuilderFactory;
    }

    /**
     * checkCloudSdkAction: fail unless a home is configured, the configured
     * version matches the installed one (LATEST matches any) and validation
     * passes; on success record the home in the builder factory.
     */
    method CheckCloudSdkAction(installedVersion: string, validationFailure: Option<string>) returns (error: Option<CheckError>)
      modifies cloudSdkBuilderFactory`cloudSdkHome
      ensures error == CheckOutcome(toolsExtension.cloudSdkHome, toolsExtension.cloudSdkVersion, installedVersion, validationFailure)
      ensures error.None? ==> cloudSdkBuilderFactory.cloudSdkHome == toolsExtension.cloudSdkHome
      // every failure leaves the factory as it was
      ensures error.Some? ==> cloudSdkBuilderFactory.cloudSdkHome == old(cloudSdkBuilderFactory.cloudSdkHome)
    {
      var home := toolsExtension.cloudSdkHome;
      if home.None? {
        return Some(GradleError(HOME_NOT_SPECIFIED_MESSAGE));
      }
      var version := toolsExtension.cloudSdkVersion;
      if version.None? {
        return Some(NullPointer);
      }
      if version.value != SdkDownload.LATEST && version.value != installedVersion {
        return Some(GradleError(MismatchMessage(version.value, installedVersion)));
      }
      if validationFailure.Some? {
        return Some(TaskExecutionError(validationFailure.value));
      }
      cloudSdkBuilderFactory.cloudSdkHome := home;
      return None;
    }
  }
}
