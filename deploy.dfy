/**
 * The deploy extension: the deploy configuration a build script fills in, and
 * the step that settles the deployment project id and version from the build
 * configuration and appengine-web.xml.
 */
module Deploy {
  import opened Wrappers
  import opened Descriptor

  /** The project id and version a deployment goes to. */
  datatype Identity = Identity(project: Option<string>, version: Option<string>)

  /** Project or version is set in neither the build configuration nor the descriptor. */
  predicate MissingEverywhere(project: Option<string>, version: Option<string>, xmlProject: Option<string>, xmlVersion: Option<string>)
  {
    (project.None? && xmlProject.None?) || (version.None? && xmlVersion.None?)
  }

  /**
   * The decision withPropertiesFromAppEngineWebXml takes. `descriptor` is None
   * when no appengine-web.xml is configured, else what parsing it yields;
   * `property` is the value of the read-mode system property.
   */
  function Resolve(project: Option<string>, version: Option<string>, descriptor: Option<Parse>, property: Option<string>): (r: Result<Identity, ConfigError>)
    // without a descriptor the configuration passes through unchecked, even when incomplete
    ensures descriptor.None? ==> r == Success(Identity(project, version))
    // a parser failure escapes as it is
    ensures descriptor.Some? && descriptor.value.ParseFailed? ==> r == Failure(DescriptorError(descriptor.value.message))
    ensures descriptor.Some? && descriptor.value.Parsed? ==>
      var xmlProject, xmlVersion := descriptor.value.xmlProject, descriptor.value.xmlVersion;
      // a successful resolution never leaves either value unset
      && (r.Success? ==> r.value.project.Some? && r.value.version.Some?)
      // the "set it somewhere" check comes first and does not depend on the mode
      && (r == Failure(GradleError(NOT_CONFIGURED_MESSAGE)) <==>
            (project.None? && xmlProject.None?) || (version.None? && xmlVersion.None?))
      // read mode: each value must come from exactly one source, and it is taken from there
      && (ReadMode(property) ==>
            && (r.Success? <==> ExactlyOne(project, xmlProject) && ExactlyOne(version, xmlVersion))
            && (r.Success? ==> r.value == Identity(Prefer(xmlProject, project), Prefer(xmlVersion, version)))
            && (r == Failure(GradleError(CANNOT_OVERRIDE_MESSAGE)) <==>
                  !MissingEverywhere(project, version, xmlProject, xmlVersion)
                  && ((project.Some? && xmlProject.Some?) || (version.Some? && xmlVersion.Some?))))
      // otherwise: the build configuration must set both, and the descriptor is ignored
      && (!ReadMode(property) ==>
            && (r.Success? <==> project.Some? && version.Some?)
            && (r.Success? ==> r.value == Identity(project, version))
            && (r == Failure(GradleError(PROPERTY_NOT_SET_MESSAGE)) <==>
                  !MissingEverywhere(project, version, xmlProject, xmlVersion)
                  && (project.None? || version.None?)))
  {
    MessagesDiffer();
    match descriptor
    case None => Success(Identity(project, version))
    case Some(ParseFailed(message)) => Failure(DescriptorError(message))
    case Some(Parsed(xmlProject, xmlVersion)) =>
      if MissingEverywhere(project, version, xmlProject, xmlVersion) then
        Failure(GradleError(NOT_CONFIGURED_MESSAGE))
      else if ReadMode(property) then
        if (project.Some? && xmlProject.Some?) || (version.Some? && xmlVersion.Some?) then
          Failure(GradleError(CANNOT_OVERRIDE_MESSAGE))
        else
          Success(Identity(if xmlProject.Some? then xmlProject else project,
                           if xmlVersion.Some? then xmlVersion else version))
      else if project.None? || version.None? then
        Failure(GradleError(PROPERTY_NOT_SET_MESSAGE))
      else
        Success(Identity(project, version))
  }

  /** A list of files to deploy; a list object of its own, so a copy can be told apart from the original. */
  class FileList {
    var files: seq<string>

    constructor (files: seq<string>)
      ensures this.files == files
    {
      this.files := files;
    }
  }

  class DeployExtension {
    const gradleProject: object?
    var bucket: Option<string>
    var deployables: FileList?
    var imageUrl: Option<string>
    var project: Option<string>
    var promote: Option<bool>
    var server: Option<string>
    var stopPreviousVersion: Option<bool>
    var version: Option<string>
    var appEngineDirectory: Option<string>
    var appEngineWebXml: Option<string>

    /** Every field but project, version and the deployables list equals the other extension's. */
    ghost predicate SameOtherSettings(other: DeployExtension)
      reads this, other
    {
      && gradleProject == other.gradleProject
      && bucket == other.bucket
      && imageUrl == other.imageUrl
      && promote == other.promote
      && server == other.server
      && stopPreviousVersion == other.stopPreviousVersion
      && appEngineDirectory == other.appEngineDirectory
      && appEngineWebXml == other.appEngineWebXml
    }

    /** Every field but the deployables list equals the other extension's. */
    ghost predicate SameSettings(other: DeployExtension)
      reads this, other
    {
      SameOtherSettings(other) && project == other.project && version == other.version
    }

    /** The deployables list is a copy of the other's: null stays null, otherwise a new list with the same files. */
    ghost predicate CopiedDeployables(other: DeployExtension)
      reads this, other, deployables, other.deployables
    {
      (other.deployables == null ==> deployables == null)
      && (other.deployables != null ==> deployables != null && deployables != other.deployables
                                         && deployables.files == other.deployables.files)
    }

    constructor (gradleProject: object?)
      ensures this.gradleProject == gradleProject
      ensures bucket.None? && deployables == null && imageUrl.None? && project.None? && promote.None?
      ensures server.None? && stopPreviousVersion.None? && version.None?
      ensures appEngineDirectory.None? && appEngineWebXml.None?
    {
      this.gradleProject := gradleProject;
      bucket, deployables, imageUrl, project, promote := None, null, None, None, None;
      server, stopPreviousVersion, version := None, None, None;
      appEngineDirectory, appEngineWebXml := None, None;
    }

    /** A deep copy: every field equal, the deployables list copied into a fresh one. */
    constructor Copy(other: DeployExtension)
      ensures SameSettings(other) && CopiedDeployables(other)
      ensures deployables != null ==> fresh(deployables)
    {
      gradleProject := other.gradleProject;
      bucket := other.bucket;
      if other.deployables == null {
        deployables := null;
      } else {
        deployables := new FileList(other.deployables.files);
      }
      imageUrl := other.imageUrl;
      project := other.project;
      promote := other.promote;
      server := other.server;
      stopPreviousVersion := other.stopPreviousVersion;
      version := other.version;
      appEngineDirectory := other.appEngineDirectory;
      appEngineWebXml := other.appEngineWebXml;
    }

    method SetProject(project: Option<string>)
      modifies this`project
      ensures this.project == project
    {
      this.project := project;
    }

    method SetVersion(version: Option<string>)
      modifies this`version
      ensures this.version == version
    {
      this.version := version;
    }

    method SetAppEngineWebXml(appEngineWebXml: Option<string>)
      modifies this`appEngineWebXml
      ensures this.appEngineWebXml == appEngineWebXml
    {
      this.appEngineWebXml := appEngineWebXml;
    }

    /** `files` is what the build resolves the given file collection to. */
    method SetDeployables(files: seq<string>)
      modifies this`deployables
      ensures deployables != null && fresh(deployables) && deployables.files == files
    {
      deployables := new FileList(files);
    }

    /**
     * A copy of this extension with project and version settled from the build
     * configuration and appengine-web.xml; the receiver itself is never written.
     * `parse` is what parsing the configured appengine-web.xml yields (consulted
     * only when one is configured); `property` is the read-mode system property.
     */
    method WithPropertiesFromAppEngineWebXml(parse: Parse, property: Option<string>) returns (r: Result<DeployExtension, ConfigError>)
      ensures var expected := Resolve(project, version, if appEngineWebXml.None? then None else Some(parse), property);
        && (r.Success? <==> expected.Success?)
        && (r.Failure? ==> r.error == expected.error)
        && (r.Success? ==> fresh(r.value) && r.value.project == expected.value.project
                                          && r.value.version == expected.value.version)
      // apart from project and version the result is this extension's deep copy
      ensures r.Success? ==> r.value.SameOtherSettings(this) && r.value.CopiedDeployables(this)
      ensures r.Success? && r.value.deployables != null ==> fresh(r.value.deployables)
    {
      var copy := new DeployExtension.Copy(this);
      if appEngineWebXml.None? {
        return Success(copy);
      }
      match parse
      case ParseFailed(message) =>
        return Failure(DescriptorError(message));
      case Parsed(xmlProject, xmlVersion) =>
        if (project.None? && xmlProject.None?) || (version.None? && xmlVersion.None?) {
          return Failure(GradleError(NOT_CONFIGURED_MESSAGE));
        }
        if ReadMode(property) {
          if (project.Some? && xmlProject.Some?) || (version.Some? && xmlVersion.Some?) {
            return Failure(GradleError(CANNOT_OVERRIDE_MESSAGE));
          }
          if xmlProject.Some? {
            copy.SetProject(xmlProject);
          }
          if xmlVersion.Some? {
            copy.SetVersion(xmlVersion);
          }
        } else if project.None? || version.None? {
          return Failure(GradleError(PROPERTY_NOT_SET_MESSAGE));
        }
        return Success(copy);
    }
  }
}
