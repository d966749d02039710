/**
 * The standard-environment project resolver: the project-only counterpart of
 * the deploy extension's resolution, and how the two relate.
 */
module ProjectResolution {
  import opened Wrappers
  import opened Descriptor
  import Deploy

  /**
   * The project id getProject returns for a user-defined project. `descriptor`
   * is None when the resolver was built without an appengine-web.xml file, else
   * what parsing the file yields; `property` is the read-mode system property.
   */
  function GetProject(descriptor: Option<Parse>, userDefinedProject: Option<string>, property: Option<string>): (r: Result<string, ConfigError>)
    // opening a null file raises a NullPointerException, which is not caught
    ensures descriptor.None? ==> r == Failure(NullPointer)
    // parser failures are rethrown as a GradleException with the same message
    ensures descriptor.Some? && descriptor.value.ParseFailed? ==> r == Failure(GradleError(descriptor.value.message))
    ensures descriptor.Some? && descriptor.value.Parsed? ==>
      var xmlProject := descriptor.value.xmlProject;
      // whatever is returned was set in one of the two sources
      && (r.Success? ==> Some(r.value) == userDefinedProject || Some(r.value) == xmlProject)
      && (r == Failure(GradleError(NOT_CONFIGURED_MESSAGE)) <==> userDefinedProject.None? && xmlProject.None?)
      && (ReadMode(property) ==>
            && (r.Success? <==> ExactlyOne(userDefinedProject, xmlProject))
            && (r.Success? ==> Some(r.value) == Prefer(xmlProject, userDefinedProject))
            && (r == Failure(GradleError(CANNOT_OVERRIDE_MESSAGE)) <==> userDefinedProject.Some? && xmlProject.Some?))
      && (!ReadMode(property) ==>
            && (r.Success? <==> userDefinedProject.Some?)
            && (r.Success? ==> Some(r.value) == userDefinedProject)
            && (r == Failure(GradleError(PROPERTY_NOT_SET_MESSAGE)) <==> userDefinedProject.None? && xmlProject.Some?))
  {
    MessagesDiffer();
    match descriptor
    case None => Failure(NullPointer)
    case Some(ParseFailed(message)) => Failure(GradleError(message))
    case Some(Parsed(xmlProject, _)) =>
      if userDefinedProject.None? && xmlProject.None? then
        Failure(GradleError(NOT_CONFIGURED_MESSAGE))
      else if ReadMode(property) then
        if userDefinedProject.Some? && xmlProject.Some? then
          Failure(GradleError(CANNOT_OVERRIDE_MESSAGE))
        else if xmlProject.Some? then
          Success(xmlProject.value)
        else
          Success(userDefinedProject.value)
      else if userDefinedProject.None? then
        Failure(GradleError(PROPERTY_NOT_SET_MESSAGE))
      else
        Success(userDefinedProject.value)
  }

  /** The version side of the deploy extension's checks cannot fail in this mode. */
  predicate VersionAccepted(version: Option<string>, xmlVersion: Option<string>, property: Option<string>)
  {
    if ReadMode(property) then ExactlyOne(version, xmlVersion) else version.Some?
  }

  /**
   * Once the version side raises nothing, the deploy extension and the project
   * resolver reach the same project outcome: the same error, or the same project.
   */
  lemma AgreesWithDeployExtension(project: Option<string>, version: Option<string>, xmlProject: Option<string>, xmlVersion: Option<string>, property: Option<string>)
    requires VersionAccepted(version, xmlVersion, property)
    ensures var d := Deploy.Resolve(project, version, Some(Parsed(xmlProject, xmlVersion)), property);
            var g := GetProject(Some(Parsed(xmlProject, xmlVersion)), project, property);
            && (d.Success? <==> g.Success?)
            && (d.Success? ==> d.value.project == Some(g.value))
            && (d.Failure? ==> d.error == g.error)
  {
  }

  /** The project resolver never looks at the version, on either side. */
  lemma VersionNeverChecked(project: Option<string>, xmlProject: Option<string>, xmlVersion: Option<string>, otherXmlVersion: Option<string>, property: Option<string>)
    ensures GetProject(Some(Parsed(xmlProject, xmlVersion)), project, property)
         == GetProject(Some(Parsed(xmlProject, otherXmlVersion)), project, property)
  {
  }

  /**
   * Where the two resolvers part: a missing descriptor, a parser failure, and a
   * version set nowhere.
   */
  lemma Divergences(project: Option<string>, version: Option<string>, message: string, property: Option<string>)
    ensures Deploy.Resolve(project, version, None, property) == Success(Deploy.Identity(project, version))
    ensures GetProject(None, project, property) == Failure(NullPointer)
    ensures Deploy.Resolve(project, version, Some(ParseFailed(message)), property) == Failure(DescriptorError(message))
    ensures GetProject(Some(ParseFailed(message)), project, property) == Failure(GradleError(message))
    ensures project.Some? ==>
      && Deploy.Resolve(project, None, Some(Parsed(None, None)), property) == Failure(GradleError(NOT_CONFIGURED_MESSAGE))
      && GetProject(Some(Parsed(None, None)), project, property).Success?
  {
  }
}
