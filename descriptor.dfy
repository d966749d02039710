/**
 * What the two project resolvers share: the outcome of parsing appengine-web.xml,
 * the exceptions they raise, their messages, and the read-mode switch.
 */
module Descriptor {
  import opened Wrappers

  /** The system property that lets appengine-web.xml supply project and version. */
  const READ_APPENGINE_WEB_XML_PROPERTY := "deploy.read.appengine.web.xml"

  /** Raised when project or version is set in neither source. */
  const NOT_CONFIGURED_MESSAGE :=
    "appengine-plugin does not use gcloud global project state. Please configure the application ID and version in your build.gradle or appengine-web.xml."

  /** Raised in read mode when both sources set the same value. */
  const CANNOT_OVERRIDE_MESSAGE :=
    "Cannot override appengine.deploy config with appengine-web.xml. Either remove the project/version properties from your build.gradle, or clear the deploy.read.appengine.web.xml system property to read from build.gradle."

  /** Raised outside read mode when the build configuration lacks a value. */
  const PROPERTY_NOT_SET_MESSAGE :=
    "appengine-plugin does not use gcloud global project state. If you would like to use the state from appengine-web.xml, please set the system property deploy.read.appengine.web.xml"

  /**
   * What the descriptor parser yields for an appengine-web.xml file: the
   * <application> and <version> elements (each possibly absent), or the
   * message of the exception it raised (unreadable file, malformed XML).
   */
  datatype Parse =
    | Parsed(xmlProject: Option<string>, xmlVersion: Option<string>)
    | ParseFailed(message: string)

  /** The exceptions that leave project resolution. */
  datatype ConfigError =
    | GradleError(message: string)      // a GradleException
    | DescriptorError(message: string)  // the parser's own exception, propagated as it is
    | NullPointer                       // a NullPointerException

  /** Read mode is on when the system property is present and is exactly "true". */
  predicate ReadMode(property: Option<string>): (on: bool)
    ensures on <==> property == Some("true")
  {
    property.Some? && property.value == "true"
  }

  /** Exactly one of the two sources sets the value. */
  predicate ExactlyOne<T>(build: Option<T>, xml: Option<T>)
  {
    build.Some? != xml.Some?
  }

  /** The preferred value when it is set, else the fallback. */
  function Prefer<T>(preferred: Option<T>, fallback: Option<T>): Option<T>
  {
    if preferred.Some? then preferred else fallback
  }

  lemma MessagesDiffer()
    ensures NOT_CONFIGURED_MESSAGE != CANNOT_OVERRIDE_MESSAGE
    ensures NOT_CONFIGURED_MESSAGE != PROPERTY_NOT_SET_MESSAGE
    ensures CANNOT_OVERRIDE_MESSAGE != PROPERTY_NOT_SET_MESSAGE
  {
    assert |NOT_CONFIGURED_MESSAGE| != |CANNOT_OVERRIDE_MESSAGE|;
    assert |NOT_CONFIGURED_MESSAGE| != |PROPERTY_NOT_SET_MESSAGE|;
    assert |CANNOT_OVERRIDE_MESSAGE| != |PROPERTY_NOT_SET_MESSAGE|;
  }
}
