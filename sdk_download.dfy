/**
 * The managed Cloud SDK downloader: installing the SDK, its app-engine-java
 * component and updates, in that order and only where needed, and the rule
 * by which an installed SDK is judged valid.
 */
module SdkDownload {
  import opened Wrappers

  /** The version string that asks for the newest SDK. */
  const LATEST := "LATEST"

  /** The three provisioning steps, in the order they are taken. */
  datatype Step = Install | InstallComponent | Update

  function Rank(step: Step): nat
  {
    match step
    case Install => 0
    case InstallComponent => 1
    case Update => 2
  }

  /** Each step at most once, and in the order install, component, update. */
  predicate InOrder(steps: seq<Step>)
  {
    forall i, j :: 0 <= i < j < |steps| ==> Rank(steps[i]) < Rank(steps[j])
  }

  /** What the managed SDK reports about the installation for the requested version. */
  datatype SdkState = SdkState(installed: bool, hasAppEngineJava: bool, upToDate: bool)

  /**
   * The failures the foreign collaborators raise, if asked: creating the managed
   * SDK (unsupported OS, malformed version) and each step. None means success.
   */
  datatype Faults = Faults(create: Option<string>, install: Option<string>, component: Option<string>, update: Option<string>)

  function FaultOf(faults: Faults, step: Step): Option<string>
  {
    match step
    case Install => faults.install
    case InstallComponent => faults.component
    case Update => faults.update
  }

  /** Whether the downloader takes the step, judged on the state at that point. */
  predicate Needed(s: SdkState, version: string, step: Step)
  {
    match step
    case Install => !s.installed
    case InstallComponent => !s.hasAppEngineJava
    case Update => version == LATEST && !s.upToDate
  }

  /** The effect of a step that succeeded. */
  function Apply(s: SdkState, step: Step): SdkState
  {
    match step
    case Install => s.(installed := true)
    case InstallComponent => s.(hasAppEngineJava := true)
    case Update => s.(upToDate := true)
  }

  /** Nothing left to do for this version: installed, with the component, and up to date if LATEST. */
  predicate Settled(s: SdkState, version: string)
  {
    s.installed && s.hasAppEngineJava && (version == LATEST ==> s.upToDate)
  }

  /** A call's outcome: the installation afterwards, the steps taken, and the SDK home or the error message. */
  datatype Outcome = Outcome(state: SdkState, steps: seq<Step>, result: Result<string, string>)

  /** Take `step` if nothing has failed yet and the step is needed. */
  function Attempt(o: Outcome, version: string, faults: Faults, step: Step): Outcome
  {
    if o.result.Failure? || !Needed(o.state, version, step) then o
    else match FaultOf(faults, step)
      case Some(message) => Outcome(o.state, o.steps + [step], Failure(message))
      case None => Outcome(Apply(o.state, step), o.steps + [step], o.result)
  }

  /** What one downloadSdk call does to installation `s` whose home is `home`. */
  function Download(s: SdkState, version: string, home: string, faults: Faults): (o: Outcome)
    ensures |o.steps| <= 3 && InOrder(o.steps)
    // success returns the SDK home and leaves nothing to do
    ensures o.result.Success? ==> o.result.value == home && Settled(o.state, version)
    // a settled installation is left alone
    ensures Settled(s, version) ==> o.steps == [] && o.state == s
  {
    if faults.create.Some? then
      Outcome(s, [], Failure(faults.create.value))
    else
      var installed := Attempt(Outcome(s, [], Success(home)), version, faults, Install);
      var withComponent := Attempt(installed, version, faults, InstallComponent);
      Attempt(withComponent, version, faults, Update)
  }

  /** Which steps a call takes: each exactly when it is needed and nothing failed before it. */
  lemma {:induction false} DownloadTakesNeededSteps(s: SdkState, version: string, home: string, faults: Faults)
    ensures var o := Download(s, version, home, faults);
      // install iff not installed
      && (Install in o.steps <==> faults.create.None? && !s.installed)
      // the component iff it is absent
      && (InstallComponent in o.steps <==>
            faults.create.None? && (!s.installed ==> faults.install.None?) && !s.hasAppEngineJava)
      // update iff LATEST was asked for and the SDK is out of date; a pinned version never updates
      && (Update in o.steps <==>
            && faults.create.None? && (!s.installed ==> faults.install.None?)
            && (!s.hasAppEngineJava ==> faults.component.None?)
            && version == LATEST && !s.upToDate)
  {
    var o := Download(s, version, home, faults);
    if faults.create.None? {
      var installed := Attempt(Outcome(s, [], Success(home)), version, faults, Install);
      assert installed.steps == if s.installed then [] else [Install];
      var withComponent := Attempt(installed, version, faults, InstallComponent);
      assert InstallComponent in withComponent.steps <==>
        installed.result.Success? && !s.hasAppEngineJava;
    }
  }

  /** A call stops at the first failure and reports that failure's message. */
  lemma {:induction false} DownloadStopsAtFailure(s: SdkState, version: string, home: string, faults: Faults)
    ensures var o := Download(s, version, home, faults);
      // no step is taken after one that failed
      && (forall k :: 0 <= k < |o.steps| - 1 ==> FaultOf(faults, o.steps[k]).None?)
      && (o.result.Success? <==> faults.create.None? && forall step :: step in o.steps ==> FaultOf(faults, step).None?)
      && (o.result.Failure? && o.steps == [] ==> faults.create == Some(o.result.error))
      && (o.result.Failure? && o.steps != [] ==> FaultOf(faults, o.steps[|o.steps| - 1]) == Some(o.result.error))
  {
  }

  /** Only the steps that succeed change the installation. */
  lemma {:induction false} DownloadChangesOnlyBySteps(s: SdkState, version: string, home: string, faults: Faults)
    ensures var o := Download(s, version, home, faults);
      && (o.state.installed <==> s.installed || (Install in o.steps && faults.install.None?))
      && (o.state.hasAppEngineJava <==> s.hasAppEngineJava || (InstallComponent in o.steps && faults.component.None?))
      && (o.state.upToDate <==> s.upToDate || (Update in o.steps && faults.update.None?))
  {
  }

  /**
   * The outcomes of consecutive downloadSdk calls for one version against one
   * installation, the k-th call meeting the failures faults[k].
   */
  function DownloadSeries(s: SdkState, version: string, home: string, faults: seq<Faults>): (os: seq<Outcome>)
    ensures |os| == |faults|
    // each call starts from the installation the previous one left
    ensures forall k :: 0 <= k < |os| ==>
      os[k] == Download(if k == 0 then s else os[k - 1].state, version, home, faults[k])
    decreases |faults|
  {
    if faults == [] then []
    else
      var first := Download(s, version, home, faults[0]);
      [first] + DownloadSeries(first.state, version, home, faults[1..])
  }

  /**
   * After one call has succeeded, every later call takes no step and changes
   * nothing. For LATEST this relies on no new release being published between
   * calls: the installation's flags change only through the steps here.
   */
  lemma {:induction false} QuietAfterSuccess(s: SdkState, version: string, home: string, faults: seq<Faults>, i: nat, j: nat)
    requires i < j < |faults|
    requires DownloadSeries(s, version, home, faults)[i].result.Success?
    ensures var os := DownloadSeries(s, version, home, faults);
      os[j].steps == [] && os[j].state == os[i].state
    decreases j - i
  {
    var os := DownloadSeries(s, version, home, faults);
    if i < j - 1 {
      QuietAfterSuccess(s, version, home, faults, i, j - 1);
    }
    assert os[i] == Download(if i == 0 then s else os[i - 1].state, version, home, faults[i]);
    assert Settled(os[j - 1].state, version);
    assert os[j] == Download(os[j - 1].state, version, home, faults[j]);
  }

  /** The version check shared by isSdkValid and the check task: LATEST matches any installed version. */
  predicate VersionMatches(requested: string, installed: string)
  {
    requested == LATEST || requested == installed
  }

  /**
   * isSdkValid: `installedVersion` is the version the SDK at the given home
   * reports, `validationFailure` what validating it raises, if anything.
   */
  function IsSdkValid(version: string, installedVersion: string, validationFailure: Option<string>): (valid: bool)
    ensures version != LATEST && version != installedVersion ==> !valid
    ensures validationFailure.Some? ==> !valid
    ensures version == LATEST && validationFailure.None? ==> valid
    ensures version == installedVersion && validationFailure.None? ==> valid
  {
    if !VersionMatches(version, installedVersion) then false
    else validationFailure.None?
  }

  /** A logged request to a collaborator: which step, through which object. */
  datatype Call = Call(step: Step, tool: object?)

  /** Of the installer, component installer and updater, the one that carries out `step`. */
  function ToolFor(step: Step, installer: object?, componentInstaller: object?, updater: object?): object?
  {
    match step
    case Install => installer
    case InstallComponent => componentInstaller
    case Update => updater
  }

  /** The log entries for `steps`, each made through the object that carries it out. */
  ghost function CallsFor(steps: seq<Step>, installer: object?, componentInstaller: object?, updater: object?): seq<Call>
  {
    if steps == [] then []
    else [Call(steps[0], ToolFor(steps[0], installer, componentInstaller, updater))]
         + CallsFor(steps[1..], installer, componentInstaller, updater)
  }

  /** The log entries depend only on the objects that carry out the given steps. */
  lemma {:induction false} CallsForFrame(steps: seq<Step>, installer: object?, componentInstaller: object?, updater: object?,
                                         installer': object?, componentInstaller': object?, updater': object?)
    requires forall step :: step in steps ==>
      ToolFor(step, installer, componentInstaller, updater) == ToolFor(step, installer', componentInstaller', updater')
    ensures CallsFor(steps, installer, componentInstaller, updater) == CallsFor(steps, installer', componentInstaller', updater')
  {
    if steps != [] {
      assert steps[0] in steps;
      CallsForFrame(steps[1..], installer, componentInstaller, updater, installer', componentInstaller', updater');
    }
  }

  lemma {:induction false} CallsForAppend(steps: seq<Step>, step: Step, installer: object?, componentInstaller: object?, updater: object?)
    ensures CallsFor(steps + [step], installer, componentInstaller, updater)
         == CallsFor(steps, installer, componentInstaller, updater) + [Call(step, ToolFor(step, installer, componentInstaller, updater))]
  {
    if steps != [] {
      assert (steps + [step])[1..] == steps[1..] + [step];
      CallsForAppend(steps[1..], step, installer, componentInstaller, updater);
    }
  }

  /** A managed SDK installation on disk, as the collaborators see and change it. */
  class SdkInstallation {
    var installed: bool
    var hasAppEngineJava: bool
    var upToDate: bool
    const home: string
    ghost var calls: seq<Call>

    constructor (state: SdkState, home: string)
      ensures State() == state && this.home == home && calls == []
    {
      installed, hasAppEngineJava, upToDate := state.installed, state.hasAppEngineJava, state.upToDate;
      this.home := home;
      calls := [];
    }

    function State(): SdkState
      reads this
    {
      SdkState(installed, hasAppEngineJava, upToDate)
    }
  }

  /**
   * Installs the SDK. An installer is bound to the installation it was made
   * for and acts on that one only; `fault` is what the foreign installer
   * raises, if anything.
   */
  class SdkInstaller {
    const target: SdkInstallation

    constructor (target: SdkInstallation)
      ensures this.target == target
    {
      this.target := target;
    }

    method Install(fault: Option<string>) returns (error: Option<string>)
      modifies target
      ensures error == fault
      ensures target.State() == if fault.None? then Apply(old(target.State()), Step.Install) else old(target.State())
      ensures target.calls == old(target.calls) + [Call(Step.Install, this)]
    {
      target.calls := target.calls + [Call(Step.Install, this)];
      if fault.None? {
        target.installed := true;
      }
      error := fault;
    }
  }

  /** Installs the app-engine-java component into the installation it was made for. */
  class SdkComponentInstaller {
    const target: SdkInstallation

    constructor (target: SdkInstallation)
      ensures this.target == target
    {
      this.target := target;
    }

    method InstallComponent(fault: Option<string>) returns (error: Option<string>)
      modifies target
      ensures error == fault
      ensures target.State() == if fault.None? then Apply(old(target.State()), Step.InstallComponent) else old(target.State())
      ensures target.calls == old(target.calls) + [Call(Step.InstallComponent, this)]
    {
      target.calls := target.calls + [Call(Step.InstallComponent, this)];
      if fault.None? {
        target.hasAppEngineJava := true;
      }
      error := fault;
    }
  }

  /** Updates the installation it was made for to the newest release. */
  class SdkUpdater {
    const target: SdkInstallation

    constructor (target: SdkInstallation)
      ensures this.target == target
    {
      this.target := target;
    }

    method Update(fault: Option<string>) returns (error: Option<string>)
      modifies target
      ensures error == fault
      ensures target.State() == if fault.None? then Apply(old(target.State()), Step.Update) else old(target.State())
      ensures target.calls == old(target.calls) + [Call(Step.Update, this)]
    {
      target.calls := target.calls + [Call(Step.Update, this)];
      if fault.None? {
        target.upToDate := true;
      }
      error := fault;
    }
  }

  class CloudSdkDownloader {
    var installer: SdkInstaller?
    var componentInstaller: SdkComponentInstaller?
    var updater: SdkUpdater?

    /** The installations the held installer, component installer and updater act on. */
    ghost function Targets(): set<SdkInstallation>
      reads this
    {
      (if installer != null then {installer.target} else {})
      + (if componentInstaller != null then {componentInstaller.target} else {})
      + (if updater != null then {updater.target} else {})
    }

    /** Every held installer, component installer and updater acts on `sdk`. */
    ghost predicate BoundTo(sdk: SdkInstallation)
      reads this
    {
      && (installer != null ==> installer.target == sdk)
      && (componentInstaller != null ==> componentInstaller.target == sdk)
      && (updater != null ==> updater.target == sdk)
    }

    constructor ()
      ensures installer == null && componentInstaller == null && updater == null
    {
      installer, componentInstaller, updater := null, null, null;
    }

    method SetInstaller(installer: SdkInstaller?)
      modifies this`installer
      ensures this.installer == installer
    {
      this.installer := installer;
    }

    method SetComponentInstaller(componentInstaller: SdkComponentInstaller?)
      modifies this`componentInstaller
      ensures this.componentInstaller == componentInstaller
    {
      this.componentInstaller := componentInstaller;
    }

    method SetUpdater(updater: SdkUpdater?)
      modifies this`updater
      ensures this.updater == updater
    {
      this.updater := updater;
    }

    /**
     * The first block of downloadSdk: install the SDK if it is not installed.
     * Which steps run and what the call returns follow from the installation's
     * flags alone; the installation and its log follow `Attempt` when the held
     * tools are bound to it.
     */
    method InstallIfMissing(version: string, sdk: SdkInstallation, faults: Faults, ghost o: Outcome, ghost calls: seq<Call>)
      returns (error: Option<string>, ghost next: Outcome)
      requires o.result.Success? && o.state == sdk.State() && o.steps == []
      requires BoundTo(sdk) ==> sdk.calls == calls
      modifies this`installer, sdk, Targets()
      ensures next == Attempt(o, version, faults, Install)
      ensures error == (if next.result.Failure? then Some(next.result.error) else None)
      // the flags the later blocks read are as the model has them
      ensures sdk.hasAppEngineJava == next.state.hasAppEngineJava && sdk.upToDate == next.state.upToDate
      ensures old(installer) != null ==> installer == old(installer)
      ensures installer != null <==> old(installer) != null || Install in next.steps
      ensures old(installer) == null && installer != null ==> fresh(installer) && installer.target == sdk
      ensures BoundTo(sdk) == old(BoundTo(sdk))
      ensures old(BoundTo(sdk)) ==>
        && sdk.State() == next.state
        && sdk.calls == calls + CallsFor(next.steps, installer, componentInstaller, updater)
    {
      next := o;
      error := None;
      if !sdk.installed {
        if installer == null {
          installer := new SdkInstaller(sdk);
        }
        error := installer.Install(faults.install);
        next := Attempt(o, version, faults, Install);
        assert next.steps == [Install];
      }
    }

    /** The second block: install the app-engine-java component if it is absent. */
    method InstallComponentIfMissing(version: string, sdk: SdkInstallation, faults: Faults, ghost o: Outcome, ghost calls: seq<Call>)
      returns (error: Option<string>, ghost next: Outcome)
      requires o.result.Success? && InstallComponent !in o.steps && Update !in o.steps
      requires sdk.hasAppEngineJava == o.state.hasAppEngineJava && sdk.upToDate == o.state.upToDate
      requires BoundTo(sdk) ==>
        o.state == sdk.State() && sdk.calls == calls + CallsFor(o.steps, installer, componentInstaller, updater)
      modifies this`componentInstaller, sdk, Targets()
      ensures next == Attempt(o, version, faults, InstallComponent)
      ensures error == (if next.result.Failure? then Some(next.result.error) else None)
      ensures sdk.upToDate == next.state.upToDate
      ensures old(componentInstaller) != null ==> componentInstaller == old(componentInstaller)
      ensures componentInstaller != null <==> old(componentInstaller) != null || InstallComponent in next.steps
      ensures old(componentInstaller) == null && componentInstaller != null ==> fresh(componentInstaller) && componentInstaller.target == sdk
      ensures BoundTo(sdk) == old(BoundTo(sdk))
      ensures old(BoundTo(sdk)) ==>
        && sdk.State() == next.state
        && sdk.calls == calls + CallsFor(next.steps, installer, componentInstaller, updater)
    {
      next := o;
      error := None;
      if !sdk.hasAppEngineJava {
        if componentInstaller == null {
          ghost var previous := componentInstaller;
          componentInstaller := new SdkComponentInstaller(sdk);
          CallsForFrame(o.steps, installer, previous, updater, installer, componentInstaller, updater);
        }
        ghost var before := sdk.calls;
        error := componentInstaller.InstallComponent(faults.component);
        CallsForAppend(o.steps, InstallComponent, installer, componentInstaller, updater);
        next := Attempt(o, version, faults, InstallComponent);
        assert next.steps == o.steps + [InstallComponent];
        assert BoundTo(sdk) ==> sdk.calls == before + [Call(InstallComponent, componentInstaller)];
      }
    }

    /** The third block: update the SDK if LATEST was asked for and it is out of date. */
    method UpdateIfLatest(version: string, sdk: SdkInstallation, faults: Faults, ghost o: Outcome, ghost calls: seq<Call>)
      returns (error: Option<string>, ghost next: Outcome)
      requires o.result.Success? && Update !in o.steps && sdk.upToDate == o.state.upToDate
      requires BoundTo(sdk) ==>
        o.state == sdk.State() && sdk.calls == calls + CallsFor(o.steps, installer, componentInstaller, updater)
      modifies this`updater, sdk, Targets()
      ensures next == Attempt(o, version, faults, Update)
      ensures error == (if next.result.Failure? then Some(next.result.error) else None)
      ensures old(updater) != null ==> updater == old(updater)
      ensures updater != null <==> old(updater) != null || Update in next.steps
      ensures old(updater) == null && updater != null ==> fresh(updater) && updater.target == sdk
      ensures BoundTo(sdk) == old(BoundTo(sdk))
      ensures old(BoundTo(sdk)) ==>
        && sdk.State() == next.state
        && sdk.calls == calls + CallsFor(next.steps, installer, componentInstaller, updater)
    {
      next := o;
      error := None;
      if version == LATEST && !sdk.upToDate {
        if updater == null {
          ghost var previous := updater;
          updater := new SdkUpdater(sdk);
          CallsForFrame(o.steps, installer, componentInstaller, previous, installer, componentInstaller, updater);
        }
        ghost var before := sdk.calls;
        error := updater.Update(faults.update);
        CallsForAppend(o.steps, Update, installer, componentInstaller, updater);
        next := Attempt(o, version, faults, Update);
        assert next.steps == o.steps + [Update];
        assert BoundTo(sdk) ==> sdk.calls == before + [Call(Update, updater)];
      }
    }

    /** The second and third blocks, after the install block succeeded or was skipped. */
    method CompleteInstallation(version: string, sdk: SdkInstallation, faults: Faults, ghost o: Outcome, ghost calls: seq<Call>)
      returns (error: Option<string>, ghost final: Outcome)
      requires o.result.Success? && InstallComponent !in o.steps && Update !in o.steps
      requires sdk.hasAppEngineJava == o.state.hasAppEngineJava && sdk.upToDate == o.state.upToDate
      requires BoundTo(sdk) ==>
        o.state == sdk.State() && sdk.calls == calls + CallsFor(o.steps, installer, componentInstaller, updater)
      modifies this`componentInstaller, this`updater, sdk, Targets()
      ensures final == Attempt(Attempt(o, version, faults, InstallComponent), version, faults, Update)
      ensures error == (if final.result.Failure? then Some(final.result.error) else None)
      ensures old(componentInstaller) != null ==> componentInstaller == old(componentInstaller)
      ensures componentInstaller != null <==> old(componentInstaller) != null || InstallComponent in final.steps
      ensures old(componentInstaller) == null && componentInstaller != null ==> fresh(componentInstaller) && componentInstaller.target == sdk
      ensures old(updater) != null ==> updater == old(updater)
      ensures updater != null <==> old(updater) != null || Update in final.steps
      ensures old(updater) == null && updater != null ==> fresh(updater) && updater.target == sdk
      ensures BoundTo(sdk) == old(BoundTo(sdk))
      ensures old(BoundTo(sdk)) ==>
        && sdk.State() == final.state
        && sdk.calls == calls + CallsFor(final.steps, installer, componentInstaller, updater)
    {
      ghost var withComponent;
      error, withComponent := InstallComponentIfMissing(version, sdk, faults, o, calls);
      assert withComponent.steps == o.steps || withComponent.steps == o.steps + [InstallComponent];
      if error.Some? {
        final := Attempt(withComponent, version, faults, Update);
        return;
      }
      error, final := UpdateIfLatest(version, sdk, faults, withComponent, calls);
      assert final.steps == withComponent.steps || final.steps == withComponent.steps + [Update];
    }

    /** The three blocks of downloadSdk after the managed SDK is created, stopping at the first failure. */
    method Provision(version: string, sdk: SdkInstallation, faults: Faults, ghost start: Outcome) returns (error: Option<string>, ghost final: Outcome)
      requires start == Outcome(sdk.State(), [], Success(sdk.home))
      modifies this, sdk, Targets()
      ensures final == Attempt(Attempt(Attempt(start, version, faults, Install), version, faults, InstallComponent), version, faults, Update)
      ensures error == (if final.result.Failure? then Some(final.result.error) else None)
      ensures old(installer) != null ==> installer == old(installer)
      ensures installer != null <==> old(installer) != null || Install in final.steps
      ensures old(installer) == null && installer != null ==> fresh(installer) && installer.target == sdk
      ensures old(componentInstaller) != null ==> componentInstaller == old(componentInstaller)
      ensures componentInstaller != null <==> old(componentInstaller) != null || InstallComponent in final.steps
      ensures old(componentInstaller) == null && componentInstaller != null ==> fresh(componentInstaller) && componentInstaller.target == sdk
      ensures old(updater) != null ==> updater == old(updater)
      ensures updater != null <==> old(updater) != null || Update in final.steps
      ensures old(updater) == null && updater != null ==> fresh(updater) && updater.target == sdk
      ensures BoundTo(sdk) == old(BoundTo(sdk))
      ensures old(BoundTo(sdk)) ==>
        && sdk.State() == final.state
        && sdk.calls == old(sdk.calls) + CallsFor(final.steps, installer, componentInstaller, updater)
    {
      ghost var installed;
      error, installed := InstallIfMissing(version, sdk, faults, start, old(sdk.calls));
      if error.Some? {
        final := Attempt(Attempt(installed, version, faults, InstallComponent), version, faults, Update);
        return;
      }
      error, final := CompleteInstallation(version, sdk, faults, installed, old(sdk.calls));
    }

    /**
     * downloadSdk: install the SDK at `version` into `sdk` if it is missing, add
     * the app-engine-java component if it is absent, and update if LATEST was
     * asked for and the SDK is out of date. Returns the SDK home or the message
     * of the first failure. What is created here is made for `sdk`; what is
     * held from before keeps acting on the installation it was made for, so
     * `sdk` itself and its log follow `Download` when everything held was made
     * for it.
     */
    method DownloadSdk(version: string, sdk: SdkInstallation, faults: Faults) returns (r: Result<string, string>)
      modifies this, sdk, Targets()
      ensures r == Download(old(sdk.State()), version, sdk.home, faults).result
      // an injected or earlier object is kept; a missing one is made for this
      // installation, and only for a step that is taken
      ensures old(installer) != null ==> installer == old(installer)
      ensures installer != null <==> old(installer) != null || Install in Download(old(sdk.State()), version, sdk.home, faults).steps
      ensures old(installer) == null && installer != null ==> fresh(installer) && installer.target == sdk
      ensures old(componentInstaller) != null ==> componentInstaller == old(componentInstaller)
      ensures componentInstaller != null <==>
        old(componentInstaller) != null || InstallComponent in Download(old(sdk.State()), version, sdk.home, faults).steps
      ensures old(componentInstaller) == null && componentInstaller != null ==> fresh(componentInstaller) && componentInstaller.target == sdk
      ensures old(updater) != null ==> updater == old(updater)
      ensures updater != null <==> old(updater) != null || Update in Download(old(sdk.State()), version, sdk.home, faults).steps
      ensures old(updater) == null && updater != null ==> fresh(updater) && updater.target == sdk
      ensures BoundTo(sdk) == old(BoundTo(sdk))
      // a failure to create the managed SDK changes nothing
      ensures faults.create.Some? ==> unchanged(this, sdk) && unchanged(Targets())
      ensures old(BoundTo(sdk)) ==>
        var o := Download(old(sdk.State()), version, sdk.home, faults);
        && sdk.State() == o.state
        && sdk.calls == old(sdk.calls) + CallsFor(o.steps, installer, componentInstaller, updater)
    {
      if faults.create.Some? {
        return Failure(faults.create.value);
      }
      var error;
      ghost var final;
      error, final := Provision(version, sdk, faults, Outcome(sdk.State(), [], Success(sdk.home)));
      if error.Some? {
        return Failure(error.value);
      }
      return Success(sdk.home);
    }
  }
}
