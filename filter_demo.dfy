/**
 * The low-pass filter audio unit and its view controller.
 *
 * The audio unit guards its render resources (the frame limit is frozen while
 * they are allocated; allocation needs matching input and output channel
 * counts) and forwards view-configuration choices to the view controller that
 * owns it. The view controller keeps the active configuration and records the
 * view transition each change asks for.
 *
 * Both classes live in one module because each holds a reference to the other.
 */
module FilterDemo {
  import opened ViewConfiguration

  datatype Option<T> = None | Some(value: T)

  /** The outcome of an operation that can throw an OSStatus-coded error. */
  datatype Outcome = Pass | Fail(code: int)

  /** `kAudioUnitErr_FailedInitialization` in AudioToolbox. */
  const FailedInitialization: int := -10875

  /** `AUAudioFrameCount`, an unsigned 32-bit count. */
  type FrameCount = n: int | 0 <= n < 0x1_0000_0000

  /** The calls the audio unit makes to its collaborators (the `AUAudioUnit`
      superclass and the kernel adapter) during render-resource changes. */
  datatype LifecycleCall = SuperAllocate | KernelAllocate | SuperDeallocate | KernelDeallocate

  /** The two views the controller swaps between. */
  datatype View = CompactView | ExpandedView

  /** A cross-fade from one view to another. */
  datatype Transition = Transition(from: View, to: View)

  /** The controller's two configurations, `compact` and `expanded`. */
  const Compact: Config := Config(0, 400.0, 100.0, false)
  const Expanded: Config := Config(1, 800.0, 500.0, false)

  /** A configuration is the default (large) one when it is at least as wide and
      as tall as `expanded`. */
  predicate IsDefault(c: Config) {
    c.width >= Expanded.width && c.height >= Expanded.height
  }

  /** The view transition that selecting `c` asks for: into the expanded view for
      a default-sized configuration, into the compact view otherwise. */
  function TransitionFor(c: Config): (t: Transition)
    ensures t.from != t.to
    ensures t.to == ExpandedView <==> IsDefault(c)
    ensures t.from == ExpandedView <==> !IsDefault(c)
  {
    if IsDefault(c) then Transition(CompactView, ExpandedView)
    else Transition(ExpandedView, CompactView)
  }

  /** The configuration a toggle asks for, given the active one (absent before
      the view has loaded). */
  function ToggleRequest(active: Option<Config>): (requested: Config)
    ensures requested == Compact || requested == Expanded
    ensures requested == Compact <==> active == Some(Expanded)
    ensures active == Some(Compact) ==> requested == Expanded
  {
    if active == Some(Expanded) then Compact else Expanded
  }

  /** The transitions a selection of `requested` adds, given the active
      configuration: none when it is already active. */
  function SelectionTransitions(active: Option<Config>, requested: Config): seq<Transition> {
    if active == Some(requested) then [] else [TransitionFor(requested)]
  }

  /** The render side of the adapter to the C++ kernel. Its implementation is not
      part of this model; its allocation is a flag. */
  class FilterDSPKernelAdapter {
    var maximumFramesToRender: FrameCount
    var inputChannelCount: nat
    var outputChannelCount: nat
    var resourcesAllocated: bool

    /** The bus formats and the frame limit are set up by code outside this
        model, so they are parameters. */
    constructor (inputChannels: nat, outputChannels: nat, maxFrames: FrameCount)
      ensures inputChannelCount == inputChannels && outputChannelCount == outputChannels
      ensures maximumFramesToRender == maxFrames && !resourcesAllocated
    {
      inputChannelCount, outputChannelCount := inputChannels, outputChannels;
      maximumFramesToRender := maxFrames;
      resourcesAllocated := false;
    }

    method AllocateRenderResources()
      modifies this`resourcesAllocated
      ensures resourcesAllocated
    {
      resourcesAllocated := true;
    }

    method DeallocateRenderResources()
      modifies this`resourcesAllocated
      ensures !resourcesAllocated
    {
      resourcesAllocated := false;
    }
  }

  /** The audio unit. `renderResourcesAllocated` is the superclass's flag;
      `history` records the order of the calls to the superclass and kernel. */
  class AUv3FilterDemo {
    const kernelAdapter: FilterDSPKernelAdapter
    var renderResourcesAllocated: bool
    var viewController: AUv3FilterDemoViewController?
    ghost var history: seq<LifecycleCall>

    /** The kernel never holds resources that the audio unit does not. */
    ghost predicate RenderStateConsistent()
      reads this, kernelAdapter
    {
      kernelAdapter.resourcesAllocated ==> renderResourcesAllocated
    }

    predicate ChannelCountsMatch()
      reads this, kernelAdapter
    {
      kernelAdapter.outputChannelCount == kernelAdapter.inputChannelCount
    }

    /** Creates the unit's own kernel adapter, which no other unit shares. The
        adapter's bus channel counts and frame limit come from code outside
        this model, so they are parameters. */
    constructor (inputChannels: nat, outputChannels: nat, maxFrames: FrameCount)
      ensures fresh(kernelAdapter) && RenderStateConsistent()
      ensures kernelAdapter.inputChannelCount == inputChannels && kernelAdapter.outputChannelCount == outputChannels
      ensures MaximumFramesToRender() == maxFrames && !kernelAdapter.resourcesAllocated
      ensures !renderResourcesAllocated && viewController == null && history == []
    {
      kernelAdapter := new FilterDSPKernelAdapter(inputChannels, outputChannels, maxFrames);
      renderResourcesAllocated := false;
      viewController := null;
      history := [];
    }

    /** The frame limit the host reads back is the kernel adapter's own. */
    function MaximumFramesToRender(): (frames: FrameCount)
      reads this, kernelAdapter
      ensures frames == kernelAdapter.maximumFramesToRender
    {
      kernelAdapter.maximumFramesToRender
    }

    /** The setter is ignored while render resources are allocated. */
    method SetMaximumFramesToRender(newValue: FrameCount)
      modifies kernelAdapter`maximumFramesToRender
      ensures MaximumFramesToRender() == if old(renderResourcesAllocated) then old(MaximumFramesToRender()) else newValue
    {
      if !renderResourcesAllocated {
        kernelAdapter.maximumFramesToRender := newValue;
      }
    }

    /** Fails with `FailedInitialization`, calling nobody, when the channel
        counts differ; otherwise allocates in the superclass (whose outcome is
        `superclassOutcome`) and, only if that succeeded, in the kernel. */
    method AllocateRenderResources(superclassOutcome: Outcome) returns (outcome: Outcome)
      requires RenderStateConsistent()
      modifies this`renderResourcesAllocated, this`history, kernelAdapter`resourcesAllocated
      ensures RenderStateConsistent()
      ensures !ChannelCountsMatch() ==>
        outcome == Fail(FailedInitialization) && history == old(history) &&
        renderResourcesAllocated == old(renderResourcesAllocated) &&
        kernelAdapter.resourcesAllocated == old(kernelAdapter.resourcesAllocated)
      ensures ChannelCountsMatch() ==>
        outcome == superclassOutcome &&
        history == old(history) + [SuperAllocate] + (if superclassOutcome.Pass? then [KernelAllocate] else []) &&
        renderResourcesAllocated == (old(renderResourcesAllocated) || superclassOutcome.Pass?) &&
        kernelAdapter.resourcesAllocated == (old(kernelAdapter.resourcesAllocated) || superclassOutcome.Pass?)
    {
      if kernelAdapter.outputChannelCount != kernelAdapter.inputChannelCount {
        return Fail(FailedInitialization);
      }
      history := history + [SuperAllocate];
      if superclassOutcome.Fail? {
        return superclassOutcome;
      }
      renderResourcesAllocated := true;
      history := history + [KernelAllocate];
      kernelAdapter.AllocateRenderResources();
      outcome := Pass;
    }

    method DeallocateRenderResources()
      modifies this`renderResourcesAllocated, this`history, kernelAdapter`resourcesAllocated
      ensures RenderStateConsistent()
      ensures !renderResourcesAllocated && !kernelAdapter.resourcesAllocated
      ensures history == old(history) + [SuperDeallocate, KernelDeallocate]
    {
      renderResourcesAllocated := false;
      history := history + [SuperDeallocate];
      kernelAdapter.DeallocateRenderResources();
      history := history + [KernelDeallocate];
    }

    /** The owning view controller, as a set of at most one object. */
    function Owner(): set<AUv3FilterDemoViewController>
      reads this
    {
      if viewController == null then {} else {viewController}
    }

    /** Passes the configuration unchanged to the owning view controller, if any. */
    method Select(viewConfiguration: Config)
      modifies Owner()`viewConfig, Owner()`transitions
      ensures viewController != null ==>
        viewController.viewConfig == Some(viewConfiguration) &&
        viewController.transitions == old(viewController.transitions) + SelectionTransitions(old(viewController.viewConfig), viewConfiguration)
    {
      if viewController != null {
        viewController.SelectViewConfiguration(viewConfiguration);
      }
    }
  }

  /** The view controller. `viewConfig` is absent until the view loads;
      `transitions` records every view transition the controller asks for. */
  class AUv3FilterDemoViewController {
    var viewConfig: Option<Config>
    var needsConnection: bool
    var isViewLoaded: bool
    var audioUnit: AUv3FilterDemo?
    var transitions: seq<Transition>

    constructor ()
      ensures viewConfig == None && needsConnection && !isViewLoaded
      ensures audioUnit == null && transitions == []
    {
      viewConfig := None;
      needsConnection := true;
      isViewLoaded := false;
      audioUnit := null;
      transitions := [];
    }

    /** The configurations offered to the host: the default, large one first,
        then the compact one. */
    function ViewConfigurations(): (offered: seq<Config>)
      ensures |offered| == 2 && offered[0] != offered[1]
      ensures IsDefault(offered[0]) && !IsDefault(offered[1])
      ensures offered[0] == Expanded && offered[1] == Compact
      ensures offered[0] == ToggleRequest(Some(Compact)) && offered[1] == ToggleRequest(Some(Expanded))
    {
      [Expanded, Compact]
    }

    /** The view controller that a selection through the attached audio unit
        reaches, as a set of at most one object. */
    function ForwardTarget(): set<AUv3FilterDemoViewController>
      reads this, audioUnit
    {
      if audioUnit == null then {} else audioUnit.Owner()
    }

    /** Attaching an audio unit makes this controller its owner and connects
        the view if it has already loaded. */
    method SetAudioUnit(au: AUv3FilterDemo?)
      modifies this`audioUnit, this`needsConnection, (if au == null then {} else {au})`viewController
      ensures audioUnit == au
      ensures au != null ==> au.viewController == this
      ensures needsConnection == (old(needsConnection) && !isViewLoaded)
    {
      audioUnit := au;
      if au != null {
        au.viewController := this;
      }
      if isViewLoaded {
        ConnectViewToAU();
      }
    }

    /** Loads the view, makes the expanded configuration active and connects
        the view when an audio unit is attached. */
    method ViewDidLoad()
      modifies this`isViewLoaded, this`viewConfig, this`needsConnection
      ensures isViewLoaded && viewConfig == Some(Expanded)
      ensures needsConnection == (old(needsConnection) && audioUnit == null)
    {
      isViewLoaded := true;
      viewConfig := Some(Expanded);
      if audioUnit == null {
        return;
      }
      ConnectViewToAU();
    }

    method ConnectViewToAU()
      modifies this`needsConnection
      ensures !needsConnection
    {
      needsConnection := false;
    }

    /** Asks the attached audio unit to select the other configuration; the
        audio unit passes the request to its owning controller. */
    method ToggleViewConfiguration()
      modifies ForwardTarget()`viewConfig, ForwardTarget()`transitions
      ensures var target := old(ForwardTarget());
        forall vc | vc in target ::
          vc.viewConfig == Some(ToggleRequest(old(viewConfig))) &&
          vc.transitions == old(vc.transitions) + SelectionTransitions(old(vc.viewConfig), ToggleRequest(old(viewConfig)))
    {
      if audioUnit != null {
        audioUnit.Select(ToggleRequest(viewConfig));
      }
    }

    /** Does nothing when `c` is already active; otherwise makes it active and
        asks for the transition its size calls for. */
    method SelectViewConfiguration(c: Config)
      modifies this`viewConfig, this`transitions
      ensures viewConfig == Some(c)
      ensures old(viewConfig) == Some(c) ==> transitions == old(transitions)
      ensures old(viewConfig) != Some(c) ==> transitions == old(transitions) + [TransitionFor(c)]
    {
      if viewConfig == Some(c) {
        return;
      }
      viewConfig := Some(c);
      transitions := transitions + [TransitionFor(c)];
    }
  }

  /** Two toggles through an audio unit owned by this controller restore the
      active configuration, passing through the other one with two opposite
      transitions. */
  method TwoTogglesRestore(vc: AUv3FilterDemoViewController)
    requires vc.audioUnit != null && vc.audioUnit.viewController == vc
    requires vc.viewConfig == Some(Compact) || vc.viewConfig == Some(Expanded)
    modifies vc`viewConfig, vc`transitions
    ensures vc.viewConfig == old(vc.viewConfig)
    ensures exists t1, t2 ::
      && vc.transitions == old(vc.transitions) + [t1, t2]
      && t1.from == t2.to && t1.to == t2.from
      && (t1.to == ExpandedView <==> old(vc.viewConfig) == Some(Compact))
  {
    vc.ToggleViewConfiguration();
    vc.ToggleViewConfiguration();
  }

  /** Every configuration the controller offers is one the audio unit supports. */
  lemma OfferedConfigurationsSupported(vc: AUv3FilterDemoViewController)
    ensures AcceptedIndices(vc.ViewConfigurations()) == {0, 1}
  {
    var offered := vc.ViewConfigurations();
    assert IsSupported(offered[0]) && IsSupported(offered[1]);
  }

  /** The audio unit's acceptance policy, seen through the controller's rule: a
      supported size is either a default one or fits the compact bound. */
  lemma SupportedIsDefaultOrCompact(c: Config)
    ensures IsSupported(c) <==> IsDefault(c) || IsCompactSize(c.width, c.height)
  {
  }

  /** Toggling from either offered configuration and toggling again comes back. */
  lemma ToggleRequestInvolutive(c: Config)
    requires c == Compact || c == Expanded
    ensures ToggleRequest(Some(ToggleRequest(Some(c)))) == c
    ensures ToggleRequest(Some(c)) != c
  {
  }
}
