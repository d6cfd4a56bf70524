# AUv3 filter demo: view negotiation and render-resource guard

This project models the control logic of the AUv3 low-pass filter demo plugin.
The signal-processing kernel of this plugin is a stub whose `process` returns at
once, so the model holds no DSP. It covers three pieces of control logic:

- **View-size acceptance** (`ViewConfiguration`, in `view_configuration.dfy`). A host
  proposes a list of view configurations. The audio unit returns the indices of
  the ones it supports. It supports sizes of at most 400 by 100 (compact), sizes of
  at least 800 by 500 (expanded) and the zero-by-zero sentinel. Every size in
  between is rejected. `SupportedViewConfigurations` is the source's loop. It is
  proved equal to the specification function `AcceptedIndices`, which is
  characterised by index membership.
- **Render-resource guard** (`FilterDemo.AUv3FilterDemo`, in `filter_demo.dfy`).
  The `maximumFramesToRender` setter is ignored while render resources are
  allocated. The getter `MaximumFramesToRender` reads the kernel adapter's value.
  Allocation fails with `kAudioUnitErr_FailedInitialization` (-10875) when the
  input and output channel counts differ. In that case neither the superclass
  nor the kernel is called. Otherwise the superclass allocates first, and the
  kernel allocates only if that succeeded. A ghost `history` records this call
  order. The invariant `RenderStateConsistent` says the kernel never holds
  resources that the audio unit does not.
- **View-configuration selection** (`FilterDemo.AUv3FilterDemoViewController`).
  The controller keeps the active configuration in `viewConfig`. Selecting the
  active configuration does nothing. Otherwise the controller makes the new one
  active and records a view transition. A configuration is "default" when it is
  at least 800 wide and 500 tall. A default configuration goes compact → expanded;
  any other goes expanded → compact. A toggle asks the audio unit to select the
  other configuration, and the audio unit passes the request back to its owning
  controller. `TwoTogglesRestore` shows that two toggles restore either offered
  configuration.

Configurations are values of `ViewConfiguration.Config`. In the source they are
objects compared by identity. The `identity` field stands for that identity, so
a host-made 800-by-500 configuration that is not the controller's own `expanded`
object still counts as a different configuration here. Sizes are `real`, because
the source only compares them. `Compact` and `Expanded` carry the identities 0
and 1.

The size check's third disjunct (`size == .zero`) is redundant.
`ZeroSentinelIsCompact` shows that a zero size already passes the compact bound.
This does not change any result.

The audio unit and the view controller each hold a reference to the other. Both
classes are therefore in one Dafny module, `FilterDemo`.

## Model

| member | source | states |
|---|---|---|
| `ViewConfiguration.AcceptedIndices` | Shared/AudioUnit/AUv3FilterDemo.swift:100-118 | an index is in the result exactly when it is a position of the list and that entry is compact-sized, expanded-sized or zero-sized |
| `ViewConfiguration.SupportedViewConfigurations` | Shared/AudioUnit/AUv3FilterDemo.swift:100-118 | the loop's index set holds exactly the valid indices whose entries pass the size test, and equals `AcceptedIndices` |
| `ViewConfiguration.AcceptanceIsLocal` | Shared/AudioUnit/AUv3FilterDemo.swift:106-116 | whether index i is accepted depends only on entry i's width and height, not on other entries, identity or the host-controller flag |
| `ViewConfiguration.AcceptedIndicesOfConcat` | Shared/AudioUnit/AUv3FilterDemo.swift:106-116 | the accepted indices of a concatenation are those of the first part plus those of the second part shifted by the first part's length |
| `ViewConfiguration.AcceptedIndicesInRange` | Shared/AudioUnit/AUv3FilterDemo.swift:106-114 | every returned index is a valid index into the proposed list |
| `ViewConfiguration.ZeroSentinelAccepted` | Shared/AudioUnit/AUv3FilterDemo.swift:110-114 | a zero-by-zero entry is always accepted, wherever it appears |
| `ViewConfiguration.ZeroSentinelIsCompact` | Shared/AudioUnit/AUv3FilterDemo.swift:110-112 | the zero sentinel already satisfies the compact bound, so the third disjunct adds nothing |
| `ViewConfiguration.IntermediateRejected` | Shared/AudioUnit/AUv3FilterDemo.swift:103-112 | a size over the compact bound and under the expanded bound is rejected |
| `ViewConfiguration.IntermediateExamplesRejected` | Shared/AudioUnit/AUv3FilterDemo.swift:110-112 | 600×300 and 800×100 are both rejected |
| `FilterDemo.FilterDSPKernelAdapter.constructor` | Shared/AudioUnit/Support/FilterDSPKernelAdapter.h:14-18 | the adapter starts with the given bus channel counts and frame limit, and with no resources allocated |
| `FilterDemo.FilterDSPKernelAdapter.AllocateRenderResources` | Shared/AudioUnit/Support/FilterDSPKernelAdapter.h:20 | the kernel's resources are allocated afterwards |
| `FilterDemo.FilterDSPKernelAdapter.DeallocateRenderResources` | Shared/AudioUnit/Support/FilterDSPKernelAdapter.h:21 | the kernel's resources are released afterwards |
| `FilterDemo.AUv3FilterDemo.constructor` | Shared/AudioUnit/AUv3FilterDemo.swift:55-63 | a new audio unit creates its own fresh kernel adapter (so no two units share one) with the given channel counts and frame limit, and has no render resources, no owning view controller and an empty call history |
| `FilterDemo.AUv3FilterDemo.MaximumFramesToRender` | Shared/AudioUnit/AUv3FilterDemo.swift:66-68 | the frame limit reported to the host is the kernel adapter's own value, the one the setter guards |
| `FilterDemo.AUv3FilterDemo.SetMaximumFramesToRender` | Shared/AudioUnit/AUv3FilterDemo.swift:65-74 | the kernel's frame limit becomes the new value when render resources are not allocated, and is unchanged when they are |
| `FilterDemo.AUv3FilterDemo.AllocateRenderResources` | Shared/AudioUnit/AUv3FilterDemo.swift:76-82 | channel-count mismatch gives `FailedInitialization` with nothing called or changed; otherwise the superclass is called first, its failure is returned and stops the kernel allocation, and success allocates both; the render-state invariant is kept |
| `FilterDemo.AUv3FilterDemo.DeallocateRenderResources` | Shared/AudioUnit/AUv3FilterDemo.swift:84-87 | the superclass and then the kernel release their resources, and both flags are cleared |
| `FilterDemo.AUv3FilterDemo.Select` | Shared/AudioUnit/AUv3FilterDemo.swift:120-122 | the configuration reaches the owning view controller unchanged, with that controller's selection effect; nothing changes when there is no owner |
| `FilterDemo.TransitionFor` | Shared/AUv3FilterDemoViewController.swift:120-123 | the transition's from-view and to-view differ, and it goes into the expanded view exactly when the configuration is default-sized |
| `FilterDemo.ToggleRequest` | Shared/AUv3FilterDemoViewController.swift:111 | a toggle asks for compact exactly when expanded is active, and for expanded otherwise |
| `FilterDemo.AUv3FilterDemoViewController.constructor` | Shared/AUv3FilterDemoViewController.swift:15-19 | a new controller has no active configuration, needs a connection, has no audio unit and has asked for no transition |
| `FilterDemo.AUv3FilterDemoViewController.ViewConfigurations` | Shared/AUv3FilterDemoViewController.swift:33-36 | exactly `Expanded` then `Compact` are offered: the default-sized one first, then the compact one, each being what a toggle from the other asks for |
| `FilterDemo.AUv3FilterDemoViewController.SetAudioUnit` | Shared/AUv3FilterDemoViewController.swift:42-59 | the audio unit is stored, its owner becomes this controller, and the connection is made if the view has loaded |
| `FilterDemo.AUv3FilterDemoViewController.ViewDidLoad` | Shared/AUv3FilterDemoViewController.swift:74-92 | after loading, the expanded configuration is active, and the connection is made exactly when an audio unit is attached |
| `FilterDemo.AUv3FilterDemoViewController.ConnectViewToAU` | Shared/AUv3FilterDemoViewController.swift:94-98 | the controller no longer needs a connection |
| `FilterDemo.AUv3FilterDemoViewController.ToggleViewConfiguration` | Shared/AUv3FilterDemoViewController.swift:108-112 | the controller reached through the audio unit gets the toggle request as its active configuration, with its selection effect; nothing changes without an audio unit or owner |
| `FilterDemo.AUv3FilterDemoViewController.SelectViewConfiguration` | Shared/AUv3FilterDemoViewController.swift:114-123 | the requested configuration is active afterwards; if it already was, nothing changes and no transition is asked for; otherwise exactly one transition, `TransitionFor` of it, is appended |
| `FilterDemo.TwoTogglesRestore` | Shared/AUv3FilterDemoViewController.swift:108-112 | with the audio unit owned by this controller and compact or expanded active, two toggles restore the active configuration through two opposite transitions, the first going into expanded exactly when compact was active |
| `FilterDemo.OfferedConfigurationsSupported` | Shared/AUv3FilterDemoViewController.swift:33-36 | both configurations the controller offers are accepted by the audio unit's size test |
| `FilterDemo.SupportedIsDefaultOrCompact` | Shared/AUv3FilterDemoViewController.swift:120-121 | a size is supported exactly when it is default-sized by the controller's rule or fits the compact bound |
| `FilterDemo.ToggleRequestInvolutive` | Shared/AUv3FilterDemoViewController.swift:111 | from compact or expanded, a toggle asks for the other one, and toggling twice comes back |

## Left out

- The filter kernel (`FilterDSPKernel.hpp`): `process` is an empty stub. Bad-value flushing, squaring and the Nyquist computation are floating-point numerics. `setBuffers` stores raw host pointers.
- The kernel adapter's implementation (`FilterDSPKernelAdapter.mm`) is not part of this model. Its allocation is modelled as a flag. Its initial bus channel counts and frame limit are parameters of the audio unit's constructor, which creates the adapter.
- The superclass `AUAudioUnit` is framework code. The outcome of its `allocateRenderResources` is a parameter. On failure the model leaves its allocation flag unchanged.
- Bus arrays, `internalRenderBlock`, the `super.init` call with its component description and options, presets, in-place processing and NSError domains are host plumbing. The two constant getters `supportsUserPresets` and `canProcessInPlace` are always true and are not modelled.
- UIKit/AppKit view transitions, `addSubview` and view pinning are not modelled. Each requested transition is recorded in `transitions`.
- `performOnMain` dispatch and the asynchronous connection in the `audioUnit` setter are modelled as synchronous calls.
- The weak reference from the audio unit to its view controller is a plain reference, because there is no memory reclamation to model.
- Parameter text-field parsing (`update(parameter:with:)`) is float conversion through a foreign API.
- Sizes are reals: CGFloat NaN and infinities are not modelled. A NaN size would fail every comparison and be rejected.
- `ViewConfiguration.Config` does not enforce that an identity fixes a size. The model assumes no value shares an identity with a value of another size, and that host-made configurations do not reuse the identities 0 and 1.
- `Compact` and `Expanded` are module constants shared by all controllers. In the source each controller creates its own pair of objects.
