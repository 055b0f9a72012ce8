/** Properties of whole runs of `initialize` and `deinitialize`: which calls
    a failure prevents, which resources each exit path leaves held, and the
    order in which creation and teardown happen. */
module Lifecycle {
  import opened Outcomes
  import opened VkResults
  import opened Errors
  import opened LayerCheck
  import opened VulkanHelper

  lemma ReplaySingle(held: seq<Resource>, e: Event)
    ensures Replay(held, [e]) == Step(held, e)
  {
    assert [e][1..] == [];
  }

  /** Replaying a call that leaves the stack alone skips it. */
  lemma ReplaySkip(held: seq<Resource>, e: Event, rest: seq<Event>)
    requires Step(held, e) == Some(held)
    ensures Replay(held, [e] + rest) == Replay(held, rest)
  {
    assert ([e] + rest)[0] == e;
    assert ([e] + rest)[1..] == rest;
  }

  /** The resources the window step acquires. */
  function WindowStepAcquires(p: Platform): seq<Resource> {
    if !p.glfwInitSucceeds then []
    else if p.createdWindow.None? then [GlfwRuntime]
    else [GlfwRuntime, WindowResource(p.createdWindow.value)]
  }

  /** The resources the instance step acquires. */
  function InstanceStepAcquires(config: Config, p: Platform): seq<Resource> {
    if LayerCheckFails(config, p) || IsCreateInstanceError(p.createInstanceStatus) then []
    else [InstanceResource(p.createdInstance)]
  }

  /** The window step pushes the runtime once GLFW started, and the window
      once it is non-null; it releases nothing. */
  lemma ReplayWindowStep(held: seq<Resource>, p: Platform)
    ensures Replay(held, InitializeWindow(WindowWidth, WindowHeight, WindowTitle, p).trace)
            == Some(held + WindowStepAcquires(p))
  {
    var trace := InitializeWindow(WindowWidth, WindowHeight, WindowTitle, p).trace;
    assert held + [] == held;
    if !p.glfwInitSucceeds {
      ReplaySingle(held, GlfwInit(false));
    } else {
      var started := held + [GlfwRuntime];
      var e1, e2 := GlfwWindowHint(NoClientApi), GlfwWindowHint(NotResizable);
      var e3 := GlfwCreateWindow(WindowWidth, WindowHeight, WindowTitle, p.createdWindow);
      assert trace == [GlfwInit(true)] + [e1, e2, e3];
      assert trace[0] == GlfwInit(true) && trace[1..] == [e1] + [e2, e3];
      assert Replay(held, trace) == Replay(started, [e1] + [e2, e3]);
      ReplaySkip(started, e1, [e2, e3]);
      assert [e2, e3] == [e2] + [e3];
      ReplaySkip(started, e2, [e3]);
      ReplaySingle(started, e3);
      if p.createdWindow.Some? {
        assert started + [WindowResource(p.createdWindow.value)]
               == held + [GlfwRuntime, WindowResource(p.createdWindow.value)];
      }
    }
  }

  /** The instance step pushes the instance when creation was attempted and
      did not fail; it releases nothing. */
  lemma ReplayInstanceStep(held: seq<Resource>, config: Config, p: Platform)
    ensures Replay(held, CreateVulkanInstance(config, p).trace)
            == Some(held + InstanceStepAcquires(config, p))
  {
    var assembled := CreateInstanceInformation(
      config, ApplicationInformation, p.requiredExtensions, p.requiredExtensionCount, p.availableLayers);
    var prefix := [GlfwGetRequiredInstanceExtensions] + assembled.trace;
    var trace := CreateVulkanInstance(config, p).trace;
    assert held + [] == held;
    if LayerCheckFails(config, p) {
      assert trace == [GlfwGetRequiredInstanceExtensions] + [VkEnumerateInstanceLayers(p.availableLayers)];
      ReplaySkip(held, GlfwGetRequiredInstanceExtensions, [VkEnumerateInstanceLayers(p.availableLayers)]);
      ReplaySingle(held, VkEnumerateInstanceLayers(p.availableLayers));
    } else {
      var e := VkCreateInstance(assembled.outcome.value, p.createInstanceStatus, p.createdInstance);
      assert trace == prefix + [e];
      ReplaySingle(held, e);
      if config.validationLayersEnabled {
        var enumerate := VkEnumerateInstanceLayers(p.availableLayers);
        assert trace == [GlfwGetRequiredInstanceExtensions] + ([enumerate] + [e]);
        ReplaySkip(held, GlfwGetRequiredInstanceExtensions, [enumerate] + [e]);
        ReplaySkip(held, enumerate, [e]);
      } else {
        assert trace == [GlfwGetRequiredInstanceExtensions] + [e];
        ReplaySkip(held, GlfwGetRequiredInstanceExtensions, [e]);
      }
    }
  }

  /** `initialize`'s calls: the window step's, then (if it succeeded) the
      instance step's, then (if that succeeded too) the discarded layer
      enumeration. */
  lemma InitializeTraceShape(config: Config, p: Platform)
    ensures var windowRun := InitializeWindow(WindowWidth, WindowHeight, WindowTitle, p);
            var vulkanRun := CreateVulkanInstance(config, p);
            var r := Initialize(config, p);
            && (windowRun.outcome.Unexpected? ==> r.trace == windowRun.trace)
            && (windowRun.outcome.Ok? && vulkanRun.outcome.Unexpected? ==>
                  r.trace == windowRun.trace + vulkanRun.trace)
            && (windowRun.outcome.Ok? && vulkanRun.outcome.Ok? ==>
                  r.trace == windowRun.trace + vulkanRun.trace + [VkEnumerateInstanceLayers(p.availableLayers)])
  {
  }

  /** A failed GLFW start leaves nothing held. */
  lemma NothingHeldAfterGlfwFailure(config: Config, p: Platform)
    requires !p.glfwInitSucceeds
    ensures Replay([], Initialize(config, p).trace) == Some([])
  {
    InitializeTraceShape(config, p);
    ReplayWindowStep([], p);
    assert [] + WindowStepAcquires(p) == WindowStepAcquires(p);
  }

  /** A null window leaves GLFW running: `glfwTerminate` is never called. */
  lemma RuntimeHeldAfterWindowFailure(config: Config, p: Platform)
    requires p.glfwInitSucceeds && p.createdWindow.None?
    ensures Replay([], Initialize(config, p).trace) == Some([GlfwRuntime])
  {
    InitializeTraceShape(config, p);
    ReplayWindowStep([], p);
    assert [] + WindowStepAcquires(p) == WindowStepAcquires(p);
  }

  /** A failed instance step leaves the window and GLFW alive: the leak of
      the instance-failure path. */
  lemma WindowHeldAfterInstanceFailure(config: Config, p: Platform)
    requires p.glfwInitSucceeds && p.createdWindow.Some?
    requires Initialize(config, p).outcome.Unexpected?
    ensures Replay([], Initialize(config, p).trace)
            == Some([GlfwRuntime, WindowResource(p.createdWindow.value)])
  {
    var windowRun := InitializeWindow(WindowWidth, WindowHeight, WindowTitle, p);
    var vulkanRun := CreateVulkanInstance(config, p);
    var held := [GlfwRuntime, WindowResource(p.createdWindow.value)];
    InitializeTraceShape(config, p);
    ReplayWindowStep([], p);
    assert [] + WindowStepAcquires(p) == WindowStepAcquires(p);
    assert Replay([], windowRun.trace) == Some(held);
    ReplayAppend([], windowRun.trace, vulkanRun.trace);
    ReplayInstanceStep(held, config, p);
    assert InstanceStepAcquires(config, p) == [];
    assert held + [] == held;
  }

  /** A successful `initialize` holds GLFW, the window and the instance,
      most recent last. */
  lemma AllHeldAfterSuccess(config: Config, p: Platform)
    requires BootstrapSucceeds(config, p)
    ensures var (window, instance) := Initialize(config, p).outcome.value;
            Replay([], Initialize(config, p).trace)
            == Some([GlfwRuntime, WindowResource(window), InstanceResource(instance)])
  {
    var r := Initialize(config, p);
    var windowRun := InitializeWindow(WindowWidth, WindowHeight, WindowTitle, p);
    var vulkanRun := CreateVulkanInstance(config, p);
    assert windowRun.outcome.Ok? && vulkanRun.outcome.Ok?;
    var window, instance := p.createdWindow.value, p.createdInstance;
    var held := [GlfwRuntime, WindowResource(window)];
    var e := VkEnumerateInstanceLayers(p.availableLayers);
    InitializeTraceShape(config, p);
    ReplayWindowStep([], p);
    assert [] + WindowStepAcquires(p) == held;
    ReplayAppend([], windowRun.trace, vulkanRun.trace);
    ReplayInstanceStep(held, config, p);
    assert InstanceStepAcquires(config, p) == [InstanceResource(instance)];
    var all := held + [InstanceResource(instance)];
    assert Replay([], windowRun.trace + vulkanRun.trace) == Some(all);
    ReplayAppend([], windowRun.trace + vulkanRun.trace, [e]);
    ReplaySingle(all, e);
    assert Replay([], r.trace) == Some(all);
    assert all == [GlfwRuntime, WindowResource(window), InstanceResource(instance)];
    assert r.outcome.value == (window, instance);
  }

  /** A successful `initialize` followed by `deinitialize` releases every
      resource it acquired, each in the reverse order of its creation. */
  lemma FullLifecycleReleasesEverything(config: Config, p: Platform)
    requires BootstrapSucceeds(config, p)
    ensures var r := Initialize(config, p);
            var (window, instance) := r.outcome.value;
            Replay([], r.trace + Deinitialize(window, instance)) == Some([])
  {
    var r := Initialize(config, p);
    var (window, instance) := r.outcome.value;
    AllHeldAfterSuccess(config, p);
    ReplayAppend([], r.trace, Deinitialize(window, instance));
  }

  /** `deinitialize` fits only the stack a successful `initialize` leaves:
      no other set or order of held resources is emptied by it. */
  lemma DeinitializeEmptiesOnlyTheBootstrapStack(window: Window, instance: Instance, held: seq<Resource>)
    requires Replay(held, Deinitialize(window, instance)) == Some([])
    ensures held == [GlfwRuntime, WindowResource(window), InstanceResource(instance)]
  {
    var trace := Deinitialize(window, instance);
    assert trace[1..] == [GlfwDestroyWindow(window), GlfwTerminate];
    assert trace[1..][1..] == [GlfwTerminate];
    assert Targets(trace[1..][1..]) == [GlfwRuntime];
    assert Targets(trace[1..]) == [GlfwRuntime, WindowResource(window)];
    ReleaseAll(held, trace);
  }

  /** Every failure of `initialize` that happens after the window exists
      leaves resources held: the run returns without teardown. */
  lemma FailureAfterWindowLeaks(config: Config, p: Platform)
    requires p.glfwInitSucceeds
    requires Initialize(config, p).outcome.Unexpected?
    ensures Replay([], Initialize(config, p).trace).Some?
    ensures Replay([], Initialize(config, p).trace) != Some([])
  {
    if p.createdWindow.None? {
      RuntimeHeldAfterWindowFailure(config, p);
    } else {
      WindowHeldAfterInstanceFailure(config, p);
    }
  }

  lemma OnlyCallsAppend(a: seq<Event>, b: seq<Event>, allowed: set<Call>)
    requires OnlyCalls(a, allowed) && OnlyCalls(b, allowed)
    ensures OnlyCalls(a + b, allowed)
  {
    forall k | 0 <= k < |a + b|
      ensures CallOf((a + b)[k]) in allowed
    {
      if k >= |a| {
        assert (a + b)[k] == b[k - |a|];
      }
    }
  }

  /** The calls the bootstrap steps make: creation and queries only. */
  const BootstrapCalls :=
    {InitCall, HintCall, CreateWindowCall, ExtensionsCall, EnumerateLayersCall, CreateInstanceCall}

  lemma NotMadeOutsideAllowed(trace: seq<Event>, allowed: set<Call>, c: Call)
    requires OnlyCalls(trace, allowed) && c !in allowed
    ensures !Makes(trace, c)
  {
  }

  /** Each step's calls are bootstrap calls. */
  lemma StepsMakeBootstrapCalls(config: Config, p: Platform)
    ensures OnlyCalls(InitializeWindow(WindowWidth, WindowHeight, WindowTitle, p).trace, BootstrapCalls)
    ensures OnlyCalls(CreateVulkanInstance(config, p).trace, BootstrapCalls)
  {
  }

  /** `initialize` only creates and queries: it makes no teardown call on
      any path, so nothing it acquired before a failure is released. */
  lemma InitializeNeverTearsDown(config: Config, p: Platform)
    ensures OnlyCalls(Initialize(config, p).trace, BootstrapCalls)
    ensures !Makes(Initialize(config, p).trace, DestroyInstanceCall)
    ensures !Makes(Initialize(config, p).trace, DestroyWindowCall)
    ensures !Makes(Initialize(config, p).trace, TerminateCall)
  {
    var windowRun := InitializeWindow(WindowWidth, WindowHeight, WindowTitle, p);
    var vulkanRun := CreateVulkanInstance(config, p);
    var e := VkEnumerateInstanceLayers(p.availableLayers);
    var t := Initialize(config, p).trace;
    InitializeTraceShape(config, p);
    StepsMakeBootstrapCalls(config, p);
    if windowRun.outcome.Ok? {
      OnlyCallsAppend(windowRun.trace, vulkanRun.trace, BootstrapCalls);
      if vulkanRun.outcome.Ok? {
        assert OnlyCalls([e], BootstrapCalls);
        OnlyCallsAppend(windowRun.trace + vulkanRun.trace, [e], BootstrapCalls);
      }
    }
    assert OnlyCalls(t, BootstrapCalls);
    NotMadeOutsideAllowed(t, BootstrapCalls, DestroyInstanceCall);
    NotMadeOutsideAllowed(t, BootstrapCalls, DestroyWindowCall);
    NotMadeOutsideAllowed(t, BootstrapCalls, TerminateCall);
  }

  /** A failed window step is the last thing `initialize` does: no
      extension query, no layer enumeration, no instance creation follows. */
  lemma WindowFailureStopsInitialize(config: Config, p: Platform)
    requires !p.glfwInitSucceeds || p.createdWindow.None?
    ensures var t := Initialize(config, p).trace;
            && t == InitializeWindow(WindowWidth, WindowHeight, WindowTitle, p).trace
            && !Makes(t, ExtensionsCall)
            && !Makes(t, EnumerateLayersCall)
            && !Makes(t, CreateInstanceCall)
  {
    InitializeTraceShape(config, p);
  }

  /** A layer the check reports missing stops `initialize` before
      `vkCreateInstance` is reached. */
  lemma LayerFailureStopsInitialize(config: Config, p: Platform)
    requires p.glfwInitSucceeds && p.createdWindow.Some?
    requires LayerCheckFails(config, p)
    ensures Initialize(config, p).outcome
            == Unexpected(ValidationLayerNotFoundError(MissingLayer(config, p.availableLayers).value))
    ensures !Makes(Initialize(config, p).trace, CreateInstanceCall)
  {
    var windowRun := InitializeWindow(WindowWidth, WindowHeight, WindowTitle, p);
    var vulkanRun := CreateVulkanInstance(config, p);
    InitializeTraceShape(config, p);
    MakesAppend(windowRun.trace, vulkanRun.trace, CreateInstanceCall);
  }

  /** The instance is never requested before a window exists: every
      `vkCreateInstance` in a run of `initialize` comes after a window
      creation that returned a handle. */
  lemma InstanceCreatedOnlyAfterWindow(config: Config, p: Platform)
    ensures var t := Initialize(config, p).trace;
            forall k | 0 <= k < |t| && t[k].VkCreateInstance? ::
              exists j | 0 <= j < k :: t[j].GlfwCreateWindow? && t[j].created.Some?
  {
    var t := Initialize(config, p).trace;
    var windowRun := InitializeWindow(WindowWidth, WindowHeight, WindowTitle, p);
    InitializeTraceShape(config, p);
    forall k | 0 <= k < |t| && t[k].VkCreateInstance?
      ensures exists j | 0 <= j < k :: t[j].GlfwCreateWindow? && t[j].created.Some?
    {
      var w := windowRun.trace;
      if k >= |w| {
        assert windowRun.outcome.Ok?;
        assert t[|w| - 1] == w[|w| - 1];
      }
    }
  }

  /** `vkCreateInstance` is called once, with the request the assembly step
      built: every call before it is the extension query or the layer
      enumeration. */
  lemma AssembledRequestIsSent(config: Config, p: Platform)
    requires !LayerCheckFails(config, p)
    ensures var t := CreateVulkanInstance(config, p).trace;
            && OnlyCalls(t[..|t| - 1], {ExtensionsCall, EnumerateLayersCall})
            && t[|t| - 1].info == CreateInstanceInformation(
                 config, ApplicationInformation, p.requiredExtensions, p.requiredExtensionCount,
                 p.availableLayers).outcome.value
  {
    var assembled := CreateInstanceInformation(
      config, ApplicationInformation, p.requiredExtensions, p.requiredExtensionCount, p.availableLayers);
    var prefix := [GlfwGetRequiredInstanceExtensions] + assembled.trace;
    var t := CreateVulkanInstance(config, p).trace;
    assert t == prefix + [VkCreateInstance(assembled.outcome.value, p.createInstanceStatus, p.createdInstance)];
    assert t[..|t| - 1] == prefix;
  }

  /** The request `vkCreateInstance` receives: the fixed application
      metadata, the extension list and count exactly as GLFW returned them,
      and either no layers or exactly the configured ones. */
  lemma CreateInstanceRequest(config: Config, p: Platform)
    requires !LayerCheckFails(config, p)
    ensures var t := CreateVulkanInstance(config, p).trace;
            var info := t[|t| - 1].info;
            && info.applicationInfo == ApplicationInformation
            && info.enabledExtensionNames == p.requiredExtensions
            && info.enabledExtensionCount == p.requiredExtensionCount
            && (!config.validationLayersEnabled ==>
                  info.enabledLayerNames == [] && info.enabledLayerCount == 0)
            && (config.validationLayersEnabled ==>
                  info.enabledLayerNames == config.validationLayers)
  {
  }

  /** With the corrected check and validation enabled, `initialize` (once
      the window exists) fails on the layer check exactly when some
      requested layer is absent from the enumeration, and the name it
      reports is one of those absent layers. */
  lemma CorrectedLayerCheckRejectsExactlyMissingLayers(config: Config, p: Platform)
    requires config.validationLayersEnabled && config.layerCheck == Corrected
    requires p.glfwInitSucceeds && p.createdWindow.Some?
    ensures var r := Initialize(config, p);
            (r.outcome.Unexpected? && r.outcome.error.kind == ValidationLayerNotFound) <==>
              exists n | n in config.validationLayers :: n !in p.availableLayers
    ensures var r := Initialize(config, p);
            r.outcome.Unexpected? && r.outcome.error.kind == ValidationLayerNotFound ==>
              && r.outcome.error.missingLayer.value in config.validationLayers
              && r.outcome.error.missingLayer.value !in p.availableLayers
  {
    var r := Initialize(config, p);
    if !LayerCheckFails(config, p) && r.outcome.Unexpected? {
      assert r.outcome.error == FailedToInitializeVulkanError(p.createInstanceStatus);
    }
  }
}
