/** The bootstrap sequence of include/vulkan_helper.hpp: open the window,
    assemble the instance-creation request (optionally after the layer
    check), create the instance, and tear both down in a fixed order.

    Every call into GLFW or Vulkan is replaced by an answer read from a
    `Platform` oracle, and recorded as an `Event`; a step returns its outcome
    together with the events it caused, so ordering, short-circuiting and
    leaks are properties of the returned trace. */
module VulkanHelper {
  import opened Outcomes
  import opened VkResults
  import opened Errors
  import opened LayerCheck

  newtype uint32 = x: int | 0 <= x < 0x1_0000_0000

  const WindowWidth: uint32 := 800
  const WindowHeight: uint32 := 800
  const WindowTitle := "hello_vulkan"

  /** The one entry of the fixed `validation_layers` array. */
  const KhronosValidationLayer := "VK_LAYER_KHRONOS_validation"

  /** Opaque handles; a null window is `None` where the oracle answers. */
  datatype Window = Window(id: nat)
  datatype Instance = Instance(id: nat)

  /** The two window hints the window step sets before creating the window. */
  datatype WindowHint = NoClientApi | NotResizable

  datatype Version = Version(major: nat, minor: nat, patch: nat)

  /** The fields of `VkApplicationInfo` that the program fills in. */
  datatype ApplicationInfo = ApplicationInfo(
    applicationName: string,
    applicationVersion: Version,
    engineName: string,
    engineVersion: Version,
    apiVersion: Version)

  /** `get_vulkan_application_information`: fixed metadata. */
  const ApplicationInformation :=
    ApplicationInfo("hello vulkan", Version(1, 0, 0), "No Engine", Version(1, 0, 0), Version(1, 0, 0))

  /** The fields of `VkInstanceCreateInfo` that the program fills in; the
      layer fields keep their zero values unless validation is enabled. */
  datatype InstanceCreateInfo = InstanceCreateInfo(
    applicationInfo: ApplicationInfo,
    enabledExtensionNames: seq<string>,
    enabledExtensionCount: uint32,
    enabledLayerNames: seq<string>,
    enabledLayerCount: uint32)

  /** Which layer check the instance step runs: the code as written, or the
      check its doc comment describes. */
  datatype LayerCheckVariant = AsWritten | Corrected

  /** The compile-time configuration, injected. */
  datatype Config = Config(
    validationLayersEnabled: bool,
    validationLayers: seq<string>,
    layerCheck: LayerCheckVariant)

  /** The configuration the header compiles to. `validation_layers_enabled`
      is `false` when `NDEBUG` is NOT defined, so validation is on only in
      release builds. */
  function SourceConfig(ndebugDefined: bool): (c: Config)
    ensures c.validationLayersEnabled <==> ndebugDefined
    ensures c.validationLayers == [KhronosValidationLayer]
    ensures c.layerCheck == AsWritten
  {
    Config(ndebugDefined, [KhronosValidationLayer], AsWritten)
  }

  /** The same configuration, running the corrected layer check. */
  function CorrectedConfig(ndebugDefined: bool): Config {
    SourceConfig(ndebugDefined).(layerCheck := Corrected)
  }

  /** The layer check the configuration selects. */
  function MissingLayer(config: Config, available: seq<string>): (r: Option<string>)
    ensures r.Some? ==> r.value in config.validationLayers
    ensures config.layerCheck == Corrected ==>
              ReportsMissingLayer(config.validationLayers, available, r)
  {
    match config.layerCheck
    case AsWritten => CheckValidationLayerSupport(config.validationLayers, available)
    case Corrected => FindMissingLayer(config.validationLayers, available)
  }

  /** The answers of the external libraries for one run. The layer
      enumeration returns the same list each time it is called. */
  datatype Platform = Platform(
    glfwInitSucceeds: bool,
    createdWindow: Option<Window>,
    requiredExtensions: seq<string>,
    requiredExtensionCount: uint32,
    availableLayers: seq<string>,
    createInstanceStatus: Status,
    createdInstance: Instance)

  /** The calls into GLFW and Vulkan, each with the answer it got. */
  datatype Event =
    | GlfwInit(succeeded: bool)
    | GlfwWindowHint(hint: WindowHint)
    | GlfwCreateWindow(width: uint32, height: uint32, title: string, created: Option<Window>)
    | GlfwGetRequiredInstanceExtensions
    | VkEnumerateInstanceLayers(available: seq<string>)
    | VkCreateInstance(info: InstanceCreateInfo, status: Status, instance: Instance)
    | VkDestroyInstance(instance: Instance)
    | GlfwDestroyWindow(window: Window)
    | GlfwTerminate

  /** A step's outcome and the calls it made, in order. */
  datatype Run<T> = Run(outcome: Expected<T, Error>, trace: seq<Event>)

  /** The library call an event records, without its arguments. */
  datatype Call =
    | InitCall | HintCall | CreateWindowCall | ExtensionsCall | EnumerateLayersCall
    | CreateInstanceCall | DestroyInstanceCall | DestroyWindowCall | TerminateCall

  function CallOf(e: Event): Call {
    match e
    case GlfwInit(_) => InitCall
    case GlfwWindowHint(_) => HintCall
    case GlfwCreateWindow(_, _, _, _) => CreateWindowCall
    case GlfwGetRequiredInstanceExtensions => ExtensionsCall
    case VkEnumerateInstanceLayers(_) => EnumerateLayersCall
    case VkCreateInstance(_, _, _) => CreateInstanceCall
    case VkDestroyInstance(_) => DestroyInstanceCall
    case GlfwDestroyWindow(_) => DestroyWindowCall
    case GlfwTerminate => TerminateCall
  }

  /** The trace makes call `c` at least once. */
  predicate Makes(trace: seq<Event>, c: Call) {
    exists k | 0 <= k < |trace| :: CallOf(trace[k]) == c
  }

  /** Every call in the trace is one of `allowed`. */
  predicate OnlyCalls(trace: seq<Event>, allowed: set<Call>) {
    forall k | 0 <= k < |trace| :: CallOf(trace[k]) in allowed
  }

  lemma MakesAppend(a: seq<Event>, b: seq<Event>, c: Call)
    ensures Makes(a + b, c) <==> Makes(a, c) || Makes(b, c)
  {
    if Makes(a + b, c) {
      var k :| 0 <= k < |a + b| && CallOf((a + b)[k]) == c;
      if k >= |a| {
        assert CallOf(b[k - |a|]) == c;
      }
    }
    if Makes(a, c) {
      var k :| 0 <= k < |a| && CallOf(a[k]) == c;
      assert CallOf((a + b)[k]) == c;
    }
    if Makes(b, c) {
      var k :| 0 <= k < |b| && CallOf(b[k]) == c;
      assert CallOf((a + b)[k + |a|]) == c;
    }
  }

  /** `static_cast<uint32_t>` of a size. */
  function ToUint32(n: nat): (r: uint32)
    ensures n < 0x1_0000_0000 ==> r as int == n
  {
    (n % 0x1_0000_0000) as uint32
  }

  /** `initialize_window`: start GLFW, set the two hints, create the window. */
  function InitializeWindow(width: uint32, height: uint32, title: string, p: Platform): (r: Run<Window>)
    ensures |r.trace| > 0 && r.trace[0] == GlfwInit(p.glfwInitSucceeds)
    ensures !p.glfwInitSucceeds ==>
              r.outcome == Unexpected(FailedToInitializeGlfwError()) && !Makes(r.trace, CreateWindowCall)
    ensures p.glfwInitSucceeds ==>
              && |r.trace| == 4
              && r.trace[1] == GlfwWindowHint(NoClientApi)
              && r.trace[2] == GlfwWindowHint(NotResizable)
              && r.trace[3] == GlfwCreateWindow(width, height, title, p.createdWindow)
    ensures p.glfwInitSucceeds && p.createdWindow.None? ==>
              r.outcome == Unexpected(FailedToCreateWindowError())
    ensures r.outcome.Ok? <==> p.glfwInitSucceeds && p.createdWindow.Some?
    ensures r.outcome.Ok? ==> r.outcome.value == p.createdWindow.value
    ensures OnlyCalls(r.trace, {InitCall, HintCall, CreateWindowCall})
  {
    if !p.glfwInitSucceeds then
      Run(Unexpected(FailedToInitializeGlfwError()), [GlfwInit(false)])
    else
      var trace := [GlfwInit(true), GlfwWindowHint(NoClientApi), GlfwWindowHint(NotResizable),
                    GlfwCreateWindow(width, height, title, p.createdWindow)];
      match p.createdWindow
      case None => Run(Unexpected(FailedToCreateWindowError()), trace)
      case Some(window) => Run(Ok(window), trace)
  }

  /** `get_vulkan_create_instance_information`: the request carries the
      application metadata and the extension list; with validation enabled
      it first runs the layer check, and on a missing layer fails. */
  function CreateInstanceInformation(
    config: Config, app: ApplicationInfo, extensions: seq<string>, extensionCount: uint32,
    available: seq<string>): (r: Run<InstanceCreateInfo>)
    ensures r.outcome.Ok? ==>
              && r.outcome.value.applicationInfo == app
              && r.outcome.value.enabledExtensionNames == extensions
              && r.outcome.value.enabledExtensionCount == extensionCount
    ensures !config.validationLayersEnabled ==>
              && r.trace == []
              && r.outcome.Ok?
              && r.outcome.value.enabledLayerNames == []
              && r.outcome.value.enabledLayerCount == 0
    ensures config.validationLayersEnabled ==> r.trace == [VkEnumerateInstanceLayers(available)]
    ensures r.outcome.Unexpected? <==>
              config.validationLayersEnabled && MissingLayer(config, available).Some?
    ensures r.outcome.Unexpected? ==>
              r.outcome.error == ValidationLayerNotFoundError(MissingLayer(config, available).value)
    ensures config.validationLayersEnabled && r.outcome.Ok? ==>
              && r.outcome.value.enabledLayerNames == config.validationLayers
              && (|config.validationLayers| < 0x1_0000_0000 ==>
                    r.outcome.value.enabledLayerCount as int == |config.validationLayers|)
  {
    var info := InstanceCreateInfo(app, extensions, extensionCount, [], 0);
    if !config.validationLayersEnabled then
      Run(Ok(info), [])
    else
      var trace := [VkEnumerateInstanceLayers(available)];
      match MissingLayer(config, available)
      case Some(name) => Run(Unexpected(ValidationLayerNotFoundError(name)), trace)
      case None =>
        var layers := config.validationLayers;
        Run(Ok(info.(enabledLayerNames := layers, enabledLayerCount := ToUint32(|layers|))), trace)
  }

  /** The layer check runs and reports a name. */
  predicate LayerCheckFails(config: Config, p: Platform) {
    config.validationLayersEnabled && MissingLayer(config, p.availableLayers).Some?
  }

  /** The platform answers under which `initialize` succeeds: GLFW starts,
      the window is created, the layer check passes and `vkCreateInstance`
      returns a status that is not fatal. */
  predicate BootstrapSucceeds(config: Config, p: Platform) {
    && p.glfwInitSucceeds
    && p.createdWindow.Some?
    && !LayerCheckFails(config, p)
    && !IsCreateInstanceError(p.createInstanceStatus)
  }

  /** `create_vulkan_instance`: query the extensions, assemble the request,
      and create the instance; only the six fatal statuses are failures. */
  function CreateVulkanInstance(config: Config, p: Platform): (r: Run<Instance>)
    ensures |r.trace| > 0 && r.trace[0] == GlfwGetRequiredInstanceExtensions
    ensures LayerCheckFails(config, p) ==>
              && r.outcome == Unexpected(ValidationLayerNotFoundError(MissingLayer(config, p.availableLayers).value))
              && !Makes(r.trace, CreateInstanceCall)
    ensures !LayerCheckFails(config, p) ==>
              && r.trace[|r.trace| - 1].VkCreateInstance?
              && r.trace[|r.trace| - 1].status == p.createInstanceStatus
              && (r.outcome.Unexpected? <==> IsCreateInstanceError(p.createInstanceStatus))
    ensures r.outcome.Unexpected? && !LayerCheckFails(config, p) ==>
              r.outcome.error == FailedToInitializeVulkanError(p.createInstanceStatus)
    ensures r.outcome.Ok? ==> r.outcome.value == p.createdInstance
    ensures OnlyCalls(r.trace, {ExtensionsCall, EnumerateLayersCall, CreateInstanceCall})
  {
    var assembled := CreateInstanceInformation(
      config, ApplicationInformation, p.requiredExtensions, p.requiredExtensionCount, p.availableLayers);
    var trace := [GlfwGetRequiredInstanceExtensions] + assembled.trace;
    match assembled.outcome
    case Unexpected(error) => Run(Unexpected(error), trace)
    case Ok(info) =>
      var status := p.createInstanceStatus;
      var trace' := trace + [VkCreateInstance(info, status, p.createdInstance)];
      if IsCreateInstanceError(status) then
        Run(Unexpected(FailedToInitializeVulkanError(status)), trace')
      else
        Run(Ok(p.createdInstance), trace')
  }

  /** `initialize_vulkan`: wraps the instance in a one-element tuple and
      passes outcome and calls through unchanged. */
  function InitializeVulkan(config: Config, p: Platform): (r: Run<Instance>)
    ensures r == CreateVulkanInstance(config, p)
  {
    var created := CreateVulkanInstance(config, p);
    match created.outcome
    case Unexpected(error) => Run(Unexpected(error), created.trace)
    case Ok(instance) => Run(Ok(instance), created.trace)
  }

  /** `initialize`: the window step, then the instance step, each stopping
      the sequence on its error; on success a layer enumeration whose result
      is discarded follows. A failed instance step returns without tearing
      the window down. */
  function Initialize(config: Config, p: Platform): (r: Run<(Window, Instance)>)
    ensures !p.glfwInitSucceeds ==>
              && r.outcome == Unexpected(FailedToInitializeGlfwError())
              && r.trace == [GlfwInit(false)]
    ensures p.glfwInitSucceeds && p.createdWindow.None? ==>
              r.outcome == Unexpected(FailedToCreateWindowError())
    ensures p.createdWindow.Some? && p.glfwInitSucceeds && LayerCheckFails(config, p) ==>
              r.outcome == Unexpected(ValidationLayerNotFoundError(MissingLayer(config, p.availableLayers).value))
    ensures p.createdWindow.Some? && p.glfwInitSucceeds && !LayerCheckFails(config, p) ==>
              && (r.outcome.Unexpected? <==> IsCreateInstanceError(p.createInstanceStatus))
              && (r.outcome.Unexpected? ==>
                    r.outcome.error == FailedToInitializeVulkanError(p.createInstanceStatus))
    ensures r.outcome.Ok? <==> BootstrapSucceeds(config, p)
    ensures r.outcome.Ok? ==> r.outcome.value == (p.createdWindow.value, p.createdInstance)
  {
    var windowRun := InitializeWindow(WindowWidth, WindowHeight, WindowTitle, p);
    match windowRun.outcome
    case Unexpected(error) => Run(Unexpected(error), windowRun.trace)
    case Ok(window) =>
      var vulkanRun := InitializeVulkan(config, p);
      var trace := windowRun.trace + vulkanRun.trace;
      match vulkanRun.outcome
      case Unexpected(error) => Run(Unexpected(error), trace)
      case Ok(instance) =>
        Run(Ok((window, instance)), trace + [VkEnumerateInstanceLayers(p.availableLayers)])
  }

  /** `deinitialize`: destroy the instance, then the window, then shut GLFW
      down, which releases the three resources of a successful start-up in
      reverse order of creation. */
  function Deinitialize(window: Window, instance: Instance): (trace: seq<Event>)
    ensures Replay([GlfwRuntime, WindowResource(window), InstanceResource(instance)], trace) == Some([])
  {
    var trace := [VkDestroyInstance(instance), GlfwDestroyWindow(window), GlfwTerminate];
    var held := [GlfwRuntime, WindowResource(window), InstanceResource(instance)];
    var afterInstance, afterWindow := [GlfwRuntime, WindowResource(window)], [GlfwRuntime];
    assert held[..2] == afterInstance && afterInstance[..1] == afterWindow;
    assert trace[1..] == [GlfwDestroyWindow(window), GlfwTerminate];
    assert trace[1..][1..] == [GlfwTerminate];
    assert Replay(afterWindow, trace[1..][1..]) == Some([]);
    trace
  }

  /** A resource the program has acquired and must release. */
  datatype Resource = GlfwRuntime | WindowResource(window: Window) | InstanceResource(instance: Instance)

  /** Releasing `x` is only well-ordered when `x` is the most recently
      acquired resource still held. */
  function Release(held: seq<Resource>, x: Resource): (r: Option<seq<Resource>>)
    ensures r.Some? <==> |held| > 0 && held[|held| - 1] == x
    ensures r.Some? ==> held == r.value + [x]
  {
    if |held| > 0 && held[|held| - 1] == x then Some(held[..|held| - 1]) else None
  }

  /** How one call changes the stack of held resources: a creation that
      succeeded pushes its resource, a teardown pops it, and any other call
      leaves the stack alone. `None` marks a teardown out of order. */
  function Step(held: seq<Resource>, e: Event): Option<seq<Resource>> {
    match e
    case GlfwInit(succeeded) => Some(if succeeded then held + [GlfwRuntime] else held)
    case GlfwCreateWindow(_, _, _, created) =>
      Some(if created.Some? then held + [WindowResource(created.value)] else held)
    case VkCreateInstance(_, status, instance) =>
      Some(if IsCreateInstanceError(status) then held else held + [InstanceResource(instance)])
    case VkDestroyInstance(instance) => Release(held, InstanceResource(instance))
    case GlfwDestroyWindow(window) => Release(held, WindowResource(window))
    case GlfwTerminate => Release(held, GlfwRuntime)
    case _ => Some(held)
  }

  /** The resources held after a trace, starting from `held`. */
  function Replay(held: seq<Resource>, trace: seq<Event>): Option<seq<Resource>>
    decreases |trace|
  {
    if |trace| == 0 then Some(held)
    else
      match Step(held, trace[0])
      case None => None
      case Some(next) => Replay(next, trace[1..])
  }

  /** Replay continued from an optional stack. */
  function Continue(held: Option<seq<Resource>>, trace: seq<Event>): Option<seq<Resource>> {
    match held
    case None => None
    case Some(h) => Replay(h, trace)
  }

  lemma {:induction false} ReplayAppend(held: seq<Resource>, a: seq<Event>, b: seq<Event>)
    ensures Replay(held, a + b) == Continue(Replay(held, a), b)
    decreases |a|
  {
    if |a| > 0 {
      assert (a + b)[0] == a[0];
      assert (a + b)[1..] == a[1..] + b;
      match Step(held, a[0])
      case None =>
      case Some(next) => ReplayAppend(next, a[1..], b);
    } else {
      assert a + b == b;
    }
  }

  /** Teardown calls alone release exactly what they name, most recent
      first: a trace of them empties `held` only if `held` is their targets
      in reverse. */
  lemma {:induction false} ReleaseAll(held: seq<Resource>, trace: seq<Event>)
    requires forall k | 0 <= k < |trace| ::
               trace[k].VkDestroyInstance? || trace[k].GlfwDestroyWindow? || trace[k].GlfwTerminate?
    requires Replay(held, trace) == Some([])
    ensures held == Targets(trace)
    decreases |trace|
  {
    if |trace| > 0 {
      var next := Step(held, trace[0]).value;
      assert held == next + [Target(trace[0])];
      ReleaseAll(next, trace[1..]);
    }
  }

  /** The resource a teardown call releases. */
  function Target(e: Event): Resource
    requires e.VkDestroyInstance? || e.GlfwDestroyWindow? || e.GlfwTerminate?
  {
    match e
    case VkDestroyInstance(instance) => InstanceResource(instance)
    case GlfwDestroyWindow(window) => WindowResource(window)
    case GlfwTerminate => GlfwRuntime
  }

  /** The targets of a trace of teardown calls, in acquisition order (the
      reverse of the calls). */
  function Targets(trace: seq<Event>): seq<Resource>
    requires forall k | 0 <= k < |trace| ::
               trace[k].VkDestroyInstance? || trace[k].GlfwDestroyWindow? || trace[k].GlfwTerminate?
    decreases |trace|
  {
    if |trace| == 0 then [] else Targets(trace[1..]) + [Target(trace[0])]
  }
}
