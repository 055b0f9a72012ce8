# hello_vulkan bootstrap, modelled in Dafny

This project models the start-up and tear-down core of `hello_vulkan`, a
small C++ program that opens a GLFW window and creates a Vulkan instance.
The model covers two headers.

- `include/error.hpp` defines the `Error` value and the two status helpers.
  `Error` holds a kind and an optional `VkResult`, and it can be rendered as
  a message. The helpers are `is_create_instance_error` and
  `vkresult_to_string`.
- `include/vulkan_helper.hpp` holds the bootstrap. `initialize_window`
  starts GLFW and opens the window. `check_validation_layer_support` looks for
  a missing validation layer. The next functions assemble the instance request
  and call `vkCreateInstance`. Then come `initialize` and `deinitialize`.

GLFW and the Vulkan loader are not modelled. A `Platform` value stands in
for them: it records what each external call answers. Every bootstrap step is
a pure function of that value. It returns the outcome the C++ returns, a
`std::expected` modelled as `Outcomes.Expected`. It also returns the ordered
trace of external calls it made. A resource-stack reading of a trace
(`VulkanHelper.Replay`) tracks what is alive after each call: the GLFW
runtime, the window, the instance. `Replay` yields `None` when a trace
releases something out of order. This reading is the basis of the lifecycle
properties: what each failure path leaves held, and that `deinitialize`
releases a successful `initialize`'s resources in reverse creation order.

The modules follow the headers:

- `Outcomes`: `Option` and `Expected`.
- `VkResults`: the `VkResult` codes, `vkresult_to_string` and `is_create_instance_error`.
- `Errors`: the `Error` value, its factories and `to_string`.
- `LayerCheck`: the validation-layer check. It has two versions, the loop as
  written and a corrected search.
- `VulkanHelper`: the bootstrap steps, the external-call trace and the resource stack.
- `Lifecycle`: properties of whole runs of `initialize` and `deinitialize`.
- `Scenarios`: concrete end-to-end runs.

Two build-time choices are parameters of `VulkanHelper.Config`:

- whether validation layers are enabled;
- which layer check is used.

Statuses are values of `VkResults.Status`. Each status value has one
representation: a listed code, or `Unlisted` with a value no listed code has.
So matching on the enumerator, as `is_create_instance_error` and
`vkresult_to_string` do, is matching on the value. The statuses
`vkCreateInstance` returns, the statuses calls record, and the status an
`Error` carries all have this type.

`VulkanHelper.SourceConfig(ndebugDefined)` gives the configuration the
header produces. In it, validation is enabled exactly when `NDEBUG` is
defined. `VulkanHelper.CorrectedConfig` keeps the same switch but uses the
corrected layer check.

## Model

| member | source | states |
|---|---|---|
| VkResults.FromValue | include/error.hpp:67-124 | Reading a raw 32-bit status gives a code whose numeric value is that status. The result is one of the named enumerators, or `Unlisted` exactly when no enumerator has that value. |
| VkResults.FromValueOfValue | include/error.hpp:67-124 | Converting a well-formed code to its integer and back gives the same code, so the switch over values and the set of codes agree. |
| VkResults.ValueInjective | include/error.hpp:67-124 | Two well-formed codes with the same numeric value are the same code. This is why each `case` label names exactly one enumerator. |
| VkResults.Name | include/error.hpp:67-125 | For every status, `vkresult_to_string` returns the fallback text when the value has no listed code. For each listed code it returns a name shorter than the fallback, so never the fallback itself. That each name is the enumerator's own identifier is stated by VkResults.NameRoundTrip and VkResults.NamesDistinct. |
| VkResults.NameRoundTrip | include/error.hpp:67-122 | For every listed code, parsing the name `vkresult_to_string` gives back that code. The name is the enumerator's identifier, and no two listed codes share a name. |
| VkResults.NamesDistinct | include/error.hpp:67-124 | No listed code is named with the fallback text, and two different listed codes get different names. |
| VkResults.NameOfValue | include/error.hpp:123-124 | A raw status gets the fallback name "UNRECOGNIZED VkResult VALUE THIS IS A BUG" if and only if it is not one of the listed values. |
| VkResults.IsCreateInstanceError | include/error.hpp:57-65 | For every status, `is_create_instance_error` holds exactly when the value is one of -1, -2, -3, -6, -7 and -9. Every such status is a listed, negative code. |
| VkResults.CreateInstanceErrorByValue | include/error.hpp:57-65 | `is_create_instance_error` holds for exactly the statuses whose value is -1, -2, -3, -6, -7 or -9. |
| VkResults.CreateInstanceErrorsAreErrorCodes | include/error.hpp:57-65 | Every status treated as fatal is a listed, negative code whose name starts with "VK_ERROR_". |
| VkResults.NotCreateInstanceErrors | include/error.hpp:57-65 | Some statuses are not treated as fatal: VK_SUCCESS, VK_INCOMPLETE, VK_ERROR_DEVICE_LOST, and every raw value that no listed code has. |
| Errors.FailedToInitializeGlfwError | include/vulkan_helper.hpp:33-35 | The GLFW-start error has kind FailedToInitializeGlfw and carries no status and no layer name. |
| Errors.FailedToCreateWindowError | include/error.hpp:29-31 | The window error has kind FailedToCreateWindow and carries no payload. |
| Errors.FailedToInitializeVulkanError | include/error.hpp:33-36 | The Vulkan error has kind FailedToInitializeVulkan and carries exactly the status it was built from. |
| Errors.ValidationLayerNotFoundError | include/vulkan_helper.hpp:106-110 | The missing-layer error has kind ValidationLayerNotFound and carries exactly the layer name it was built from. |
| Errors.EveryErrorComesFromItsFactory | include/error.hpp:17-36 | The constructor is private, so every `Error` value is what one of the factories returns for its kind and payload. |
| Errors.FactoriesInjective | include/error.hpp:29-36 | Errors from different factories differ. The same factory gives equal errors only for equal arguments. |
| Errors.ErrorNumber | include/error.hpp:49 | The `static_cast<uint64_t>` of a status is the value itself when it is non-negative, and the value plus 2^64 when it is negative. |
| Errors.ErrorNumberInjective | include/error.hpp:47-50 | Different well-formed statuses give different error numbers, so the number in the message identifies the status. |
| Errors.VulkanMessageIdentifiesStatus | include/error.hpp:46-50 | The Vulkan failure message carries the status's `static_cast<uint64_t>` (Errors.ErrorNumber) and its `vkresult_to_string` name. For a listed status, the name parses back to that status. For an unlisted one, the name is the fallback text. |
| Errors.VulkanMessagesDistinct | include/error.hpp:46-50 | Two Vulkan errors with different well-formed statuses render to different messages. |
| Errors.ToString | include/error.hpp:42-54 | The message is the Vulkan form exactly for the Vulkan kind, and it then carries the status's error number and name. A text message for any kind other than the window kind is the unrecognised-kind text. The per-kind texts are stated by Errors.MessageByKind. |
| Errors.MessageByKind | include/error.hpp:42-54 | The message is "Failed to initialize GLFW Window" if and only if the kind is FailedToCreateWindow. It is a Vulkan failure message if and only if the kind is FailedToInitializeVulkan. Any other kind gets the unrecognised-kind text. |
| LayerCheck.CheckValidationLayerSupport | include/vulkan_helper.hpp:70-80 | The check as written reports a name only if that name was requested and some enumerated entry differs from it. |
| LayerCheck.CheckValidationLayerSupportLoop | include/vulkan_helper.hpp:62-81 | The nested loops over the requested layers and the enumerated properties return the same answer as the recursive definition of the check. |
| LayerCheck.CheckPassesIffAllEntriesEqual | include/vulkan_helper.hpp:70-80 | The check as written passes if and only if every enumerated entry equals every requested name. |
| LayerCheck.CheckPassesWhenNothingAvailable | include/vulkan_helper.hpp:61-80 | With nothing enumerated, the check passes even though a layer is requested. So the documented promise of line 61 fails on this input. |
| LayerCheck.CheckReportsAvailableLayer | include/vulkan_helper.hpp:61-77 | Requesting "V" while "A" and "V" are enumerated makes the check report "V" as missing, although it is available. This breaks the documented promise. |
| LayerCheck.CheckPassIsSoundWhenLayersAvailable | include/vulkan_helper.hpp:70-80 | When at least one layer is enumerated and the check passes, every requested layer is available. |
| LayerCheck.CheckAgreesWithSingleAvailableLayer | include/vulkan_helper.hpp:70-80 | With exactly one enumerated layer, the check as written gives the same answer as the corrected search. |
| LayerCheck.FindMissingLayer | include/vulkan_helper.hpp:61 | The corrected check reports a name only if it was requested and is not available. It reports nothing if and only if every requested layer is available. |
| LayerCheck.FindMissingLayerReportsMissingLayer | include/vulkan_helper.hpp:61 | The corrected check meets the documented promise on every input. |
| LayerCheck.FindMissingLayerIsFirst | include/vulkan_helper.hpp:70-75 | The corrected check reports the first requested layer, in request order, that is not available. |
| VulkanHelper.SourceConfig | include/vulkan_helper.hpp:20-27 | Validation layers are enabled exactly when `NDEBUG` is defined. The requested list is exactly ["VK_LAYER_KHRONOS_validation"]. The layer check is the loop as written. |
| VulkanHelper.MissingLayer | include/vulkan_helper.hpp:105-110 | The layer check chosen by the configuration only reports names from the configured list. The corrected check meets the documented promise. |
| VulkanHelper.ToUint32 | include/vulkan_helper.hpp:112-113 | The `static_cast<uint32_t>` of the layer count keeps any count below 2^32 unchanged. |
| VulkanHelper.InitializeWindow | include/vulkan_helper.hpp:29-50 | GLFW is started first. If that fails, the result is the GLFW error and no window is requested. Otherwise exactly four calls are made, in this order: the start, the hint for no client API (no rendering context), the hint that the window is not resizable, and the window request with the given size and title. A null window gives FailedToCreateWindow. The result is Ok if and only if GLFW started and a window was returned, and the handle is GLFW's. |
| VulkanHelper.CreateInstanceInformation | include/vulkan_helper.hpp:95-118 | The request keeps the application info, extension list and count unchanged. When validation is off, the request has no layers and no external call is made. When validation is on, the layers are enumerated once, and a missing layer gives ValidationLayerNotFound with its name. Otherwise the configured layers and their count are set. |
| VulkanHelper.CreateVulkanInstance | include/vulkan_helper.hpp:136-172 | The extensions are queried first. A failed layer check is returned unchanged, without calling `vkCreateInstance`. Otherwise the last call is `vkCreateInstance`, and it records the driver's status. The result is an error if and only if the status is one of the six fatal ones, and that error carries the status. Otherwise it is the driver's handle. The request passed, and that the call happens once, are stated by Lifecycle.AssembledRequestIsSent. |
| VulkanHelper.InitializeVulkan | include/vulkan_helper.hpp:174-183 | Wrapping the instance in a one-element tuple changes neither the outcome nor the calls made. |
| VulkanHelper.Initialize | include/vulkan_helper.hpp:185-205 | A window failure is returned before any Vulkan call. An instance failure is returned unchanged. It succeeds exactly when GLFW starts, the window is created, the layer check passes and the status is not fatal. Success yields the window and instance handles from those two steps. |
| VulkanHelper.Deinitialize | include/vulkan_helper.hpp:207-211 | Teardown destroys the instance, then the window, then terminates GLFW. That empties the stack [runtime, window, instance] without a release out of order. |
| Lifecycle.ReplayWindowStep | include/vulkan_helper.hpp:29-50 | The window step pushes the GLFW runtime once GLFW has started, then the window once it is non-null. It never releases anything. |
| Lifecycle.ReplayInstanceStep | include/vulkan_helper.hpp:136-172 | The instance step pushes the instance exactly when `vkCreateInstance` was called and its status is not fatal. It never releases anything. |
| Lifecycle.InitializeTraceShape | include/vulkan_helper.hpp:185-205 | The calls of `initialize` are the window step's calls. If that step succeeded, the instance step's calls follow. If both succeeded, the discarded layer enumeration of line 202 comes last. |
| Lifecycle.NothingHeldAfterGlfwFailure | include/vulkan_helper.hpp:33-35 | When GLFW fails to start, nothing is held afterwards. |
| Lifecycle.RuntimeHeldAfterWindowFailure | include/vulkan_helper.hpp:43-47 | When the window is null, the GLFW runtime stays initialised: `glfwTerminate` is never called. |
| Lifecycle.WindowHeldAfterInstanceFailure | include/vulkan_helper.hpp:195-200 | When the window exists but the instance step fails, the runtime and the window stay alive. |
| Lifecycle.AllHeldAfterSuccess | include/vulkan_helper.hpp:185-205 | A successful `initialize` holds the runtime, the returned window and the returned instance, in that order. |
| Lifecycle.FullLifecycleReleasesEverything | include/vulkan_helper.hpp:185-211 | A successful `initialize` followed by `deinitialize` on its handles releases everything, in reverse order of creation. |
| Lifecycle.DeinitializeEmptiesOnlyTheBootstrapStack | include/vulkan_helper.hpp:207-211 | The only stack of held resources that `deinitialize` empties is [runtime, window, instance]. |
| Lifecycle.FailureAfterWindowLeaks | include/vulkan_helper.hpp:185-200 | Every failure of `initialize` after GLFW started leaves something held. |
| Lifecycle.InitializeNeverTearsDown | include/vulkan_helper.hpp:185-205 | `initialize` makes only bootstrap calls. It never destroys the instance, never destroys the window and never terminates GLFW. |
| Lifecycle.WindowFailureStopsInitialize | include/vulkan_helper.hpp:188-193 | When the window step fails, `initialize` returns its error. No extension query, layer enumeration or instance creation follows. |
| Lifecycle.LayerFailureStopsInitialize | include/vulkan_helper.hpp:146-152 | When the layer check fails, `initialize` returns ValidationLayerNotFound with the reported name and never calls `vkCreateInstance`. |
| Lifecycle.InstanceCreatedOnlyAfterWindow | include/vulkan_helper.hpp:185-200 | Every `vkCreateInstance` in a run comes after a window request that returned a handle. |
| Lifecycle.AssembledRequestIsSent | include/vulkan_helper.hpp:141-157 | `vkCreateInstance` is called once: every earlier call is the extension query or the layer enumeration. It receives exactly the request `get_vulkan_create_instance_information` assembled. |
| Lifecycle.CreateInstanceRequest | include/vulkan_helper.hpp:99-117 | `vkCreateInstance` receives the fixed application metadata and the extensions and count exactly as GLFW returned them. It receives no layers when validation is off, and the configured layers when it is on. |
| Lifecycle.CorrectedLayerCheckRejectsExactlyMissingLayers | include/vulkan_helper.hpp:61-81 | With the corrected check and validation on, `initialize` fails with ValidationLayerNotFound if and only if some configured layer is not enumerated. The reported name is one of those layers. |
| Scenarios.ScenarioAllSucceed | include/vulkan_helper.hpp:185-211 | In a debug build where every call succeeds, `initialize` returns both handles and `deinitialize` releases everything. |
| Scenarios.ScenarioGlfwFails | include/vulkan_helper.hpp:33-35 | When GLFW fails, `initialize` returns the GLFW error and never creates an instance. `to_string` has no case for that kind, so the error renders as the unrecognised-kind text. |
| Scenarios.ScenarioLayerMissing | include/vulkan_helper.hpp:105-110 | With validation on, DIAG_LAYER_X requested and only the Khronos layer enumerated, both checks report DIAG_LAYER_X and no instance is requested. As written, the report comes from the differing Khronos entry. With nothing enumerated, the same request passes, as Scenarios.AsWrittenAcceptsEmptyEnumeration shows. |
| Scenarios.ScenarioIncompatibleDriver | include/vulkan_helper.hpp:156-162 | VK_ERROR_INCOMPATIBLE_DRIVER gives the Vulkan error with that status. The message names the code, and the window and runtime stay alive. |
| Scenarios.AsWrittenRejectsInstalledLayer | include/vulkan_helper.hpp:70-77 | In a release build whose Khronos layer is enumerated second, the code as written rejects the installed layer. The corrected check creates the instance. |
| Scenarios.AsWrittenAcceptsEmptyEnumeration | include/vulkan_helper.hpp:70-80 | In a release build with no layer installed, the check as written passes and the failure surfaces later, as the status of `vkCreateInstance`. The corrected check reports the layer as missing. |

## Left out

- GLFW and the Vulkan loader are not modelled. The `Platform` value records
  each external call's answer: whether `glfwInit` succeeds, the window handle
  or null, the required extensions, the enumerated layers, and the status and
  handle of `vkCreateInstance`.
- The two calls of `vkEnumerateInstanceLayerProperties`, the first asking for
  the count and the second filling the array, are one event that yields the
  list.
- The 256-byte `layerName` array and its NUL terminator are not modelled.
  Layer names are strings.
- `get_glfw_extensions` becomes one event plus the `Platform` fields. Its
  pointer/count pair is carried as a list and a count.
- C struct layout, the `sType` fields and the `pNext` and allocator pointers
  are not modelled. A request keeps only the fields the code sets.
- `get_vulkan_extensions` (`include/vulkan_helper.hpp:120-134`) is not
  modelled. It is only named in commented-out code, and all it does is print.
- `source/main.cpp` is the caller and is not part of this model.
- The numeric values of the `VkResult` enumerators come from the Vulkan
  headers. `vulkan_core.h` is not part of this model.
- Errors.ToString: renders the Vulkan message as a number and a code name,
  not as the `std::format` text, because decimal printing is not modelled.
  Its properties are stated by Errors.MessageByKind and
  Errors.VulkanMessageIdentifiesStatus.
- VulkanHelper.CreateVulkanInstance: a non-fatal status that is not
  VK_SUCCESS returns the driver's handle. In the C++, `instance` may then be
  uninitialised, and the model does not say what it holds.
- VulkanHelper.Initialize: its own contract states only the outcome. The
  calls it makes are stated by the Lifecycle lemmas.
- `error.hpp` declares two error kinds, but the helper calls two more
  factories: `Error::failed_to_initialize_glfw` and
  `Error::validation_layer_not_found`. Neither is defined in `error.hpp`.
  The model adds the kinds FailedToInitializeGlfw and ValidationLayerNotFound
  with the payloads the calls imply. `to_string` is left unchanged, so both
  kinds render as the unrecognised-kind text.
- The model follows the code:
  - validation is enabled when `NDEBUG` is defined;
  - the layer check keeps its loop as written, and the corrected version is
    selectable;
  - failures after GLFW has started do not tear anything down.

## Findings

| source | as written | input that shows it | evidently intended | confidence | as-written member | corrected member |
|---|---|---|---|---|---|---|
| include/vulkan_helper.hpp:70-77 | A requested layer is reported missing as soon as any enumerated entry differs from it. With nothing enumerated, the check passes. | Requested ["V"], enumerated ["A", "V"]: "V" is reported missing. Requested ["VK_LAYER_KHRONOS_validation"], enumerated []: the check passes. | Report a requested layer only when no enumerated entry equals it (line 61). | not executed | LayerCheck.CheckReportsAvailableLayer | LayerCheck.FindMissingLayer |
