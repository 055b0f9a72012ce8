/** The error value of include/error.hpp: a kind plus a payload that only
    some kinds carry, the factories that are its only way in, and the
    user-facing message `to_string` selects. */
module Errors {
  import opened Outcomes
  import opened VkResults

  /** `ErrorKind`. The header declares only `FailedToCreateWindow` and
      `FailedToInitializeVulkan`; `FailedToInitializeGlfw` and
      `ValidationLayerNotFound` are added because include/vulkan_helper.hpp
      constructs errors of those kinds. */
  datatype ErrorKind =
    | FailedToInitializeGlfw
    | FailedToCreateWindow
    | FailedToInitializeVulkan
    | ValidationLayerNotFound

  /** The fields of the `Error` struct: its kind, the status payload of the
      Vulkan kind, and the layer-name payload of the added layer kind. */
  datatype ErrorFields = ErrorFields(
    kind: ErrorKind,
    vulkanData: Option<Status>,
    missingLayer: Option<string>)

  /** What the private constructor and the factories guarantee together: a
      payload is present exactly for the kind that owns it. */
  predicate PayloadMatchesKind(e: ErrorFields) {
    && (e.vulkanData.Some? <==> e.kind == FailedToInitializeVulkan)
    && (e.missingLayer.Some? <==> e.kind == ValidationLayerNotFound)
  }

  /** An `Error` as the rest of the program can observe it. */
  type Error = e: ErrorFields | PayloadMatchesKind(e)
    witness ErrorFields(FailedToCreateWindow, None, None)

  /** The factory the GLFW call site uses (absent from the header). */
  function FailedToInitializeGlfwError(): (e: Error)
    ensures e.kind == FailedToInitializeGlfw && e.vulkanData.None? && e.missingLayer.None?
  {
    ErrorFields(FailedToInitializeGlfw, None, None)
  }

  /** `Error::failed_to_create_window()`. */
  function FailedToCreateWindowError(): (e: Error)
    ensures e.kind == FailedToCreateWindow && e.vulkanData.None? && e.missingLayer.None?
  {
    ErrorFields(FailedToCreateWindow, None, None)
  }

  /** `Error::failed_to_initialize_vulkan(r)`: carries exactly `r`. */
  function FailedToInitializeVulkanError(r: Status): (e: Error)
    ensures e.kind == FailedToInitializeVulkan && e.vulkanData == Some(r)
  {
    ErrorFields(FailedToInitializeVulkan, Some(r), None)
  }

  /** The factory the layer-check call site uses (absent from the header):
      carries exactly the missing layer's name. */
  function ValidationLayerNotFoundError(name: string): (e: Error)
    ensures e.kind == ValidationLayerNotFound && e.missingLayer == Some(name)
  {
    ErrorFields(ValidationLayerNotFound, None, Some(name))
  }

  /** Since the constructor is private, every error is the result of exactly
      the factory its kind names, applied to its payload. */
  lemma EveryErrorComesFromItsFactory(e: Error)
    ensures e.kind == FailedToInitializeGlfw ==> e == FailedToInitializeGlfwError()
    ensures e.kind == FailedToCreateWindow ==> e == FailedToCreateWindowError()
    ensures e.kind == FailedToInitializeVulkan ==>
              e.vulkanData.Some? && e == FailedToInitializeVulkanError(e.vulkanData.value)
    ensures e.kind == ValidationLayerNotFound ==>
              e.missingLayer.Some? && e == ValidationLayerNotFoundError(e.missingLayer.value)
  {
  }

  /** The factories are injective: the payload is recovered from the error. */
  lemma FactoriesInjective(r1: Status, r2: Status, n1: string, n2: string)
    ensures FailedToInitializeVulkanError(r1) == FailedToInitializeVulkanError(r2) ==> r1 == r2
    ensures ValidationLayerNotFoundError(n1) == ValidationLayerNotFoundError(n2) ==> n1 == n2
    ensures FailedToInitializeVulkanError(r1) != ValidationLayerNotFoundError(n1)
  {
  }

  /** The text of the window kind. */
  const WindowMessage := "Failed to initialize GLFW Window"

  /** The text of the `default:` branch of `to_string`. */
  const UnrecognizedKindMessage := "UNRECOGNIZED ERROR KIND THIS IS A BUG"

  /** A user-facing message, kept structural: a fixed text, or the Vulkan
      message "Failed to initialize Vulkan: error number: {} ({})" with its
      two fields, the status as printed and its name. */
  datatype Message =
    | Text(text: string)
    | VulkanFailure(errorNumber: nat, codeName: string)

  /** `static_cast<uint64_t>` of the status value: negative values wrap
      modulo 2^64. */
  function ErrorNumber(r: VkResult): (n: nat)
    ensures n < 0x1_0000_0000_0000_0000
    ensures Value(r) >= 0 ==> n == Value(r) as int
    ensures Value(r) < 0 ==> n == Value(r) as int + 0x1_0000_0000_0000_0000
  {
    (Value(r) as int) % 0x1_0000_0000_0000_0000
  }

  /** The printed error number identifies the status: no two well-formed
      statuses print the same number. */
  lemma ErrorNumberInjective(r1: VkResult, r2: VkResult)
    requires WellFormed(r1) && WellFormed(r2)
    requires ErrorNumber(r1) == ErrorNumber(r2)
    ensures r1 == r2
  {
    ValueInjective(r1, r2);
  }

  /** `Error::to_string`: a case for the window kind and one for the Vulkan
      kind; every other kind falls to the `default:` text. */
  function ToString(e: Error): (m: Message)
    ensures m.VulkanFailure? <==> e.kind == FailedToInitializeVulkan
    ensures m.VulkanFailure? ==>
              m.errorNumber == ErrorNumber(e.vulkanData.value) && m.codeName == Name(e.vulkanData.value)
    ensures m.Text? && e.kind != FailedToCreateWindow ==> m.text == UnrecognizedKindMessage
  {
    match e.kind
    case FailedToCreateWindow => Text(WindowMessage)
    case FailedToInitializeVulkan =>
      var code := e.vulkanData.value;
      VulkanFailure(ErrorNumber(code), Name(code))
    case _ => Text(UnrecognizedKindMessage)
  }

  /** The message of a Vulkan error names its status: it carries the status
      cast to `uint64_t` and the status's name, and for a listed status the
      name reads back as the status. */
  lemma VulkanMessageIdentifiesStatus(r: VkResult)
    requires WellFormed(r)
    ensures ToString(FailedToInitializeVulkanError(r)).VulkanFailure?
    ensures ToString(FailedToInitializeVulkanError(r)) == VulkanFailure(ErrorNumber(r), Name(r))
    ensures Listed(r) ==> ParseName(ToString(FailedToInitializeVulkanError(r)).codeName) == Some(r)
    ensures !Listed(r) ==> ToString(FailedToInitializeVulkanError(r)).codeName == UnrecognizedName
  {
    if Listed(r) {
      NameRoundTrip(r);
    }
  }

  /** Two Vulkan errors with well-formed statuses give the same message only
      if they are the same error. */
  lemma VulkanMessagesDistinct(r1: VkResult, r2: VkResult)
    requires WellFormed(r1) && WellFormed(r2)
    requires ToString(FailedToInitializeVulkanError(r1)) == ToString(FailedToInitializeVulkanError(r2))
    ensures r1 == r2
  {
    ErrorNumberInjective(r1, r2);
  }

  /** The kinds `to_string` has a case for get messages of their own; the
      two added kinds share the fallback text, so a missing layer's name
      never reaches the message. */
  lemma MessageByKind(e: Error)
    ensures ToString(e) == Text(WindowMessage) <==> e.kind == FailedToCreateWindow
    ensures ToString(e).VulkanFailure? <==> e.kind == FailedToInitializeVulkan
    ensures ToString(e) == Text(UnrecognizedKindMessage) <==>
              e.kind == FailedToInitializeGlfw || e.kind == ValidationLayerNotFound
  {
  }
}
