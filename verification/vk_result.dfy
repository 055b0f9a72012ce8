/** The graphics API's status codes (`VkResult`), the name table
    `vkresult_to_string` and the fatal-code classifier
    `is_create_instance_error` of include/error.hpp. */
module VkResults {
  import opened Outcomes

  /** The underlying integer type of the `VkResult` enumeration. */
  newtype int32 = x: int | -0x8000_0000 <= x < 0x8000_0000

  /** Every enumerator that `vkresult_to_string` lists, plus `Unlisted` for
      any other value a `VkResult` can hold. */
  datatype VkResult =
    | Success
    | NotReady
    | Timeout
    | EventSet
    | EventReset
    | Incomplete
    | ErrorOutOfHostMemory
    | ErrorOutOfDeviceMemory
    | ErrorInitializationFailed
    | ErrorDeviceLost
    | ErrorMemoryMapFailed
    | ErrorLayerNotPresent
    | ErrorExtensionNotPresent
    | ErrorFeatureNotPresent
    | ErrorIncompatibleDriver
    | ErrorTooManyObjects
    | ErrorFormatNotSupported
    | ErrorFragmentedPool
    | ErrorUnknown
    | ErrorOutOfPoolMemory
    | ErrorInvalidExternalHandle
    | ErrorFragmentation
    | ErrorInvalidOpaqueCaptureAddress
    | PipelineCompileRequired
    | ErrorNotPermitted
    | ErrorInvalidShaderNV
    | ResultMaxEnum
    | Unlisted(raw: int32)

  /** The enumerator's integer value, as fixed by the Vulkan headers. */
  function Value(r: VkResult): int32 {
    match r
    case Success => 0
    case NotReady => 1
    case Timeout => 2
    case EventSet => 3
    case EventReset => 4
    case Incomplete => 5
    case ErrorOutOfHostMemory => -1
    case ErrorOutOfDeviceMemory => -2
    case ErrorInitializationFailed => -3
    case ErrorDeviceLost => -4
    case ErrorMemoryMapFailed => -5
    case ErrorLayerNotPresent => -6
    case ErrorExtensionNotPresent => -7
    case ErrorFeatureNotPresent => -8
    case ErrorIncompatibleDriver => -9
    case ErrorTooManyObjects => -10
    case ErrorFormatNotSupported => -11
    case ErrorFragmentedPool => -12
    case ErrorUnknown => -13
    case ErrorOutOfPoolMemory => -1000069000
    case ErrorInvalidExternalHandle => -1000072003
    case ErrorFragmentation => -1000161000
    case ErrorInvalidOpaqueCaptureAddress => -1000257000
    case PipelineCompileRequired => 1000297000
    case ErrorNotPermitted => -1000174001
    case ErrorInvalidShaderNV => -1000012000
    case ResultMaxEnum => 0x7FFF_FFFF
    case Unlisted(v) => v
  }

  /** Reads a raw status value as a `VkResult`; values that no listed
      enumerator has become `Unlisted`. */
  function FromValue(v: int32): (r: VkResult)
    ensures Value(r) == v
    ensures WellFormed(r)
  {
    match v
    case 0 => Success
    case 1 => NotReady
    case 2 => Timeout
    case 3 => EventSet
    case 4 => EventReset
    case 5 => Incomplete
    case -1 => ErrorOutOfHostMemory
    case -2 => ErrorOutOfDeviceMemory
    case -3 => ErrorInitializationFailed
    case -4 => ErrorDeviceLost
    case -5 => ErrorMemoryMapFailed
    case -6 => ErrorLayerNotPresent
    case -7 => ErrorExtensionNotPresent
    case -8 => ErrorFeatureNotPresent
    case -9 => ErrorIncompatibleDriver
    case -10 => ErrorTooManyObjects
    case -11 => ErrorFormatNotSupported
    case -12 => ErrorFragmentedPool
    case -13 => ErrorUnknown
    case -1000069000 => ErrorOutOfPoolMemory
    case -1000072003 => ErrorInvalidExternalHandle
    case -1000161000 => ErrorFragmentation
    case -1000257000 => ErrorInvalidOpaqueCaptureAddress
    case 1000297000 => PipelineCompileRequired
    case -1000174001 => ErrorNotPermitted
    case -1000012000 => ErrorInvalidShaderNV
    case 0x7FFF_FFFF => ResultMaxEnum
    case _ => Unlisted(v)
  }

  /** The values of the listed enumerators. */
  const ListedValues: set<int32> := {
    0, 1, 2, 3, 4, 5, -1, -2, -3, -4, -5, -6, -7, -8, -9, -10, -11, -12, -13,
    -1000069000, -1000072003, -1000161000, -1000257000, 1000297000, -1000174001,
    -1000012000, 0x7FFF_FFFF
  }

  /** An `Unlisted` value never carries the value of a listed enumerator, so
      each status value has exactly one representation. */
  predicate WellFormed(r: VkResult) {
    r.Unlisted? ==> r.raw !in ListedValues
  }

  /** A status as a `VkResult` variable holds it: one representation per
      value, so that matching on the enumerator is matching on the value. */
  type Status = r: VkResult | WellFormed(r) witness Success

  /** Listed enumerators are those `vkresult_to_string` has a case for. */
  predicate Listed(r: VkResult) {
    !r.Unlisted?
  }

  /** Each well-formed status is recovered from its integer value. */
  lemma FromValueOfValue(r: VkResult)
    requires WellFormed(r)
    ensures FromValue(Value(r)) == r
  {
  }

  /** Two well-formed statuses with the same value are the same status. */
  lemma ValueInjective(r1: VkResult, r2: VkResult)
    requires WellFormed(r1) && WellFormed(r2)
    requires Value(r1) == Value(r2)
    ensures r1 == r2
  {
    FromValueOfValue(r1);
    FromValueOfValue(r2);
  }

  /** The text `vkresult_to_string` returns for a value it has no case for. */
  const UnrecognizedName := "UNRECOGNIZED VkResult VALUE THIS IS A BUG"

  /** `vkresult_to_string`: the enumerator's own identifier, or the fallback
      text for any other value. Every identifier is shorter than the
      41-character fallback text, so no listed status is named with it. */
  function Name(r: Status): (n: string)
    ensures r.Unlisted? ==> n == UnrecognizedName
    ensures Listed(r) ==> |n| < 40
  {
    match r
    case Success => "VK_SUCCESS"
    case NotReady => "VK_NOT_READY"
    case Timeout => "VK_TIMEOUT"
    case EventSet => "VK_EVENT_SET"
    case EventReset => "VK_EVENT_RESET"
    case Incomplete => "VK_INCOMPLETE"
    case ErrorOutOfHostMemory => "VK_ERROR_OUT_OF_HOST_MEMORY"
    case ErrorOutOfDeviceMemory => "VK_ERROR_OUT_OF_DEVICE_MEMORY"
    case ErrorInitializationFailed => "VK_ERROR_INITIALIZATION_FAILED"
    case ErrorDeviceLost => "VK_ERROR_DEVICE_LOST"
    case ErrorMemoryMapFailed => "VK_ERROR_MEMORY_MAP_FAILED"
    case ErrorLayerNotPresent => "VK_ERROR_LAYER_NOT_PRESENT"
    case ErrorExtensionNotPresent => "VK_ERROR_EXTENSION_NOT_PRESENT"
    case ErrorFeatureNotPresent => "VK_ERROR_FEATURE_NOT_PRESENT"
    case ErrorIncompatibleDriver => "VK_ERROR_INCOMPATIBLE_DRIVER"
    case ErrorTooManyObjects => "VK_ERROR_TOO_MANY_OBJECTS"
    case ErrorFormatNotSupported => "VK_ERROR_FORMAT_NOT_SUPPORTED"
    case ErrorFragmentedPool => "VK_ERROR_FRAGMENTED_POOL"
    case ErrorUnknown => "VK_ERROR_UNKNOWN"
    case ErrorOutOfPoolMemory => "VK_ERROR_OUT_OF_POOL_MEMORY"
    case ErrorInvalidExternalHandle => "VK_ERROR_INVALID_EXTERNAL_HANDLE"
    case ErrorFragmentation => "VK_ERROR_FRAGMENTATION"
    case ErrorInvalidOpaqueCaptureAddress => "VK_ERROR_INVALID_OPAQUE_CAPTURE_ADDRESS"
    case PipelineCompileRequired => "VK_PIPELINE_COMPILE_REQUIRED"
    case ErrorNotPermitted => "VK_ERROR_NOT_PERMITTED"
    case ErrorInvalidShaderNV => "VK_ERROR_INVALID_SHADER_NV"
    case ResultMaxEnum => "VK_RESULT_MAX_ENUM"
    case Unlisted(_) => UnrecognizedName
  }

  /** The inverse of the name table: the listed enumerator whose identifier is
      `s`, if there is one. Candidates are narrowed by the length of `s`
      before the text is compared. */
  function ParseName(s: string): Option<VkResult> {
    match |s|
    case 10 =>
      if s == "VK_SUCCESS" then Some(Success)
      else if s == "VK_TIMEOUT" then Some(Timeout)
      else None
    case 12 =>
      if s == "VK_NOT_READY" then Some(NotReady)
      else if s == "VK_EVENT_SET" then Some(EventSet)
      else None
    case 13 =>
      if s == "VK_INCOMPLETE" then Some(Incomplete)
      else None
    case 14 =>
      if s == "VK_EVENT_RESET" then Some(EventReset)
      else None
    case 16 =>
      if s == "VK_ERROR_UNKNOWN" then Some(ErrorUnknown)
      else None
    case 18 =>
      if s == "VK_RESULT_MAX_ENUM" then Some(ResultMaxEnum)
      else None
    case 20 =>
      if s == "VK_ERROR_DEVICE_LOST" then Some(ErrorDeviceLost)
      else None
    case 22 =>
      if s == "VK_ERROR_FRAGMENTATION" then Some(ErrorFragmentation)
      else if s == "VK_ERROR_NOT_PERMITTED" then Some(ErrorNotPermitted)
      else None
    case 24 =>
      if s == "VK_ERROR_FRAGMENTED_POOL" then Some(ErrorFragmentedPool)
      else None
    case 25 =>
      if s == "VK_ERROR_TOO_MANY_OBJECTS" then Some(ErrorTooManyObjects)
      else None
    case 26 =>
      if s == "VK_ERROR_MEMORY_MAP_FAILED" then Some(ErrorMemoryMapFailed)
      else if s == "VK_ERROR_LAYER_NOT_PRESENT" then Some(ErrorLayerNotPresent)
      else if s == "VK_ERROR_INVALID_SHADER_NV" then Some(ErrorInvalidShaderNV)
      else None
    case 27 =>
      if s == "VK_ERROR_OUT_OF_HOST_MEMORY" then Some(ErrorOutOfHostMemory)
      else if s == "VK_ERROR_OUT_OF_POOL_MEMORY" then Some(ErrorOutOfPoolMemory)
      else None
    case 28 =>
      if s == "VK_ERROR_FEATURE_NOT_PRESENT" then Some(ErrorFeatureNotPresent)
      else if s == "VK_ERROR_INCOMPATIBLE_DRIVER" then Some(ErrorIncompatibleDriver)
      else if s == "VK_PIPELINE_COMPILE_REQUIRED" then Some(PipelineCompileRequired)
      else None
    case 29 =>
      if s == "VK_ERROR_OUT_OF_DEVICE_MEMORY" then Some(ErrorOutOfDeviceMemory)
      else if s == "VK_ERROR_FORMAT_NOT_SUPPORTED" then Some(ErrorFormatNotSupported)
      else None
    case 30 =>
      if s == "VK_ERROR_INITIALIZATION_FAILED" then Some(ErrorInitializationFailed)
      else if s == "VK_ERROR_EXTENSION_NOT_PRESENT" then Some(ErrorExtensionNotPresent)
      else None
    case 32 =>
      if s == "VK_ERROR_INVALID_EXTERNAL_HANDLE" then Some(ErrorInvalidExternalHandle)
      else None
    case 39 =>
      if s == "VK_ERROR_INVALID_OPAQUE_CAPTURE_ADDRESS" then Some(ErrorInvalidOpaqueCaptureAddress)
      else None
    case _ => None
  }

  /** The name table is a bijection between the listed enumerators and their
      identifiers: the identifier reads back as the enumerator. */
  lemma NameRoundTrip(r: VkResult)
    requires Listed(r)
    ensures ParseName(Name(r)) == Some(r)
  {
    if Value(r) >= 0 {
      StatusNameRoundTrip(r);
    } else if Value(r) >= -6 {
      CoreErrorNameRoundTrip(r);
    } else if Value(r) >= -13 {
      LateCoreErrorNameRoundTrip(r);
    } else {
      ExtensionErrorNameRoundTrip(r);
    }
  }

  /** Round trip for the non-negative (success and status) codes. */
  lemma StatusNameRoundTrip(r: VkResult)
    requires Listed(r) && Value(r) >= 0
    ensures ParseName(Name(r)) == Some(r)
  {
    match r
    case Success =>
    case NotReady =>
    case Timeout =>
    case EventSet =>
    case EventReset =>
    case Incomplete =>
    case PipelineCompileRequired =>
    case ResultMaxEnum =>
    case _ =>
  }

  /** Round trip for the core error codes -1 to -6. */
  lemma CoreErrorNameRoundTrip(r: VkResult)
    requires Listed(r) && -6 <= Value(r) < 0
    ensures ParseName(Name(r)) == Some(r)
  {
    match r
    case ErrorOutOfHostMemory =>
    case ErrorOutOfDeviceMemory =>
    case ErrorInitializationFailed =>
    case ErrorDeviceLost =>
    case ErrorMemoryMapFailed =>
    case ErrorLayerNotPresent =>
    case _ =>
  }

  /** Round trip for the core error codes -7 to -13. */
  lemma LateCoreErrorNameRoundTrip(r: VkResult)
    requires Listed(r) && -13 <= Value(r) < -6
    ensures ParseName(Name(r)) == Some(r)
  {
    match r
    case ErrorExtensionNotPresent =>
    case ErrorFeatureNotPresent =>
    case ErrorIncompatibleDriver =>
    case ErrorTooManyObjects =>
    case ErrorFormatNotSupported =>
    case ErrorFragmentedPool =>
    case ErrorUnknown =>
    case _ =>
  }

  /** Round trip for the error codes that extensions introduced. */
  lemma ExtensionErrorNameRoundTrip(r: VkResult)
    requires Listed(r) && Value(r) < -13
    ensures ParseName(Name(r)) == Some(r)
  {
    match r
    case ErrorOutOfPoolMemory =>
    case ErrorInvalidExternalHandle =>
    case ErrorFragmentation =>
    case ErrorInvalidOpaqueCaptureAddress =>
    case ErrorNotPermitted =>
    case ErrorInvalidShaderNV =>
    case _ =>
  }

  /** Distinct listed enumerators get distinct names, and none of them is
      named like the fallback. */
  lemma NamesDistinct(r1: VkResult, r2: VkResult)
    requires Listed(r1)
    ensures Name(r1) != UnrecognizedName
    ensures Listed(r2) && r1 != r2 ==> Name(r1) != Name(r2)
  {
    NameRoundTrip(r1);
    if Listed(r2) {
      NameRoundTrip(r2);
    }
  }

  /** Read through the integer interface, a status value gets the fallback
      name exactly when no listed enumerator has that value. */
  lemma NameOfValue(v: int32)
    ensures Name(FromValue(v)) == UnrecognizedName <==> v !in ListedValues
  {
    if v in ListedValues {
      NamesDistinct(FromValue(v), FromValue(v));
    }
  }

  /** `is_create_instance_error`: the statuses after which instance creation
      produced no instance. */
  function IsCreateInstanceError(r: Status): (fatal: bool)
    ensures fatal ==> Listed(r) && Value(r) < 0
    ensures fatal <==> Value(r) in CreateInstanceErrorValues
  {
    || r == ErrorOutOfHostMemory
    || r == ErrorOutOfDeviceMemory
    || r == ErrorInitializationFailed
    || r == ErrorLayerNotPresent
    || r == ErrorExtensionNotPresent
    || r == ErrorIncompatibleDriver
  }

  /** The values the classifier treats as fatal. */
  const CreateInstanceErrorValues: set<int32> := {-1, -2, -3, -6, -7, -9}

  /** Read through the integer interface, the classifier holds of exactly six
      values, all of them negative (error) codes. */
  lemma CreateInstanceErrorByValue(v: int32)
    ensures IsCreateInstanceError(FromValue(v)) <==> v in CreateInstanceErrorValues
    ensures IsCreateInstanceError(FromValue(v)) ==> v < 0
  {
  }

  /** Every status the classifier calls fatal is a listed error enumerator:
      its name carries the `VK_ERROR_` prefix. */
  lemma CreateInstanceErrorsAreErrorCodes(r: Status)
    requires IsCreateInstanceError(r)
    ensures Listed(r) && Value(r) < 0
    ensures "VK_ERROR_" <= Name(r)
  {
    match r
    case ErrorOutOfHostMemory =>
    case ErrorOutOfDeviceMemory =>
    case ErrorInitializationFailed =>
    case ErrorLayerNotPresent =>
    case ErrorExtensionNotPresent =>
    case ErrorIncompatibleDriver =>
  }

  /** Success and the non-fatal codes the instance bootstrap tolerates. */
  lemma NotCreateInstanceErrors()
    ensures !IsCreateInstanceError(Success)
    ensures !IsCreateInstanceError(Incomplete)
    ensures !IsCreateInstanceError(ErrorDeviceLost)
    ensures forall v: int32 | v !in ListedValues :: !IsCreateInstanceError(FromValue(v))
  {
  }
}
