/** Whole runs on concrete platform answers: a run where every call
    succeeds, a GLFW start failure, a missing layer, an incompatible driver,
    and two runs that separate the layer check as written from the corrected
    one. */
module Scenarios {
  import opened Outcomes
  import opened VkResults
  import opened Errors
  import opened LayerCheck
  import opened VulkanHelper
  import opened Lifecycle

  /** Platform answers where every call succeeds, apart from what the
      arguments choose. */
  function Platform0(glfwInitSucceeds: bool, available: seq<string>, status: Status): Platform {
    Platform(glfwInitSucceeds, Some(Window(1)), ["VK_KHR_surface", "VK_KHR_xlib_surface"], 2,
             available, status, Instance(7))
  }

  /** Debug build (validation off), every call succeeds: `initialize` yields
      both handles and `deinitialize` releases everything. */
  lemma ScenarioAllSucceed()
    ensures var r := Initialize(SourceConfig(false), Platform0(true, [], Success));
            && r.outcome == Ok((Window(1), Instance(7)))
            && Replay([], r.trace + Deinitialize(Window(1), Instance(7))) == Some([])
  {
    FullLifecycleReleasesEverything(SourceConfig(false), Platform0(true, [], Success));
  }

  /** GLFW fails to start: the GLFW error, no instance attempt, and (since
      `to_string` has no case for this kind) the fallback message. */
  lemma ScenarioGlfwFails()
    ensures var r := Initialize(SourceConfig(false), Platform0(false, [], Success));
            && r.outcome == Unexpected(FailedToInitializeGlfwError())
            && !Makes(r.trace, CreateInstanceCall)
            && ToString(r.outcome.error) == Text(UnrecognizedKindMessage)
  {
    WindowFailureStopsInitialize(SourceConfig(false), Platform0(false, [], Success));
  }

  /** Validation on, DIAG_LAYER_X requested and only the Khronos layer
      enumerated: both checks report DIAG_LAYER_X, and the instance is never
      requested. (As written, the report comes from the differing Khronos
      entry; with nothing enumerated the same request would pass, see
      `AsWrittenAcceptsEmptyEnumeration`.) */
  lemma ScenarioLayerMissing(variant: LayerCheckVariant)
    ensures var config := Config(true, ["DIAG_LAYER_X"], variant);
            var r := Initialize(config, Platform0(true, [KhronosValidationLayer], Success));
            && r.outcome == Unexpected(ValidationLayerNotFoundError("DIAG_LAYER_X"))
            && !Makes(r.trace, CreateInstanceCall)
  {
    var config := Config(true, ["DIAG_LAYER_X"], variant);
    var p := Platform0(true, [KhronosValidationLayer], Success);
    assert p.availableLayers[0] != "DIAG_LAYER_X";
    assert MissingLayer(config, p.availableLayers) == Some("DIAG_LAYER_X");
    LayerFailureStopsInitialize(config, p);
  }

  /** The driver is incompatible: the Vulkan error carries that status, the
      message names it, and the window stays alive. */
  lemma ScenarioIncompatibleDriver()
    ensures var p := Platform0(true, [], ErrorIncompatibleDriver);
            var r := Initialize(SourceConfig(false), p);
            && r.outcome == Unexpected(FailedToInitializeVulkanError(ErrorIncompatibleDriver))
            && ToString(r.outcome.error).codeName == "VK_ERROR_INCOMPATIBLE_DRIVER"
            && Replay([], r.trace) == Some([GlfwRuntime, WindowResource(Window(1))])
  {
    var p := Platform0(true, [], ErrorIncompatibleDriver);
    assert IsCreateInstanceError(p.createInstanceStatus);
    assert Name(ErrorIncompatibleDriver) == "VK_ERROR_INCOMPATIBLE_DRIVER";
    WindowHeldAfterInstanceFailure(SourceConfig(false), p);
  }

  /** Release build with the Khronos layer installed after another layer:
      as written, `initialize` rejects the installed layer; corrected, it
      creates the instance. */
  lemma AsWrittenRejectsInstalledLayer()
    ensures var p := Platform0(true, ["VK_LAYER_MESA_device_select", KhronosValidationLayer], Success);
            && KhronosValidationLayer in p.availableLayers
            && Initialize(SourceConfig(true), p).outcome
               == Unexpected(ValidationLayerNotFoundError(KhronosValidationLayer))
            && Initialize(CorrectedConfig(true), p).outcome == Ok((Window(1), Instance(7)))
  {
    var p := Platform0(true, ["VK_LAYER_MESA_device_select", KhronosValidationLayer], Success);
    assert p.availableLayers[0] != KhronosValidationLayer;
    assert p.availableLayers[1] == KhronosValidationLayer;
    assert MissingLayer(SourceConfig(true), p.availableLayers) == Some(KhronosValidationLayer);
    assert MissingLayer(CorrectedConfig(true), p.availableLayers) == None;
  }

  /** Release build with no layer installed: as written, the check passes
      and the request names an absent layer; corrected, `initialize` reports
      the layer missing. */
  lemma AsWrittenAcceptsEmptyEnumeration()
    ensures var p := Platform0(true, [], ErrorLayerNotPresent);
            && Initialize(SourceConfig(true), p).outcome
               == Unexpected(FailedToInitializeVulkanError(ErrorLayerNotPresent))
            && Initialize(CorrectedConfig(true), p).outcome
               == Unexpected(ValidationLayerNotFoundError(KhronosValidationLayer))
  {
    var p := Platform0(true, [], ErrorLayerNotPresent);
    CheckPassesWhenNothingAvailable([KhronosValidationLayer]);
    assert MissingLayer(CorrectedConfig(true), p.availableLayers) == Some(KhronosValidationLayer);
  }
}
