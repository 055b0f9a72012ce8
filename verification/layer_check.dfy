/** `check_validation_layer_support` of include/vulkan_helper.hpp: given the
    requested validation-layer names and the names the graphics API
    enumerates, report a missing layer or nothing. The code as written and
    the check its doc comment describes are both modelled. */
module LayerCheck {
  import opened Outcomes

  /** Some entry of `available` differs from `name`: the condition on which
      the inner loop of the code returns. */
  predicate SomeEntryDiffers(name: string, available: seq<string>) {
    exists k | 0 <= k < |available| :: available[k] != name
  }

  /** The check as written: the first requested name for which the available
      list holds SOME entry different from it, or nothing. */
  function CheckValidationLayerSupport(requested: seq<string>, available: seq<string>): (r: Option<string>)
    ensures r.Some? ==> r.value in requested
    ensures r.Some? ==> SomeEntryDiffers(r.value, available)
    decreases |requested|
  {
    if |requested| == 0 then None
    else if SomeEntryDiffers(requested[0], available) then Some(requested[0])
    else CheckValidationLayerSupport(requested[1..], available)
  }

  /** The nested loops of the code, returning from inside the inner loop. */
  method CheckValidationLayerSupportLoop(requested: seq<string>, available: seq<string>)
    returns (missing: Option<string>)
    ensures missing == CheckValidationLayerSupport(requested, available)
  {
    var i := 0;
    while i < |requested|
      invariant 0 <= i <= |requested|
      invariant CheckValidationLayerSupport(requested[i..], available)
                == CheckValidationLayerSupport(requested, available)
    {
      var layerName := requested[i];
      var j := 0;
      while j < |available|
        invariant 0 <= j <= |available|
        invariant forall k | 0 <= k < j :: available[k] == layerName
      {
        if layerName != available[j] {
          return Some(layerName);
        }
        j := j + 1;
      }
      assert requested[i..][1..] == requested[i + 1..];
      i := i + 1;
    }
    return None;
  }

  /** What the doc comment promises of a result `r`: a reported name is a
      requested layer that is not available, and nothing is reported only
      when every requested layer is available. */
  predicate ReportsMissingLayer(requested: seq<string>, available: seq<string>, r: Option<string>) {
    && (r.Some? ==> r.value in requested && r.value !in available)
    && (r.None? ==> forall n | n in requested :: n in available)
  }

  /** As written, nothing is reported exactly when every available entry
      equals every requested name. */
  lemma {:induction false} CheckPassesIffAllEntriesEqual(requested: seq<string>, available: seq<string>)
    ensures CheckValidationLayerSupport(requested, available).None? <==>
              forall i, k | 0 <= i < |requested| && 0 <= k < |available| :: available[k] == requested[i]
    decreases |requested|
  {
    if |requested| > 0 {
      CheckPassesIffAllEntriesEqual(requested[1..], available);
      if CheckValidationLayerSupport(requested, available).None? {
        forall i, k | 0 <= i < |requested| && 0 <= k < |available|
          ensures available[k] == requested[i]
        {
          if i > 0 {
            assert requested[i] == requested[1..][i - 1];
          }
        }
      } else if !SomeEntryDiffers(requested[0], available) {
        var i, k :| 0 <= i < |requested[1..]| && 0 <= k < |available| && available[k] != requested[1..][i];
        assert available[k] != requested[i + 1];
      }
    }
  }

  /** As written, an empty enumeration passes the check, although then every
      requested layer is missing. */
  lemma CheckPassesWhenNothingAvailable(requested: seq<string>)
    requires |requested| > 0
    ensures CheckValidationLayerSupport(requested, []) == None
    ensures !ReportsMissingLayer(requested, [], CheckValidationLayerSupport(requested, []))
  {
    CheckPassesIffAllEntriesEqual(requested, []);
    assert requested[0] in requested;
  }

  /** The counterexample to the doc comment: the requested layer IS
      available, yet the check reports it missing, because the first
      available entry differs from it. */
  lemma CheckReportsAvailableLayer()
    ensures CheckValidationLayerSupport(["V"], ["A", "V"]) == Some("V")
    ensures "V" in ["A", "V"]
    ensures !ReportsMissingLayer(["V"], ["A", "V"], CheckValidationLayerSupport(["V"], ["A", "V"]))
  {
    assert ["A", "V"][0] != "V";
  }

  /** When something is available, a pass of the check is sound: every
      requested layer is then available. Only the failures are spurious. */
  lemma CheckPassIsSoundWhenLayersAvailable(requested: seq<string>, available: seq<string>)
    requires |available| > 0
    requires CheckValidationLayerSupport(requested, available).None?
    ensures forall n | n in requested :: n in available
  {
    CheckPassesIffAllEntriesEqual(requested, available);
    forall n | n in requested
      ensures n in available
    {
      var i :| 0 <= i < |requested| && requested[i] == n;
      assert available[0] == n;
    }
  }

  /** The check the doc comment describes: the first requested name that is
      absent from the whole enumerated list. */
  function FindMissingLayer(requested: seq<string>, available: seq<string>): (r: Option<string>)
    ensures r.Some? ==> r.value in requested && r.value !in available
    ensures r.None? <==> forall n | n in requested :: n in available
    decreases |requested|
  {
    if |requested| == 0 then None
    else if requested[0] !in available then Some(requested[0])
    else
      var rest := FindMissingLayer(requested[1..], available);
      assert forall n | n in requested :: n == requested[0] || n in requested[1..];
      rest
  }

  /** The corrected check keeps the doc comment's promise on every input. */
  lemma FindMissingLayerReportsMissingLayer(requested: seq<string>, available: seq<string>)
    ensures ReportsMissingLayer(requested, available, FindMissingLayer(requested, available))
  {
  }

  /** The corrected check reports the FIRST missing requested layer. */
  lemma {:induction false} FindMissingLayerIsFirst(requested: seq<string>, available: seq<string>)
    requires FindMissingLayer(requested, available).Some?
    ensures exists i | 0 <= i < |requested| ::
              && requested[i] == FindMissingLayer(requested, available).value
              && forall k | 0 <= k < i :: requested[k] in available
    decreases |requested|
  {
    if requested[0] in available {
      FindMissingLayerIsFirst(requested[1..], available);
      var i :| 0 <= i < |requested[1..]| && requested[1..][i] == FindMissingLayer(requested, available).value
               && forall k | 0 <= k < i :: requested[1..][k] in available;
      assert requested[i + 1] == FindMissingLayer(requested, available).value;
      forall k | 0 <= k < i + 1
        ensures requested[k] in available
      {
        if k > 0 {
          assert requested[k] == requested[1..][k - 1];
        }
      }
    } else {
      assert requested[0] == FindMissingLayer(requested, available).value;
    }
  }

  /** With exactly one layer available, the code as written agrees with the
      corrected check, which is why the defect is easy to miss. */
  lemma {:induction false} CheckAgreesWithSingleAvailableLayer(requested: seq<string>, layer: string)
    ensures CheckValidationLayerSupport(requested, [layer]) == FindMissingLayer(requested, [layer])
    decreases |requested|
  {
    if |requested| > 0 {
      CheckAgreesWithSingleAvailableLayer(requested[1..], layer);
      assert [layer][0] == layer;
      assert SomeEntryDiffers(requested[0], [layer]) <==> requested[0] != layer;
    }
  }
}
