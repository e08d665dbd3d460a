/**
 * Device and queue selection of the Vulkan renderer: the required-layer
 * check of `createInstance`, the device-extension check and first-suitable
 * search of `pickPhysicalDevice`, the queue-family search of `pickQueues`
 * and the de-duplication of queue families in `createDevice`.
 */
module DeviceSelection {
  import opened Common
  import opened Vk
  import opened Swapchain

  /** `device_extensions`: the extensions a device must offer. */
  const DeviceExtensions: seq<string> := [SWAPCHAIN_EXTENSION_NAME]
  /** `wanted_layers`: the instance layers the renderer enables. */
  const WantedLayers: seq<string> := [STANDARD_VALIDATION_LAYER]

  // ---------------------------------------------------------------------
  // Required-layer check (createInstance)
  // ---------------------------------------------------------------------

  /** One `LayerNotFound` per wanted layer the instance does not offer, in the order of `wanted`. */
  function MissingLayerErrors(wanted: seq<string>, available: seq<string>): seq<RendererError>
  {
    if wanted == [] then []
    else MissingLayerErrors(wanted[..|wanted| - 1], available)
         + (if wanted[|wanted| - 1] in available then [] else [LayerNotFound(wanted[|wanted| - 1])])
  }

  lemma {:induction false} MissingLayerErrorsMembership(wanted: seq<string>, available: seq<string>, e: RendererError)
    ensures e in MissingLayerErrors(wanted, available) <==> e.LayerNotFound? && e.layer in wanted && e.layer !in available
  {
    if wanted != [] {
      var init := wanted[..|wanted| - 1];
      MissingLayerErrorsMembership(init, available, e);
      assert wanted == init + [wanted[|wanted| - 1]];
    }
  }

  lemma {:induction false} MissingLayerErrorsEmpty(wanted: seq<string>, available: seq<string>)
    ensures MissingLayerErrors(wanted, available) == [] <==> forall w :: w in wanted ==> w in available
  {
    if wanted != [] {
      var init := wanted[..|wanted| - 1];
      MissingLayerErrorsEmpty(init, available);
      assert wanted == init + [wanted[|wanted| - 1]];
    }
  }

  /** The layer loop of `createInstance`: for each wanted layer, a linear
      search of the reported layer names that stops at the first match. */
  method CheckLayers(wanted: seq<string>, available: seq<string>) returns (errors: seq<RendererError>)
    ensures errors == MissingLayerErrors(wanted, available)
  {
    errors := [];
    var l := 0;
    while l < |wanted|
      invariant 0 <= l <= |wanted|
      invariant errors == MissingLayerErrors(wanted[..l], available)
    {
      var layerFound := false;
      var i := 0;
      while i < |available|
        invariant 0 <= i <= |available|
        invariant !layerFound ==> wanted[l] !in available[..i]
        invariant layerFound ==> wanted[l] in available
      {
        if wanted[l] == available[i] {
          layerFound := true;
          break;
        }
        assert available[..i + 1] == available[..i] + [available[i]];
        i := i + 1;
      }
      if !layerFound {
        assert available[..i] == available;
        errors := errors + [LayerNotFound(wanted[l])];
      }
      assert wanted[..l + 1][..l] == wanted[..l];
      l := l + 1;
    }
    assert wanted[..l] == wanted;
  }

  /** The errors of the two `SDL_Vulkan_GetInstanceExtensions` calls, the
      count query and then the name query: each one that fails reports
      `InstanceExtensionsUnavailable`, and `createInstance` carries on. */
  function ExtensionQueryErrors(countOk: bool, namesOk: bool): (errors: seq<RendererError>)
    ensures |errors| == (if countOk then 0 else 1) + (if namesOk then 0 else 1)
    ensures forall k :: 0 <= k < |errors| ==> errors[k] == InstanceExtensionsUnavailable
  {
    (if countOk then [] else [InstanceExtensionsUnavailable])
    + (if namesOk then [] else [InstanceExtensionsUnavailable])
  }

  /** The bytes `createInstance` allocates for the extension array as
      written: `sizeof(const char *) * extension_count+1`, which C parses
      as one extra byte rather than one extra pointer. */
  function ExtensionArrayBytesAsWritten(pointerSize: nat, windowExtensionCount: nat): nat
  {
    pointerSize * windowExtensionCount + 1
  }

  /** The bytes the array evidently should have: room for the debug-utils
      pointer and one pointer per extension the windowing layer reports. */
  function ExtensionArrayBytes(pointerSize: nat, windowExtensionCount: nat): nat
  {
    pointerSize * (windowExtensionCount + 1)
  }

  /** The bytes `createInstance` writes into the array: one pointer per
      entry of the instance extension list. */
  function ExtensionArrayBytesWritten(pointerSize: nat, windowExtensions: seq<string>): nat
  {
    pointerSize * |InstanceExtensions(windowExtensions)|
  }

  /** As written, the array is `pointerSize - 1` bytes too small for every
      count, so writing the list overruns the allocation. */
  lemma ExtensionArrayOverrunAsWritten(pointerSize: nat, windowExtensions: seq<string>)
    requires pointerSize > 1
    ensures ExtensionArrayBytesWritten(pointerSize, windowExtensions)
            == ExtensionArrayBytesAsWritten(pointerSize, |windowExtensions|) + (pointerSize - 1)
    ensures ExtensionArrayBytesWritten(pointerSize, windowExtensions)
            > ExtensionArrayBytesAsWritten(pointerSize, |windowExtensions|)
  {
    calc {
      ExtensionArrayBytesWritten(pointerSize, windowExtensions);
      pointerSize * (|windowExtensions| + 1);
      pointerSize * |windowExtensions| + pointerSize;
    }
  }

  /** A 64-bit Win32 build, where SDL asks for the two surface extensions:
      the list needs 24 bytes and 17 are allocated. */
  lemma ExtensionArrayOverrunExample()
    ensures ExtensionArrayBytesAsWritten(8, 2) == 17
    ensures ExtensionArrayBytesWritten(8, ["VK_KHR_surface", "VK_KHR_win32_surface"]) == 24
  {
  }

  /** With the intended size the array holds the instance extension list exactly. */
  lemma ExtensionArrayFits(pointerSize: nat, windowExtensions: seq<string>)
    ensures ExtensionArrayBytes(pointerSize, |windowExtensions|) == ExtensionArrayBytesWritten(pointerSize, windowExtensions)
  {
  }

  /** The extensions the instance is created with: the debug-utils extension
      followed by the ones the windowing layer requires. */
  function InstanceExtensions(windowExtensions: seq<string>): (extensions: seq<string>)
    ensures |extensions| == |windowExtensions| + 1
    ensures extensions[0] == DEBUG_UTILS_EXTENSION_NAME
    ensures extensions[1..] == windowExtensions
  {
    [DEBUG_UTILS_EXTENSION_NAME] + windowExtensions
  }

  // ---------------------------------------------------------------------
  // Device-extension check (pickPhysicalDevice)
  // ---------------------------------------------------------------------

  /** The marking loop: `marks[de]` is set when `wanted[de]` is among the device's extensions. */
  method MarkExtensions(wanted: seq<string>, available: seq<string>, marks: array<bool>)
    requires marks.Length == |wanted|
    modifies marks
    ensures forall de :: 0 <= de < |wanted| ==> marks[de] == (old(marks[de]) || wanted[de] in available)
  {
    var e := 0;
    while e < |available|
      invariant 0 <= e <= |available|
      invariant forall de :: 0 <= de < |wanted| ==> marks[de] == (old(marks[de]) || wanted[de] in available[..e])
    {
      var de := 0;
      while de < |wanted|
        invariant 0 <= de <= |wanted|
        invariant forall k :: 0 <= k < de ==> marks[k] == (old(marks[k]) || wanted[k] in available[..e + 1])
        invariant forall k :: de <= k < |wanted| ==> marks[k] == (old(marks[k]) || wanted[k] in available[..e])
      {
        assert available[..e + 1] == available[..e] + [available[e]];
        if wanted[de] == available[e] {
          marks[de] := true;
        }
        de := de + 1;
      }
      e := e + 1;
    }
    assert available[..e] == available;
  }

  /** The `found_all_exts` loop: true when every mark is set; stops at the first unset one. */
  method AllMarked(marks: array<bool>) returns (foundAll: bool)
    ensures foundAll <==> forall de :: 0 <= de < marks.Length ==> marks[de]
  {
    foundAll := true;
    var de := 0;
    while de < marks.Length
      invariant 0 <= de <= marks.Length
      invariant forall k :: 0 <= k < de ==> marks[k]
    {
      if !marks[de] {
        foundAll := false;
        break;
      }
      de := de + 1;
    }
  }

  /** What the extension check concludes when the marks start out as `initial`. */
  function FoundAllFrom(wanted: seq<string>, available: seq<string>, initial: seq<bool>): bool
    requires |initial| == |wanted|
  {
    forall de :: 0 <= de < |wanted| ==> initial[de] || wanted[de] in available
  }

  /** The extension check as written: `extension_available` comes from an
      allocation that is never cleared, so its starting contents are arbitrary
      (`initial`). */
  method CheckDeviceExtensionsAsWritten(wanted: seq<string>, available: seq<string>, initial: seq<bool>)
    returns (foundAll: bool)
    requires |initial| == |wanted|
    ensures foundAll == FoundAllFrom(wanted, available, initial)
  {
    var marks := new bool[|wanted|](i requires 0 <= i < |wanted| => initial[i]);
    assert forall de :: 0 <= de < |wanted| ==> marks[de] == initial[de];
    MarkExtensions(wanted, available, marks);
    assert forall de :: 0 <= de < |wanted| ==> marks[de] == (initial[de] || wanted[de] in available);
    foundAll := AllMarked(marks);
    if foundAll {
      forall de | 0 <= de < |wanted| ensures initial[de] || wanted[de] in available {
        assert marks[de];
      }
    } else {
      var de :| 0 <= de < |wanted| && !marks[de];
      assert !(initial[de] || wanted[de] in available);
    }
  }

  /** A leftover `true` in the allocation makes a device that lacks the
      swapchain extension pass the check. */
  lemma StaleMarkAcceptsMissingExtension()
    ensures FoundAllFrom(DeviceExtensions, [], [true])
    ensures SWAPCHAIN_EXTENSION_NAME !in []
  {
  }

  /** The extension check with `extension_available` cleared to false before marking. */
  method CheckDeviceExtensions(wanted: seq<string>, available: seq<string>) returns (foundAll: bool)
    ensures foundAll <==> forall w :: w in wanted ==> w in available
  {
    var marks := new bool[|wanted|](i => false);
    assert forall de :: 0 <= de < |wanted| ==> !marks[de];
    MarkExtensions(wanted, available, marks);
    assert forall de :: 0 <= de < |wanted| ==> marks[de] == (wanted[de] in available);
    foundAll := AllMarked(marks);
    if foundAll {
      forall w | w in wanted ensures w in available {
        var de :| 0 <= de < |wanted| && wanted[de] == w;
        assert marks[de];
      }
    }
  }

  /** Cleared marks make the check exact: it accepts precisely the devices offering every wanted extension. */
  lemma FoundAllFromClearedMarks(wanted: seq<string>, available: seq<string>)
    ensures FoundAllFrom(wanted, available, seq(|wanted|, _ => false)) <==> forall w :: w in wanted ==> w in available
  {
    if FoundAllFrom(wanted, available, seq(|wanted|, _ => false)) {
      forall w | w in wanted ensures w in available {
        var de :| 0 <= de < |wanted| && wanted[de] == w;
      }
    }
  }

  // ---------------------------------------------------------------------
  // First suitable device (pickPhysicalDevice)
  // ---------------------------------------------------------------------

  /** What the renderer learns about one enumerated physical device
      (`QueueFamily` is declared with `pickQueues` below). */
  datatype PhysicalDevice = PhysicalDevice(
    extensions: seq<string>,
    samplerAnisotropy: bool,
    support: SwapChainSupportDetails,
    queueFamilies: seq<QueueFamily>)

  /** The suitability test: every required extension, anisotropic sampling,
      at least one surface format and one present mode. Queue families are not examined. */
  predicate Suitable(device: PhysicalDevice)
  {
    (forall w :: w in DeviceExtensions ==> w in device.extensions)
    && device.samplerAnisotropy
    && |device.support.formats| > 0
    && |device.support.presentModes| > 0
  }

  /** The outcome of `pickPhysicalDevice`. */
  datatype DeviceChoice = DeviceChoice(
    chosen: Option<nat>,                  // index into the enumeration, or no device (VK_NULL_HANDLE)
    details: SwapChainSupportDetails,     // `swap_chain_details` afterwards
    errors: seq<RendererError>)

  /** `pickPhysicalDevice`: the first suitable device in enumeration order.
      `previousDetails` is what `swap_chain_details` held before the call. */
  method PickPhysicalDevice(devices: seq<PhysicalDevice>, previousDetails: SwapChainSupportDetails)
    returns (choice: DeviceChoice)
    ensures choice.chosen.None? <==> forall j :: 0 <= j < |devices| ==> !Suitable(devices[j])
    ensures choice.chosen.Some? ==>
              && choice.chosen.value < |devices|
              && Suitable(devices[choice.chosen.value])
              && (forall j :: 0 <= j < choice.chosen.value ==> !Suitable(devices[j]))
              && choice.details == devices[choice.chosen.value].support
    ensures choice.chosen.None? ==> choice.details == previousDetails
    ensures choice.errors == (if |devices| == 0 then [NoVulkanDevice] else [])
                             + (if choice.chosen.None? then [NoSuitableDevice] else [])
  {
    var errors := [];
    if |devices| == 0 {
      errors := errors + [NoVulkanDevice];
    }
    var chosen: Option<nat> := None;
    var details := previousDetails;
    var i := 0;
    while i < |devices|
      invariant 0 <= i <= |devices|
      invariant chosen == None
      invariant details == previousDetails
      invariant forall j :: 0 <= j < i ==> !Suitable(devices[j])
    {
      var device := devices[i];
      var foundAllExts := CheckDeviceExtensions(DeviceExtensions, device.extensions);
      var suitable := foundAllExts && device.samplerAnisotropy;
      if suitable {
        var queried := device.support;
        suitable := |queried.formats| > 0 && |queried.presentModes| > 0;
        if suitable {
          details := queried;
        }
      }
      if suitable {
        chosen := Some(i);
        break;
      }
      i := i + 1;
    }
    if chosen.None? {
      errors := errors + [NoSuitableDevice];
    }
    choice := DeviceChoice(chosen, details, errors);
  }

  // ---------------------------------------------------------------------
  // Queue-family selection (pickQueues)
  // ---------------------------------------------------------------------

  /** One `VkQueueFamilyProperties` entry with the family's surface-support answer. */
  datatype QueueFamily = QueueFamily(queueCount: u32, queueFlags: Flags, presentSupport: bool)

  predicate GraphicsCapable(family: QueueFamily)
  {
    family.queueCount > 0 && family.queueFlags & QUEUE_GRAPHICS_BIT != 0
  }

  predicate PresentCapable(family: QueueFamily)
  {
    family.queueCount > 0 && family.presentSupport
  }

  /** `pickQueues`: the least graphics-capable and the least present-capable
      family index, each -1 when there is none; no error is raised. */
  method PickQueues(families: seq<QueueFamily>) returns (graphicsQueueIndex: int, presentQueueIndex: int)
    ensures IsFirst(families, GraphicsCapable, graphicsQueueIndex)
    ensures IsFirst(families, PresentCapable, presentQueueIndex)
  {
    graphicsQueueIndex := -1;
    presentQueueIndex := -1;
    var i := 0;
    while i < |families|
      invariant 0 <= i <= |families|
      invariant IsFirst(families[..i], GraphicsCapable, graphicsQueueIndex)
      invariant IsFirst(families[..i], PresentCapable, presentQueueIndex)
    {
      var family := families[i];
      IsFirstStep(families, GraphicsCapable, graphicsQueueIndex, i);
      IsFirstStep(families, PresentCapable, presentQueueIndex, i);
      if graphicsQueueIndex == -1 && GraphicsCapable(family) {
        graphicsQueueIndex := i;
      }
      if presentQueueIndex == -1 && PresentCapable(family) {
        presentQueueIndex := i;
      }
      i := i + 1;
    }
    assert families[..i] == families;
  }

  // ---------------------------------------------------------------------
  // Queue-family de-duplication (createDevice)
  // ---------------------------------------------------------------------

  /** The distinct elements of `s` in order of first occurrence. */
  function Dedup(s: seq<u32>): seq<u32>
  {
    if s == [] then []
    else if s[|s| - 1] in s[..|s| - 1] then Dedup(s[..|s| - 1])
    else Dedup(s[..|s| - 1]) + [s[|s| - 1]]
  }

  /** `Dedup` keeps exactly the elements of its input, each once. */
  lemma {:induction false} DedupElements(s: seq<u32>)
    ensures forall x :: x in Dedup(s) <==> x in s
    ensures forall i, j :: 0 <= i < j < |Dedup(s)| ==> Dedup(s)[i] != Dedup(s)[j]
  {
    if s != [] {
      var init := s[..|s| - 1];
      DedupElements(init);
      assert s == init + [s[|s| - 1]];
    }
  }

  /** For the two queue indices: one create-info when they agree, two otherwise. */
  lemma DedupPair(a: u32, b: u32)
    ensures Dedup([a, b]) == if a == b then [a] else [a, b]
  {
    assert [a, b][..1] == [a];
    assert [a][..0] == [];
    assert Dedup([a]) == [a];
  }

  /** The de-duplication loop of `createDevice`: an index is kept unless an
      earlier position already holds it. */
  method UniqueQueueFamilies(queueIndices: seq<u32>) returns (unique: seq<u32>)
    ensures unique == Dedup(queueIndices)
  {
    unique := [];
    var i := 0;
    while i < |queueIndices|
      invariant 0 <= i <= |queueIndices|
      invariant unique == Dedup(queueIndices[..i])
    {
      var beenProcessed := false;
      var u := 0;
      while u < i
        invariant 0 <= u <= i
        invariant !beenProcessed ==> queueIndices[i] !in queueIndices[..u]
        invariant beenProcessed ==> queueIndices[i] in queueIndices[..i]
      {
        if queueIndices[i] == queueIndices[u] {
          beenProcessed := true;
          break;
        }
        assert queueIndices[..u + 1] == queueIndices[..u] + [queueIndices[u]];
        u := u + 1;
      }
      assert queueIndices[..i + 1][..i] == queueIndices[..i];
      if !beenProcessed {
        unique := unique + [queueIndices[i]];
      }
      i := i + 1;
    }
    assert queueIndices[..i] == queueIndices;
  }

  /** The queue create-infos of `createDevice`: the two `s32` queue indices
      are cast to `u32` and de-duplicated. */
  method DeviceQueueFamilies(graphicsQueueIndex: int, presentQueueIndex: int) returns (families: seq<u32>)
    ensures families == if ToU32(graphicsQueueIndex) == ToU32(presentQueueIndex)
                        then [ToU32(graphicsQueueIndex)]
                        else [ToU32(graphicsQueueIndex), ToU32(presentQueueIndex)]
  {
    families := UniqueQueueFamilies([ToU32(graphicsQueueIndex), ToU32(presentQueueIndex)]);
    DedupPair(ToU32(graphicsQueueIndex), ToU32(presentQueueIndex));
  }
}
