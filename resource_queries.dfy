/**
 * The renderer's resource queries: the memory-type search of
 * `findMemoryType`, the format probing of `findSupportedFormat` and
 * `findDepthFormat`, `hasStencilComponent`, and the barrier decision table
 * of `transitionImageLayout`.
 */
module ResourceQueries {
  import opened Common
  import opened Vk

  // ---------------------------------------------------------------------
  // Memory types (findMemoryType)
  // ---------------------------------------------------------------------

  /** One entry of `VkPhysicalDeviceMemoryProperties::memoryTypes`. */
  datatype MemoryType = MemoryType(propertyFlags: Flags, heapIndex: u32)

  /** `VK_MAX_MEMORY_TYPES`: the capacity of the `memoryTypes` array. */
  const MAX_MEMORY_TYPES: nat := 32

  /** Memory type `i` is allowed by the filter's bit `i` and has every requested property. */
  predicate Acceptable(typeFilter: Flags, properties: Flags, types: seq<MemoryType>, i: nat)
    requires i < |types| <= MAX_MEMORY_TYPES
  {
    typeFilter & ((1 as bv32) << i) != 0 && HasAll(types[i].propertyFlags, properties)
  }

  /** The errors a `findMemoryType` call reports. */
  function MemoryTypeErrors(typeFilter: Flags, properties: Flags, types: seq<MemoryType>): seq<RendererError>
    requires |types| <= MAX_MEMORY_TYPES
  {
    if forall j :: 0 <= j < |types| ==> !Acceptable(typeFilter, properties, types, j) then [NoMemoryType] else []
  }

  /** `findMemoryType`: the least acceptable index, or `UINT32_MAX` together with an error. */
  method FindMemoryType(typeFilter: Flags, properties: Flags, types: seq<MemoryType>)
    returns (index: u32, errors: seq<RendererError>)
    requires |types| <= MAX_MEMORY_TYPES
    ensures errors == [] ==>
              && index < |types|
              && Acceptable(typeFilter, properties, types, index)
              && forall j :: 0 <= j < index ==> !Acceptable(typeFilter, properties, types, j)
    ensures errors != [] <==> forall j :: 0 <= j < |types| ==> !Acceptable(typeFilter, properties, types, j)
    ensures errors != [] ==> index == UINT32_MAX
    ensures errors == MemoryTypeErrors(typeFilter, properties, types)
  {
    var i := 0;
    while i < |types|
      invariant 0 <= i <= |types|
      invariant forall j :: 0 <= j < i ==> !Acceptable(typeFilter, properties, types, j)
    {
      if Acceptable(typeFilter, properties, types, i) {
        return i, [];
      }
      i := i + 1;
    }
    return UINT32_MAX, [NoMemoryType];
  }

  /** A memory type whose flags include the requested ones is accepted by an
      all-ones filter; in particular the search succeeds whenever such a type exists. */
  lemma FullFilterAcceptsMatchingType(properties: Flags, types: seq<MemoryType>, i: nat)
    requires i < |types| <= MAX_MEMORY_TYPES
    requires HasAll(types[i].propertyFlags, properties)
    ensures Acceptable(0xFFFF_FFFF, properties, types, i)
  {
    var bit := (1 as bv32) << i;
    assert bit != 0 by {
      OneShiftNonZero(i);
    }
  }

  lemma OneShiftNonZero(i: nat)
    requires i < 32
    ensures (1 as bv32) << i != 0
  {
    if i == 0 {
    } else if i < 8 {
    } else if i < 16 {
    } else if i < 24 {
    } else {
    }
  }

  // ---------------------------------------------------------------------
  // Format probing (findSupportedFormat, findDepthFormat, hasStencilComponent)
  // ---------------------------------------------------------------------

  /** `VkFormatProperties`. */
  datatype FormatProperties = FormatProperties(linearTilingFeatures: Flags, optimalTilingFeatures: Flags, bufferFeatures: Flags)

  /** The feature set that `tiling` selects contains `features`; any tiling other
      than linear or optimal supports nothing. */
  predicate Supports(props: FormatProperties, tiling: ImageTiling, features: Flags)
  {
    (tiling == IMAGE_TILING_LINEAR && HasAll(props.linearTilingFeatures, features))
    || (tiling == IMAGE_TILING_OPTIMAL && HasAll(props.optimalTilingFeatures, features))
  }

  /** The first candidate, in order, whose properties (as the device reports them
      through `query`) support `features` under `tiling`. */
  function FirstSupported(candidates: seq<Format>, tiling: ImageTiling, features: Flags,
                          query: Format -> FormatProperties): Option<Format>
  {
    if candidates == [] then None
    else if Supports(query(candidates[0]), tiling, features) then Some(candidates[0])
    else FirstSupported(candidates[1..], tiling, features, query)
  }

  /** `FirstSupported` finds a supported candidate preceded only by unsupported
      ones, and finds nothing exactly when no candidate is supported. */
  lemma {:induction false} FirstSupportedIsFirst(candidates: seq<Format>, tiling: ImageTiling, features: Flags,
                                                 query: Format -> FormatProperties)
    ensures FirstSupported(candidates, tiling, features, query).None? <==>
              forall j :: 0 <= j < |candidates| ==> !Supports(query(candidates[j]), tiling, features)
    ensures FirstSupported(candidates, tiling, features, query).Some? ==>
              exists i :: 0 <= i < |candidates|
                && candidates[i] == FirstSupported(candidates, tiling, features, query).value
                && Supports(query(candidates[i]), tiling, features)
                && forall j :: 0 <= j < i ==> !Supports(query(candidates[j]), tiling, features)
  {
    if candidates != [] && !Supports(query(candidates[0]), tiling, features) {
      var rest := candidates[1..];
      FirstSupportedIsFirst(rest, tiling, features, query);
      if FirstSupported(rest, tiling, features, query).Some? {
        var i :| 0 <= i < |rest|
                 && rest[i] == FirstSupported(rest, tiling, features, query).value
                 && Supports(query(rest[i]), tiling, features)
                 && forall j :: 0 <= j < i ==> !Supports(query(rest[j]), tiling, features);
        assert candidates[i + 1] == rest[i];
        assert forall j :: 0 <= j < i + 1 ==> !Supports(query(candidates[j]), tiling, features) by {
          forall j | 0 <= j < i + 1 ensures !Supports(query(candidates[j]), tiling, features) {
            if j > 0 {
              assert candidates[j] == rest[j - 1];
            }
          }
        }
      } else {
        forall j | 0 <= j < |candidates| ensures !Supports(query(candidates[j]), tiling, features) {
          if j > 0 {
            assert candidates[j] == rest[j - 1];
          }
        }
      }
    }
  }

  /** `findSupportedFormat`: the first supported candidate, or format 0 (`VK_FORMAT_UNDEFINED`)
      together with an error. */
  method FindSupportedFormat(candidates: seq<Format>, tiling: ImageTiling, features: Flags,
                             query: Format -> FormatProperties)
    returns (format: Format, errors: seq<RendererError>)
    ensures FirstSupported(candidates, tiling, features, query).Some? ==>
              format == FirstSupported(candidates, tiling, features, query).value && errors == []
    ensures FirstSupported(candidates, tiling, features, query).None? ==>
              format == FORMAT_UNDEFINED && errors == [NoSupportedFormat]
  {
    var i := 0;
    while i < |candidates|
      invariant 0 <= i <= |candidates|
      invariant FirstSupported(candidates, tiling, features, query) == FirstSupported(candidates[i..], tiling, features, query)
    {
      var props := query(candidates[i]);
      if tiling == IMAGE_TILING_LINEAR && HasAll(props.linearTilingFeatures, features) {
        return candidates[i], [];
      } else if tiling == IMAGE_TILING_OPTIMAL && HasAll(props.optimalTilingFeatures, features) {
        return candidates[i], [];
      }
      assert !Supports(props, tiling, features);
      assert candidates[i..][1..] == candidates[i + 1..];
      i := i + 1;
    }
    return FORMAT_UNDEFINED, [NoSupportedFormat];
  }

  /** The depth formats `findDepthFormat` tries, in order of preference. */
  const DepthCandidates: seq<Format> := [FORMAT_D32_SFLOAT, FORMAT_D32_SFLOAT_S8_UINT, FORMAT_D24_UNORM_S8_UINT]

  /** The format `findDepthFormat` settles on: the first supported depth
      candidate, or `UNDEFINED` when there is none. */
  function ChosenDepthFormat(query: Format -> FormatProperties): (format: Format)
    ensures format == FORMAT_UNDEFINED || format in DepthCandidates
  {
    FirstSupportedIsFirst(DepthCandidates, IMAGE_TILING_OPTIMAL, FORMAT_FEATURE_DEPTH_STENCIL_ATTACHMENT_BIT, query);
    match FirstSupported(DepthCandidates, IMAGE_TILING_OPTIMAL, FORMAT_FEATURE_DEPTH_STENCIL_ATTACHMENT_BIT, query)
    case Some(f) => f
    case None => FORMAT_UNDEFINED
  }

  /** `findDepthFormat`: probe the depth candidates for optimal-tiling depth/stencil attachment support. */
  method FindDepthFormat(query: Format -> FormatProperties) returns (format: Format, errors: seq<RendererError>)
    ensures FirstSupported(DepthCandidates, IMAGE_TILING_OPTIMAL, FORMAT_FEATURE_DEPTH_STENCIL_ATTACHMENT_BIT, query).Some? ==>
              && errors == []
              && format == FirstSupported(DepthCandidates, IMAGE_TILING_OPTIMAL, FORMAT_FEATURE_DEPTH_STENCIL_ATTACHMENT_BIT, query).value
              && format in DepthCandidates
              && HasAll(query(format).optimalTilingFeatures, FORMAT_FEATURE_DEPTH_STENCIL_ATTACHMENT_BIT)
    ensures format == ChosenDepthFormat(query)
    ensures FirstSupported(DepthCandidates, IMAGE_TILING_OPTIMAL, FORMAT_FEATURE_DEPTH_STENCIL_ATTACHMENT_BIT, query).None? ==>
              format == FORMAT_UNDEFINED && errors == [NoSupportedFormat]
  {
    format, errors := FindSupportedFormat(DepthCandidates, IMAGE_TILING_OPTIMAL, FORMAT_FEATURE_DEPTH_STENCIL_ATTACHMENT_BIT, query);
    FirstSupportedIsFirst(DepthCandidates, IMAGE_TILING_OPTIMAL, FORMAT_FEATURE_DEPTH_STENCIL_ATTACHMENT_BIT, query);
  }

  /** The preference order of `findDepthFormat`: a device that supports
      `D32_SFLOAT` as an optimal-tiling depth attachment gets it whatever else
      it supports; one that does not, but supports `D32_SFLOAT_S8_UINT`, gets
      that; one that supports only `D24_UNORM_S8_UINT` gets that. */
  lemma DepthFormatPreference(query: Format -> FormatProperties)
    ensures (!HasAll(query(FORMAT_D32_SFLOAT).optimalTilingFeatures, FORMAT_FEATURE_DEPTH_STENCIL_ATTACHMENT_BIT)
             && !HasAll(query(FORMAT_D32_SFLOAT_S8_UINT).optimalTilingFeatures, FORMAT_FEATURE_DEPTH_STENCIL_ATTACHMENT_BIT)
             && HasAll(query(FORMAT_D24_UNORM_S8_UINT).optimalTilingFeatures, FORMAT_FEATURE_DEPTH_STENCIL_ATTACHMENT_BIT))
            ==> FirstSupported(DepthCandidates, IMAGE_TILING_OPTIMAL, FORMAT_FEATURE_DEPTH_STENCIL_ATTACHMENT_BIT, query)
                == Some(FORMAT_D24_UNORM_S8_UINT)
    ensures HasAll(query(FORMAT_D32_SFLOAT).optimalTilingFeatures, FORMAT_FEATURE_DEPTH_STENCIL_ATTACHMENT_BIT)
            ==> FirstSupported(DepthCandidates, IMAGE_TILING_OPTIMAL, FORMAT_FEATURE_DEPTH_STENCIL_ATTACHMENT_BIT, query)
                == Some(FORMAT_D32_SFLOAT)
    ensures (!HasAll(query(FORMAT_D32_SFLOAT).optimalTilingFeatures, FORMAT_FEATURE_DEPTH_STENCIL_ATTACHMENT_BIT)
             && HasAll(query(FORMAT_D32_SFLOAT_S8_UINT).optimalTilingFeatures, FORMAT_FEATURE_DEPTH_STENCIL_ATTACHMENT_BIT))
            ==> FirstSupported(DepthCandidates, IMAGE_TILING_OPTIMAL, FORMAT_FEATURE_DEPTH_STENCIL_ATTACHMENT_BIT, query)
                == Some(FORMAT_D32_SFLOAT_S8_UINT)
  {
    var features := FORMAT_FEATURE_DEPTH_STENCIL_ATTACHMENT_BIT;
    var rest := [FORMAT_D32_SFLOAT_S8_UINT, FORMAT_D24_UNORM_S8_UINT];
    assert DepthCandidates[1..] == rest;
    assert rest[1..] == [FORMAT_D24_UNORM_S8_UINT];
    if !HasAll(query(FORMAT_D32_SFLOAT).optimalTilingFeatures, features)
       && !HasAll(query(FORMAT_D32_SFLOAT_S8_UINT).optimalTilingFeatures, features)
       && HasAll(query(FORMAT_D24_UNORM_S8_UINT).optimalTilingFeatures, features)
    {
      assert FirstSupported([FORMAT_D24_UNORM_S8_UINT], IMAGE_TILING_OPTIMAL, features, query) == Some(FORMAT_D24_UNORM_S8_UINT);
      assert FirstSupported(rest, IMAGE_TILING_OPTIMAL, features, query) == Some(FORMAT_D24_UNORM_S8_UINT);
    }
  }

  /** `hasStencilComponent`. */
  predicate HasStencilComponent(format: Format)
  {
    format == FORMAT_D32_SFLOAT_S8_UINT || format == FORMAT_D24_UNORM_S8_UINT
  }

  /** Of the depth candidates, all but the first carry a stencil component. */
  lemma DepthCandidatesStencil(i: nat)
    requires i < |DepthCandidates|
    ensures HasStencilComponent(DepthCandidates[i]) <==> i > 0
  {
  }

  // ---------------------------------------------------------------------
  // Layout transitions (transitionImageLayout)
  // ---------------------------------------------------------------------

  /** The image memory barrier `transitionImageLayout` records. For an
      unsupported pair the code reports an error and still records the
      barrier, with its stages left uninitialised; only the aspect is known. */
  datatype Barrier =
    | Supported(aspectMask: Flags, srcAccessMask: Flags, dstAccessMask: Flags, srcStage: Flags, dstStage: Flags)
    | Unsupported(aspectMask: Flags)

  function TransitionAspect(format: Format, newLayout: ImageLayout): Flags
  {
    if newLayout == IMAGE_LAYOUT_DEPTH_STENCIL_ATTACHMENT_OPTIMAL then
      if HasStencilComponent(format) then IMAGE_ASPECT_DEPTH_BIT | IMAGE_ASPECT_STENCIL_BIT else IMAGE_ASPECT_DEPTH_BIT
    else IMAGE_ASPECT_COLOR_BIT
  }

  /** The decision table of `transitionImageLayout`. */
  function TransitionBarrier(format: Format, oldLayout: ImageLayout, newLayout: ImageLayout): Barrier
  {
    var aspect := TransitionAspect(format, newLayout);
    if oldLayout == IMAGE_LAYOUT_UNDEFINED && newLayout == IMAGE_LAYOUT_TRANSFER_DST_OPTIMAL then
      Supported(aspect, 0, ACCESS_TRANSFER_WRITE_BIT, PIPELINE_STAGE_TOP_OF_PIPE_BIT, PIPELINE_STAGE_TRANSFER_BIT)
    else if oldLayout == IMAGE_LAYOUT_TRANSFER_DST_OPTIMAL && newLayout == IMAGE_LAYOUT_SHADER_READ_ONLY_OPTIMAL then
      Supported(aspect, ACCESS_TRANSFER_WRITE_BIT, ACCESS_SHADER_READ_BIT, PIPELINE_STAGE_TRANSFER_BIT, PIPELINE_STAGE_FRAGMENT_SHADER_BIT)
    else if oldLayout == IMAGE_LAYOUT_UNDEFINED && newLayout == IMAGE_LAYOUT_DEPTH_STENCIL_ATTACHMENT_OPTIMAL then
      Supported(aspect, 0, ACCESS_DEPTH_STENCIL_ATTACHMENT_READ_BIT | ACCESS_DEPTH_STENCIL_ATTACHMENT_WRITE_BIT,
                PIPELINE_STAGE_TOP_OF_PIPE_BIT, PIPELINE_STAGE_EARLY_FRAGMENT_TESTS_BIT)
    else Unsupported(aspect)
  }

  /** The errors `transitionImageLayout` reports. */
  function TransitionErrors(format: Format, oldLayout: ImageLayout, newLayout: ImageLayout): (errors: seq<RendererError>)
    ensures errors == [] <==> TransitionBarrier(format, oldLayout, newLayout).Supported?
    ensures errors != [] ==> errors == [UnsupportedLayoutTransition]
  {
    if TransitionBarrier(format, oldLayout, newLayout).Supported? then [] else [UnsupportedLayoutTransition]
  }

  /** Exactly the three listed layout pairs are accepted. */
  lemma SupportedTransitions(format: Format, oldLayout: ImageLayout, newLayout: ImageLayout)
    ensures TransitionBarrier(format, oldLayout, newLayout).Supported? <==>
              (oldLayout, newLayout) in {(IMAGE_LAYOUT_UNDEFINED, IMAGE_LAYOUT_TRANSFER_DST_OPTIMAL),
                                         (IMAGE_LAYOUT_TRANSFER_DST_OPTIMAL, IMAGE_LAYOUT_SHADER_READ_ONLY_OPTIMAL),
                                         (IMAGE_LAYOUT_UNDEFINED, IMAGE_LAYOUT_DEPTH_STENCIL_ATTACHMENT_OPTIMAL)}
  {
  }

  /** The aspect covers depth exactly when the target is the depth/stencil attachment
      layout, stencil exactly when in addition the format has a stencil component,
      and colour in every other case. */
  lemma TransitionAspectBits(format: Format, oldLayout: ImageLayout, newLayout: ImageLayout)
    ensures var aspect := TransitionBarrier(format, oldLayout, newLayout).aspectMask;
      && (aspect & IMAGE_ASPECT_DEPTH_BIT != 0 <==> newLayout == IMAGE_LAYOUT_DEPTH_STENCIL_ATTACHMENT_OPTIMAL)
      && (aspect & IMAGE_ASPECT_STENCIL_BIT != 0 <==>
            newLayout == IMAGE_LAYOUT_DEPTH_STENCIL_ATTACHMENT_OPTIMAL && HasStencilComponent(format))
      && (aspect & IMAGE_ASPECT_COLOR_BIT != 0 <==> newLayout != IMAGE_LAYOUT_DEPTH_STENCIL_ATTACHMENT_OPTIMAL)
  {
  }

  /** The texture upload's two transitions chain: the second barrier waits on
      exactly the access and stage the first one makes available. */
  lemma TextureUploadTransitionsChain(format: Format)
    ensures var first := TransitionBarrier(format, IMAGE_LAYOUT_UNDEFINED, IMAGE_LAYOUT_TRANSFER_DST_OPTIMAL);
            var second := TransitionBarrier(format, IMAGE_LAYOUT_TRANSFER_DST_OPTIMAL, IMAGE_LAYOUT_SHADER_READ_ONLY_OPTIMAL);
      && first.Supported? && second.Supported?
      && first.dstAccessMask == second.srcAccessMask
      && first.dstStage == second.srcStage
      && first.srcAccessMask == 0
  {
  }
}
