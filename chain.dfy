// Extension chains (pNext).  A chain is the sequence of structures hanging
// off a create or allocate info, in chain order.  Both layers walk such a
// chain once, OR one validity bit per recognised structure type into an
// "additional info" record and copy that structure's payload; unrecognised
// structures are skipped.

module Chain {
  import opened Vk

  datatype SubresourceLayout = SubresourceLayout(offset: u64, size: u64, rowPitch: u64, arrayPitch: u64, depthPitch: u64)

  /** One structure of a pNext chain, by structure type, with the members the layers read. */
  datatype ChainStruct =
      // VkBufferCreateInfo extensions
    | BufferOpaqueCaptureAddressCreateInfo(opaqueCaptureAddress: u64)
    | ExternalMemoryBufferCreateInfo(bufferHandleTypes: u32)
    | BufferDeviceAddressCreateInfo(deviceAddress: u64)
      // VkImageCreateInfo extensions
    | ExternalMemoryImageCreateInfo(imageHandleTypes: u32)
    | ImageFormatListCreateInfo(viewFormats: seq<nat>)
    | ImageStencilUsageCreateInfo(stencilUsage: u32)
    | ImageSwapchainCreateInfo(swapchain: Handle)
    | ImageCompressionControl(compressionFlags: u32, fixedRateFlags: seq<u32>)
    | ImageDrmFormatModifierExplicitCreateInfo(drmFormatModifier: u64, planeLayouts: seq<SubresourceLayout>)
    | ImageDrmFormatModifierListCreateInfo(drmFormatModifiers: seq<u64>)
      // VkMemoryAllocateInfo extensions
    | ExportMemoryAllocateInfo(exportHandleTypes: u32)
    | MemoryDedicatedAllocateInfo(dedicatedImage: Handle, dedicatedBuffer: Handle)
    | MemoryAllocateFlagsInfo(allocateFlags: u32, deviceMask: u32)
    | MemoryOpaqueCaptureAddressAllocateInfo(memoryOpaqueCaptureAddress: u64)
    | ImportMemoryFdInfo(fdHandleType: u32, fd: int)
    | ImportMemoryHostPointerInfo(hostPointerHandleType: u32, hostPointer: nat)
    | MemoryPriorityAllocateInfo
      // VkBindImageMemoryInfo extensions
    | BindImagePlaneMemoryInfo(planeAspect: u32)
    | BindImageMemorySwapchainInfo(bindSwapchain: Handle, imageIndex: u32)
      // output and present chains
    | MemoryBudgetProperties(heapUsage: seq<u64>, heapBudget: seq<u64>)
    | SwapchainPresentFenceInfo(fences: seq<Handle>)
      // any structure type the walks do not recognise
    | Other(sType: nat)

  // ---------------------------------------------------------------------
  // Walking a chain

  /** The record after the walk has visited every structure of `chain`, in order. */
  function Fold<I>(init: I, step: (I, ChainStruct) -> I, chain: seq<ChainStruct>): I
  {
    if |chain| == 0 then init else step(Fold(init, step, chain[..|chain| - 1]), chain[|chain| - 1])
  }

  /** The while (next_struct != nullptr) walk shared by every create and allocate entry point. */
  method Walk<I>(init: I, step: (I, ChainStruct) -> I, chain: seq<ChainStruct>) returns (info: I)
    ensures info == Fold(init, step, chain)
  {
    info := init;
    var i := 0;
    while i < |chain|
      invariant 0 <= i <= |chain|
      invariant info == Fold(init, step, chain[..i])
    {
      assert chain[..i + 1][..i] == chain[..i];
      info := step(info, chain[i]);
      i := i + 1;
    }
    assert chain[..i] == chain;
  }

  // ---------------------------------------------------------------------
  // Reference definitions: what a chain says about one structure type

  /** The payload of the last structure `pick` recognises, if any. */
  function LastOf<T>(chain: seq<ChainStruct>, pick: ChainStruct -> Option<T>): Option<T>
  {
    if |chain| == 0 then None
    else if pick(chain[|chain| - 1]).Some? then pick(chain[|chain| - 1])
    else LastOf(chain[..|chain| - 1], pick)
  }

  /** The concatenated list payloads of every structure `pick` recognises, in chain order. */
  function AllOf<T>(chain: seq<ChainStruct>, pick: ChainStruct -> Option<seq<T>>): seq<T>
  {
    if |chain| == 0 then []
    else
      var tail := pick(chain[|chain| - 1]);
      AllOf(chain[..|chain| - 1], pick) + (if tail.Some? then tail.value else [])
  }

  function ValueOr<T>(o: Option<T>, default: T): T
  {
    if o.Some? then o.value else default
  }

  lemma {:induction false} LastOfIsLastMatch<T>(chain: seq<ChainStruct>, pick: ChainStruct -> Option<T>, k: nat)
    requires k < |chain| && pick(chain[k]).Some?
    requires forall j | k < j < |chain| :: pick(chain[j]).None?
    ensures LastOf(chain, pick) == pick(chain[k])
    decreases |chain|
  {
    if k < |chain| - 1 {
      var prefix := chain[..|chain| - 1];
      assert pick(chain[|chain| - 1]).None?;
      forall j | k < j < |prefix|
        ensures pick(prefix[j]).None?
      {
        assert prefix[j] == chain[j];
      }
      assert prefix[k] == chain[k];
      LastOfIsLastMatch(prefix, pick, k);
    }
  }

  lemma {:induction false} LastOfNoMatch<T>(chain: seq<ChainStruct>, pick: ChainStruct -> Option<T>)
    requires forall j | 0 <= j < |chain| :: pick(chain[j]).None?
    ensures LastOf(chain, pick) == None
    decreases |chain|
  {
    if |chain| > 0 {
      var prefix := chain[..|chain| - 1];
      assert pick(chain[|chain| - 1]).None?;
      forall j | 0 <= j < |prefix|
        ensures pick(prefix[j]).None?
      {
        assert prefix[j] == chain[j];
      }
      LastOfNoMatch(prefix, pick);
    }
  }

  /** The validity bits the structures of `chain` contribute, ORed together. */
  function BitsOf<V>(chain: seq<ChainStruct>, bitOf: ChainStruct -> set<V>): set<V>
  {
    if |chain| == 0 then {} else BitsOf(chain[..|chain| - 1], bitOf) + bitOf(chain[|chain| - 1])
  }

  /** A bit is set in the ORed flags exactly when some structure contributed it. */
  lemma {:induction false} BitsOfHasBit<V>(chain: seq<ChainStruct>, bitOf: ChainStruct -> set<V>, b: V)
    ensures b in BitsOf(chain, bitOf) <==> exists i :: 0 <= i < |chain| && b in bitOf(chain[i])
    decreases |chain|
  {
    if |chain| > 0 {
      var prefix := chain[..|chain| - 1];
      BitsOfHasBit(prefix, bitOf, b);
      if b in BitsOf(prefix, bitOf) {
        var i :| 0 <= i < |prefix| && b in bitOf(prefix[i]);
        assert chain[i] == prefix[i];
      }
      if exists i :: 0 <= i < |chain| && b in bitOf(chain[i]) {
        var i :| 0 <= i < |chain| && b in bitOf(chain[i]);
        if i < |prefix| {
          assert prefix[i] == chain[i];
        }
      }
    }
  }

  /** When only the structure at `k` contributes, the flags are its bits alone. */
  lemma {:induction false} BitsOfSingle<V>(chain: seq<ChainStruct>, bitOf: ChainStruct -> set<V>, k: nat)
    requires k < |chain|
    requires forall j | 0 <= j < |chain| && j != k :: bitOf(chain[j]) == {}
    ensures BitsOf(chain, bitOf) == bitOf(chain[k])
    decreases |chain|
  {
    var prefix := chain[..|chain| - 1];
    forall j | 0 <= j < |prefix| && j != k
      ensures bitOf(prefix[j]) == {}
    {
      assert prefix[j] == chain[j];
    }
    if k == |chain| - 1 {
      BitsOfNone(prefix, bitOf);
    } else {
      assert prefix[k] == chain[k];
      BitsOfSingle(prefix, bitOf, k);
    }
  }

  lemma {:induction false} BitsOfNone<V>(chain: seq<ChainStruct>, bitOf: ChainStruct -> set<V>)
    requires forall j | 0 <= j < |chain| :: bitOf(chain[j]) == {}
    ensures BitsOf(chain, bitOf) == {}
    decreases |chain|
  {
    if |chain| > 0 {
      var prefix := chain[..|chain| - 1];
      forall j | 0 <= j < |prefix|
        ensures bitOf(prefix[j]) == {}
      {
        assert prefix[j] == chain[j];
      }
      BitsOfNone(prefix, bitOf);
    }
  }

  // ---------------------------------------------------------------------
  // VkBufferCreateInfo chain (CreateBuffer)

  /** The bits of the record's flags word (ADD_BUFFER_VALID_*), by name. */
  datatype BufferValid = OpaqueCapture | ExternalMemHandleFlags | DeviceAddress

  datatype AdditionalBuffer = AdditionalBuffer(
    flags: set<BufferValid>,
    opaqueCaptureAddress: u64,
    externalMemoryHandleFlags: u32,
    deviceAddress: u64)

  /** The memset-zeroed record the walk starts from. */
  const NO_ADDITIONAL_BUFFER := AdditionalBuffer({}, 0, 0, 0)

  function BufferStep(info: AdditionalBuffer, s: ChainStruct): AdditionalBuffer
  {
    match s
    case BufferOpaqueCaptureAddressCreateInfo(a) =>
      info.(flags := info.flags + {OpaqueCapture}, opaqueCaptureAddress := a)
    case ExternalMemoryBufferCreateInfo(h) =>
      info.(flags := info.flags + {ExternalMemHandleFlags}, externalMemoryHandleFlags := h)
    case BufferDeviceAddressCreateInfo(a) =>
      info.(flags := info.flags + {DeviceAddress}, deviceAddress := a)
    case _ => info
  }

  /** The validity bit a structure stands for in a buffer record; 0 when the walk skips it. */
  function BufferBit(s: ChainStruct): set<BufferValid>
  {
    match s
    case BufferOpaqueCaptureAddressCreateInfo(_) => {OpaqueCapture}
    case ExternalMemoryBufferCreateInfo(_) => {ExternalMemHandleFlags}
    case BufferDeviceAddressCreateInfo(_) => {DeviceAddress}
    case _ => {}
  }

  function BufferOpaqueCapture(s: ChainStruct): Option<u64>
  {
    if s.BufferOpaqueCaptureAddressCreateInfo? then Some(s.opaqueCaptureAddress) else None
  }

  function BufferExternalMemory(s: ChainStruct): Option<u32>
  {
    if s.ExternalMemoryBufferCreateInfo? then Some(s.bufferHandleTypes) else None
  }

  function BufferDeviceAddress(s: ChainStruct): Option<u64>
  {
    if s.BufferDeviceAddressCreateInfo? then Some(s.deviceAddress) else None
  }

  /** Reference: the bits of the structures present, and the last payload of each type. */
  function BufferReference(chain: seq<ChainStruct>): AdditionalBuffer
  {
    AdditionalBuffer(
      BitsOf(chain, BufferBit),
      ValueOr(LastOf(chain, BufferOpaqueCapture), 0),
      ValueOr(LastOf(chain, BufferExternalMemory), 0),
      ValueOr(LastOf(chain, BufferDeviceAddress), 0))
  }

  /** One more structure moves the walk's record exactly as it moves the reference. */
  lemma BufferStepExtendsReference(chain: seq<ChainStruct>)
    requires |chain| > 0
    ensures BufferStep(BufferReference(chain[..|chain| - 1]), chain[|chain| - 1]) == BufferReference(chain)
  {
    BufferFlagsStep(BufferReference(chain[..|chain| - 1]), chain[|chain| - 1]);
    BufferOpaqueCaptureStep(chain);
    BufferExternalStep(chain);
    BufferDeviceAddressStep(chain);
  }

  lemma {:induction false} BufferWalkMatchesReference(chain: seq<ChainStruct>)
    ensures Fold(NO_ADDITIONAL_BUFFER, BufferStep, chain) == BufferReference(chain)
    decreases |chain|
  {
    if |chain| > 0 {
      BufferWalkMatchesReference(chain[..|chain| - 1]);
      BufferStepExtendsReference(chain);
    }
  }

  lemma BufferFlagsStep(info: AdditionalBuffer, s: ChainStruct)
    ensures BufferStep(info, s).flags == info.flags + BufferBit(s)
  {
    match s {
      case BufferOpaqueCaptureAddressCreateInfo(_) =>
      case ExternalMemoryBufferCreateInfo(_) =>
      case BufferDeviceAddressCreateInfo(_) =>
      case _ =>
    }
  }

  lemma BufferOpaqueCaptureStep(chain: seq<ChainStruct>)
    requires |chain| > 0
    ensures BufferStep(BufferReference(chain[..|chain| - 1]), chain[|chain| - 1]).opaqueCaptureAddress == BufferReference(chain).opaqueCaptureAddress
  {
    match chain[|chain| - 1] {
      case BufferOpaqueCaptureAddressCreateInfo(_) =>
      case _ =>
    }
  }

  lemma BufferExternalStep(chain: seq<ChainStruct>)
    requires |chain| > 0
    ensures BufferStep(BufferReference(chain[..|chain| - 1]), chain[|chain| - 1]).externalMemoryHandleFlags == BufferReference(chain).externalMemoryHandleFlags
  {
    match chain[|chain| - 1] {
      case ExternalMemoryBufferCreateInfo(_) =>
      case _ =>
    }
  }

  lemma BufferDeviceAddressStep(chain: seq<ChainStruct>)
    requires |chain| > 0
    ensures BufferStep(BufferReference(chain[..|chain| - 1]), chain[|chain| - 1]).deviceAddress == BufferReference(chain).deviceAddress
  {
    match chain[|chain| - 1] {
      case BufferDeviceAddressCreateInfo(_) =>
      case _ =>
    }
  }

  /** A chain carrying one VkExternalMemoryBufferCreateInfo and nothing else the walk recognises. */
  lemma ExternalMemoryBufferCaptured(chain: seq<ChainStruct>, k: nat)
    requires k < |chain| && chain[k].ExternalMemoryBufferCreateInfo?
    requires forall j | 0 <= j < |chain| && j != k :: BufferBit(chain[j]) == {}
    ensures Fold(NO_ADDITIONAL_BUFFER, BufferStep, chain).flags == {ExternalMemHandleFlags}
    ensures Fold(NO_ADDITIONAL_BUFFER, BufferStep, chain).externalMemoryHandleFlags == chain[k].bufferHandleTypes
  {
    BufferWalkMatchesReference(chain);
    BitsOfSingle(chain, BufferBit, k);
    forall j | k < j < |chain|
      ensures BufferExternalMemory(chain[j]).None?
    {
      assert BufferBit(chain[j]) == {};
    }
    LastOfIsLastMatch(chain, BufferExternalMemory, k);
  }

  // ---------------------------------------------------------------------
  // VkImageCreateInfo chain (CreateImage; the Android external format is
  // not modelled)

  /** The bits of the record's flags word (ADD_IMAGE_VALID_*), by name. */
  datatype ImageValid = ImageExternalMemHandleFlags | FormatList | StencilUsage | Swapchain | CompressionControl | DrmFormatModExplicit | DrmFormatModList

  datatype AdditionalImage = AdditionalImage(
    flags: set<ImageValid>,
    externalMemoryHandleFlags: u32,
    formatList: seq<nat>,
    stencilUsage: u32,
    swapchain: Handle,
    compressionFlags: u32,
    fixedRateFlags: seq<u32>,
    drmFormatModifier: u64,
    planeLayouts: seq<SubresourceLayout>,
    drmFormatModifiers: seq<u64>)

  const NO_ADDITIONAL_IMAGE := AdditionalImage({}, 0, [], 0, NULL_HANDLE, 0, [], 0, [], [])

  /** Scalar members are overwritten; list members are appended to (push_back). */
  function ImageStep(info: AdditionalImage, s: ChainStruct): AdditionalImage
  {
    match s
    case ExternalMemoryImageCreateInfo(h) =>
      info.(flags := info.flags + {ImageExternalMemHandleFlags}, externalMemoryHandleFlags := h)
    case ImageFormatListCreateInfo(formats) =>
      info.(flags := info.flags + {FormatList}, formatList := info.formatList + formats)
    case ImageStencilUsageCreateInfo(usage) =>
      info.(flags := info.flags + {StencilUsage}, stencilUsage := usage)
    case ImageSwapchainCreateInfo(sc) =>
      info.(flags := info.flags + {Swapchain}, swapchain := sc)
    case ImageCompressionControl(f, rates) =>
      info.(flags := info.flags + {CompressionControl}, compressionFlags := f,
            fixedRateFlags := info.fixedRateFlags + rates)
    case ImageDrmFormatModifierExplicitCreateInfo(m, layouts) =>
      info.(flags := info.flags + {DrmFormatModExplicit}, drmFormatModifier := m,
            planeLayouts := info.planeLayouts + layouts)
    case ImageDrmFormatModifierListCreateInfo(mods) =>
      info.(flags := info.flags + {DrmFormatModList}, drmFormatModifiers := info.drmFormatModifiers + mods)
    case _ => info
  }

  function ImageBit(s: ChainStruct): set<ImageValid>
  {
    match s
    case ExternalMemoryImageCreateInfo(_) => {ImageExternalMemHandleFlags}
    case ImageFormatListCreateInfo(_) => {FormatList}
    case ImageStencilUsageCreateInfo(_) => {StencilUsage}
    case ImageSwapchainCreateInfo(_) => {Swapchain}
    case ImageCompressionControl(_, _) => {CompressionControl}
    case ImageDrmFormatModifierExplicitCreateInfo(_, _) => {DrmFormatModExplicit}
    case ImageDrmFormatModifierListCreateInfo(_) => {DrmFormatModList}
    case _ => {}
  }

  function ImageExternalMemory(s: ChainStruct): Option<u32>
  {
    if s.ExternalMemoryImageCreateInfo? then Some(s.imageHandleTypes) else None
  }

  function ImageFormatList(s: ChainStruct): Option<seq<nat>>
  {
    if s.ImageFormatListCreateInfo? then Some(s.viewFormats) else None
  }

  function ImageStencilUsage(s: ChainStruct): Option<u32>
  {
    if s.ImageStencilUsageCreateInfo? then Some(s.stencilUsage) else None
  }

  function ImageSwapchain(s: ChainStruct): Option<Handle>
  {
    if s.ImageSwapchainCreateInfo? then Some(s.swapchain) else None
  }

  function ImageCompression(s: ChainStruct): Option<u32>
  {
    if s.ImageCompressionControl? then Some(s.compressionFlags) else None
  }

  function ImageFixedRates(s: ChainStruct): Option<seq<u32>>
  {
    if s.ImageCompressionControl? then Some(s.fixedRateFlags) else None
  }

  function ImageDrmExplicit(s: ChainStruct): Option<u64>
  {
    if s.ImageDrmFormatModifierExplicitCreateInfo? then Some(s.drmFormatModifier) else None
  }

  function ImagePlaneLayouts(s: ChainStruct): Option<seq<SubresourceLayout>>
  {
    if s.ImageDrmFormatModifierExplicitCreateInfo? then Some(s.planeLayouts) else None
  }

  function ImageDrmList(s: ChainStruct): Option<seq<u64>>
  {
    if s.ImageDrmFormatModifierListCreateInfo? then Some(s.drmFormatModifiers) else None
  }

  /** Reference: bits of the types present, last scalars, list payloads concatenated in chain order. */
  function ImageReference(chain: seq<ChainStruct>): AdditionalImage
  {
    AdditionalImage(
      BitsOf(chain, ImageBit),
      ValueOr(LastOf(chain, ImageExternalMemory), 0),
      AllOf(chain, ImageFormatList),
      ValueOr(LastOf(chain, ImageStencilUsage), 0),
      ValueOr(LastOf(chain, ImageSwapchain), NULL_HANDLE),
      ValueOr(LastOf(chain, ImageCompression), 0),
      AllOf(chain, ImageFixedRates),
      ValueOr(LastOf(chain, ImageDrmExplicit), 0),
      AllOf(chain, ImagePlaneLayouts),
      AllOf(chain, ImageDrmList))
  }

  /** One more structure moves the walk's record exactly as it moves the reference. */
  lemma ImageStepExtendsReference(chain: seq<ChainStruct>)
    requires |chain| > 0
    ensures ImageStep(ImageReference(chain[..|chain| - 1]), chain[|chain| - 1]) == ImageReference(chain)
  {
    ImageFlagsStep(ImageReference(chain[..|chain| - 1]), chain[|chain| - 1]);
    ImageExternalStep(chain);
    ImageFormatListStep(chain);
    ImageStencilStep(chain);
    ImageSwapchainStep(chain);
    ImageCompressionStep(chain);
    ImageDrmExplicitStep(chain);
    ImageDrmListStep(chain);
  }

  lemma {:induction false} ImageWalkMatchesReference(chain: seq<ChainStruct>)
    ensures Fold(NO_ADDITIONAL_IMAGE, ImageStep, chain) == ImageReference(chain)
    decreases |chain|
  {
    if |chain| > 0 {
      ImageWalkMatchesReference(chain[..|chain| - 1]);
      ImageStepExtendsReference(chain);
    }
  }

  lemma ImageFlagsStep(info: AdditionalImage, s: ChainStruct)
    ensures ImageStep(info, s).flags == info.flags + ImageBit(s)
  {
    match s {
      case ExternalMemoryImageCreateInfo(_) =>
      case ImageFormatListCreateInfo(_) =>
      case ImageStencilUsageCreateInfo(_) =>
      case ImageSwapchainCreateInfo(_) =>
      case ImageCompressionControl(_, _) =>
      case ImageDrmFormatModifierExplicitCreateInfo(_, _) =>
      case ImageDrmFormatModifierListCreateInfo(_) =>
      case _ =>
    }
  }

  lemma ImageExternalStep(chain: seq<ChainStruct>)
    requires |chain| > 0
    ensures ImageStep(ImageReference(chain[..|chain| - 1]), chain[|chain| - 1]).externalMemoryHandleFlags == ImageReference(chain).externalMemoryHandleFlags
  {
    var prefix, last := chain[..|chain| - 1], chain[|chain| - 1];
    assert LastOf(chain, ImageExternalMemory) == if last.ExternalMemoryImageCreateInfo? then Some(last.imageHandleTypes) else LastOf(prefix, ImageExternalMemory);
    if !last.ExternalMemoryImageCreateInfo? {
      assert ImageStep(ImageReference(prefix), last).externalMemoryHandleFlags == ImageReference(prefix).externalMemoryHandleFlags;
    }
  }

  lemma ImageFormatListStep(chain: seq<ChainStruct>)
    requires |chain| > 0
    ensures ImageStep(ImageReference(chain[..|chain| - 1]), chain[|chain| - 1]).formatList == ImageReference(chain).formatList
  {    var prefix, last := chain[..|chain| - 1], chain[|chain| - 1];
    assert AllOf(chain, ImageFormatList) == AllOf(prefix, ImageFormatList) + (if last.ImageFormatListCreateInfo? then last.viewFormats else []);
    if !last.ImageFormatListCreateInfo? {
      assert ImageStep(ImageReference(prefix), last).formatList == ImageReference(prefix).formatList;
    }
  }

  lemma ImageStencilStep(chain: seq<ChainStruct>)
    requires |chain| > 0
    ensures ImageStep(ImageReference(chain[..|chain| - 1]), chain[|chain| - 1]).stencilUsage == ImageReference(chain).stencilUsage
  {    var prefix, last := chain[..|chain| - 1], chain[|chain| - 1];
    assert LastOf(chain, ImageStencilUsage) == if last.ImageStencilUsageCreateInfo? then Some(last.stencilUsage) else LastOf(prefix, ImageStencilUsage);
    if !last.ImageStencilUsageCreateInfo? {
      assert ImageStep(ImageReference(prefix), last).stencilUsage == ImageReference(prefix).stencilUsage;
    }
  }

  lemma ImageSwapchainStep(chain: seq<ChainStruct>)
    requires |chain| > 0
    ensures ImageStep(ImageReference(chain[..|chain| - 1]), chain[|chain| - 1]).swapchain == ImageReference(chain).swapchain
  {    var prefix, last := chain[..|chain| - 1], chain[|chain| - 1];
    assert LastOf(chain, ImageSwapchain) == if last.ImageSwapchainCreateInfo? then Some(last.swapchain) else LastOf(prefix, ImageSwapchain);
    if !last.ImageSwapchainCreateInfo? {
      assert ImageStep(ImageReference(prefix), last).swapchain == ImageReference(prefix).swapchain;
    }
  }

  lemma ImageCompressionStep(chain: seq<ChainStruct>)
    requires |chain| > 0
    ensures ImageStep(ImageReference(chain[..|chain| - 1]), chain[|chain| - 1]).compressionFlags == ImageReference(chain).compressionFlags
    ensures ImageStep(ImageReference(chain[..|chain| - 1]), chain[|chain| - 1]).fixedRateFlags == ImageReference(chain).fixedRateFlags
  {    var prefix, last := chain[..|chain| - 1], chain[|chain| - 1];
    assert LastOf(chain, ImageCompression) == if last.ImageCompressionControl? then Some(last.compressionFlags) else LastOf(prefix, ImageCompression);
    assert AllOf(chain, ImageFixedRates) == AllOf(prefix, ImageFixedRates) + (if last.ImageCompressionControl? then last.fixedRateFlags else []);
    if !last.ImageCompressionControl? {
      var before := ImageReference(prefix);
      assert ImageStep(before, last).compressionFlags == before.compressionFlags;
      assert ImageStep(before, last).fixedRateFlags == before.fixedRateFlags;
    }
  }

  lemma ImageDrmExplicitStep(chain: seq<ChainStruct>)
    requires |chain| > 0
    ensures ImageStep(ImageReference(chain[..|chain| - 1]), chain[|chain| - 1]).drmFormatModifier == ImageReference(chain).drmFormatModifier
    ensures ImageStep(ImageReference(chain[..|chain| - 1]), chain[|chain| - 1]).planeLayouts == ImageReference(chain).planeLayouts
  {    var prefix, last := chain[..|chain| - 1], chain[|chain| - 1];
    assert LastOf(chain, ImageDrmExplicit) == if last.ImageDrmFormatModifierExplicitCreateInfo? then Some(last.drmFormatModifier) else LastOf(prefix, ImageDrmExplicit);
    assert AllOf(chain, ImagePlaneLayouts) == AllOf(prefix, ImagePlaneLayouts) + (if last.ImageDrmFormatModifierExplicitCreateInfo? then last.planeLayouts else []);
    if !last.ImageDrmFormatModifierExplicitCreateInfo? {
      var before := ImageReference(prefix);
      assert ImageStep(before, last).drmFormatModifier == before.drmFormatModifier;
      assert ImageStep(before, last).planeLayouts == before.planeLayouts;
    }
  }

  lemma ImageDrmListStep(chain: seq<ChainStruct>)
    requires |chain| > 0
    ensures ImageStep(ImageReference(chain[..|chain| - 1]), chain[|chain| - 1]).drmFormatModifiers == ImageReference(chain).drmFormatModifiers
  {    var prefix, last := chain[..|chain| - 1], chain[|chain| - 1];
    assert AllOf(chain, ImageDrmList) == AllOf(prefix, ImageDrmList) + (if last.ImageDrmFormatModifierListCreateInfo? then last.drmFormatModifiers else []);
    if !last.ImageDrmFormatModifierListCreateInfo? {
      assert ImageStep(ImageReference(prefix), last).drmFormatModifiers == ImageReference(prefix).drmFormatModifiers;
    }
  }

  // ---------------------------------------------------------------------
  // VkMemoryAllocateInfo chain (AllocateMemory; the float priority value
  // and the Android hardware buffer are not modelled)

  /** The bits of the record's flags word (ADD_MEM_VALID_*), by name. */
  datatype MemoryValid = MemExternalMemHandleFlags | DedicatedAlloc | AllocateFlagInfo | OpaqueCaptureAddress | ExternalMemFd | ImportHostPointer | Priority

  /** Pairs hold (dedicated image, dedicated buffer), (flags, device mask), (handle type, fd), (handle type, pointer). */
  datatype AdditionalMemory = AdditionalMemory(
    flags: set<MemoryValid>,
    externalMemoryHandleFlags: u32,
    dedicated: (Handle, Handle),
    allocateFlags: (u32, u32),
    opaqueCaptureAddress: u64,
    importFd: (u32, int),
    importHostPointer: (u32, nat))

  const NO_ADDITIONAL_MEMORY := AdditionalMemory({}, 0, (NULL_HANDLE, NULL_HANDLE), (0, 0), 0, (0, 0), (0, 0))

  function MemoryStep(info: AdditionalMemory, s: ChainStruct): AdditionalMemory
  {
    match s
    case ExportMemoryAllocateInfo(h) =>
      info.(flags := info.flags + {MemExternalMemHandleFlags}, externalMemoryHandleFlags := h)
    case MemoryDedicatedAllocateInfo(img, buf) =>
      info.(flags := info.flags + {DedicatedAlloc}, dedicated := (img, buf))
    case MemoryAllocateFlagsInfo(f, mask) =>
      info.(flags := info.flags + {AllocateFlagInfo}, allocateFlags := (f, mask))
    case MemoryOpaqueCaptureAddressAllocateInfo(a) =>
      info.(flags := info.flags + {OpaqueCaptureAddress}, opaqueCaptureAddress := a)
    case ImportMemoryFdInfo(t, fd) =>
      info.(flags := info.flags + {ExternalMemFd}, importFd := (t, fd))
    case ImportMemoryHostPointerInfo(t, p) =>
      info.(flags := info.flags + {ImportHostPointer}, importHostPointer := (t, p))
    case MemoryPriorityAllocateInfo =>
      info.(flags := info.flags + {Priority})
    case _ => info
  }

  function MemoryBit(s: ChainStruct): set<MemoryValid>
  {
    match s
    case ExportMemoryAllocateInfo(_) => {MemExternalMemHandleFlags}
    case MemoryDedicatedAllocateInfo(_, _) => {DedicatedAlloc}
    case MemoryAllocateFlagsInfo(_, _) => {AllocateFlagInfo}
    case MemoryOpaqueCaptureAddressAllocateInfo(_) => {OpaqueCaptureAddress}
    case ImportMemoryFdInfo(_, _) => {ExternalMemFd}
    case ImportMemoryHostPointerInfo(_, _) => {ImportHostPointer}
    case MemoryPriorityAllocateInfo => {Priority}
    case _ => {}
  }

  function MemoryExport(s: ChainStruct): Option<u32>
  {
    if s.ExportMemoryAllocateInfo? then Some(s.exportHandleTypes) else None
  }

  function MemoryDedicated(s: ChainStruct): Option<(Handle, Handle)>
  {
    if s.MemoryDedicatedAllocateInfo? then Some((s.dedicatedImage, s.dedicatedBuffer)) else None
  }

  function MemoryAllocateFlags(s: ChainStruct): Option<(u32, u32)>
  {
    if s.MemoryAllocateFlagsInfo? then Some((s.allocateFlags, s.deviceMask)) else None
  }

  function MemoryOpaqueCapture(s: ChainStruct): Option<u64>
  {
    if s.MemoryOpaqueCaptureAddressAllocateInfo? then Some(s.memoryOpaqueCaptureAddress) else None
  }

  function MemoryImportFd(s: ChainStruct): Option<(u32, int)>
  {
    if s.ImportMemoryFdInfo? then Some((s.fdHandleType, s.fd)) else None
  }

  function MemoryImportHostPointer(s: ChainStruct): Option<(u32, nat)>
  {
    if s.ImportMemoryHostPointerInfo? then Some((s.hostPointerHandleType, s.hostPointer)) else None
  }

  function MemoryReference(chain: seq<ChainStruct>): AdditionalMemory
  {
    AdditionalMemory(
      BitsOf(chain, MemoryBit),
      ValueOr(LastOf(chain, MemoryExport), 0),
      ValueOr(LastOf(chain, MemoryDedicated), (NULL_HANDLE, NULL_HANDLE)),
      ValueOr(LastOf(chain, MemoryAllocateFlags), (0, 0)),
      ValueOr(LastOf(chain, MemoryOpaqueCapture), 0),
      ValueOr(LastOf(chain, MemoryImportFd), (0, 0)),
      ValueOr(LastOf(chain, MemoryImportHostPointer), (0, 0)))
  }

  /** One more structure moves the walk's record exactly as it moves the reference. */
  lemma MemoryStepExtendsReference(chain: seq<ChainStruct>)
    requires |chain| > 0
    ensures MemoryStep(MemoryReference(chain[..|chain| - 1]), chain[|chain| - 1]) == MemoryReference(chain)
  {
    MemoryFlagsStep(MemoryReference(chain[..|chain| - 1]), chain[|chain| - 1]);
    MemoryExportStep(chain);
    MemoryDedicatedStep(chain);
    MemoryAllocateFlagsStep(chain);
    MemoryOpaqueCaptureStep(chain);
    MemoryImportFdStep(chain);
    MemoryHostPointerStep(chain);
  }

  lemma {:induction false} MemoryWalkMatchesReference(chain: seq<ChainStruct>)
    ensures Fold(NO_ADDITIONAL_MEMORY, MemoryStep, chain) == MemoryReference(chain)
    decreases |chain|
  {
    if |chain| > 0 {
      MemoryWalkMatchesReference(chain[..|chain| - 1]);
      MemoryStepExtendsReference(chain);
    }
  }

  lemma MemoryFlagsStep(info: AdditionalMemory, s: ChainStruct)
    ensures MemoryStep(info, s).flags == info.flags + MemoryBit(s)
  {
    match s {
      case ExportMemoryAllocateInfo(_) =>
      case MemoryDedicatedAllocateInfo(_, _) =>
      case MemoryAllocateFlagsInfo(_, _) =>
      case MemoryOpaqueCaptureAddressAllocateInfo(_) =>
      case ImportMemoryFdInfo(_, _) =>
      case ImportMemoryHostPointerInfo(_, _) =>
      case MemoryPriorityAllocateInfo =>
      case _ =>
    }
  }

  lemma MemoryExportStep(chain: seq<ChainStruct>)
    requires |chain| > 0
    ensures MemoryStep(MemoryReference(chain[..|chain| - 1]), chain[|chain| - 1]).externalMemoryHandleFlags == MemoryReference(chain).externalMemoryHandleFlags
  {
    match chain[|chain| - 1] {
      case ExportMemoryAllocateInfo(_) =>
      case _ =>
    }
  }

  lemma MemoryDedicatedStep(chain: seq<ChainStruct>)
    requires |chain| > 0
    ensures MemoryStep(MemoryReference(chain[..|chain| - 1]), chain[|chain| - 1]).dedicated == MemoryReference(chain).dedicated
  {
    match chain[|chain| - 1] {
      case MemoryDedicatedAllocateInfo(_, _) =>
      case _ =>
    }
  }

  lemma MemoryAllocateFlagsStep(chain: seq<ChainStruct>)
    requires |chain| > 0
    ensures MemoryStep(MemoryReference(chain[..|chain| - 1]), chain[|chain| - 1]).allocateFlags == MemoryReference(chain).allocateFlags
  {
    match chain[|chain| - 1] {
      case MemoryAllocateFlagsInfo(_, _) =>
      case _ =>
    }
  }

  lemma MemoryOpaqueCaptureStep(chain: seq<ChainStruct>)
    requires |chain| > 0
    ensures MemoryStep(MemoryReference(chain[..|chain| - 1]), chain[|chain| - 1]).opaqueCaptureAddress == MemoryReference(chain).opaqueCaptureAddress
  {
    match chain[|chain| - 1] {
      case MemoryOpaqueCaptureAddressAllocateInfo(_) =>
      case _ =>
    }
  }

  lemma MemoryImportFdStep(chain: seq<ChainStruct>)
    requires |chain| > 0
    ensures MemoryStep(MemoryReference(chain[..|chain| - 1]), chain[|chain| - 1]).importFd == MemoryReference(chain).importFd
  {
    match chain[|chain| - 1] {
      case ImportMemoryFdInfo(_, _) =>
      case _ =>
    }
  }

  lemma MemoryHostPointerStep(chain: seq<ChainStruct>)
    requires |chain| > 0
    ensures MemoryStep(MemoryReference(chain[..|chain| - 1]), chain[|chain| - 1]).importHostPointer == MemoryReference(chain).importHostPointer
  {
    match chain[|chain| - 1] {
      case ImportMemoryHostPointerInfo(_, _) =>
      case _ =>
    }
  }

  // ---------------------------------------------------------------------
  // VkBindImageMemoryInfo chain (BindImageMemory2)

  /** The bits of the record's flags word (ADD_IMAGE_VALID_*), by name. */
  datatype ImageMemoryValid = PlaneMem | SwapchainBinding

  datatype AdditionalImageMemory = AdditionalImageMemory(
    flags: set<ImageMemoryValid>,
    planeAspect: u32,
    swapchain: Handle,
    swapchainImageIndex: u32)

  const NO_ADDITIONAL_IMAGE_MEMORY := AdditionalImageMemory({}, 0, NULL_HANDLE, 0)

  function ImageMemoryStep(info: AdditionalImageMemory, s: ChainStruct): AdditionalImageMemory
  {
    match s
    case BindImagePlaneMemoryInfo(aspect) =>
      info.(flags := info.flags + {PlaneMem}, planeAspect := aspect)
    case BindImageMemorySwapchainInfo(sc, index) =>
      info.(flags := info.flags + {SwapchainBinding}, swapchain := sc, swapchainImageIndex := index)
    case _ => info
  }

  function ImageMemoryBit(s: ChainStruct): set<ImageMemoryValid>
  {
    match s
    case BindImagePlaneMemoryInfo(_) => {PlaneMem}
    case BindImageMemorySwapchainInfo(_, _) => {SwapchainBinding}
    case _ => {}
  }

  function ImagePlaneAspect(s: ChainStruct): Option<u32>
  {
    if s.BindImagePlaneMemoryInfo? then Some(s.planeAspect) else None
  }

  function ImageBindSwapchain(s: ChainStruct): Option<(Handle, u32)>
  {
    if s.BindImageMemorySwapchainInfo? then Some((s.bindSwapchain, s.imageIndex)) else None
  }

  function ImageMemoryReference(chain: seq<ChainStruct>): AdditionalImageMemory
  {
    var swapchain := ValueOr(LastOf(chain, ImageBindSwapchain), (NULL_HANDLE, 0));
    AdditionalImageMemory(BitsOf(chain, ImageMemoryBit), ValueOr(LastOf(chain, ImagePlaneAspect), 0), swapchain.0, swapchain.1)
  }

  /** One more structure moves the walk's record exactly as it moves the reference. */
  lemma ImageMemoryStepExtendsReference(chain: seq<ChainStruct>)
    requires |chain| > 0
    ensures ImageMemoryStep(ImageMemoryReference(chain[..|chain| - 1]), chain[|chain| - 1]) == ImageMemoryReference(chain)
  {
    ImageMemoryFlagsStep(ImageMemoryReference(chain[..|chain| - 1]), chain[|chain| - 1]);
    ImageMemoryPlaneStep(chain);
    ImageMemorySwapchainStep(chain);
  }

  lemma {:induction false} ImageMemoryWalkMatchesReference(chain: seq<ChainStruct>)
    ensures Fold(NO_ADDITIONAL_IMAGE_MEMORY, ImageMemoryStep, chain) == ImageMemoryReference(chain)
    decreases |chain|
  {
    if |chain| > 0 {
      ImageMemoryWalkMatchesReference(chain[..|chain| - 1]);
      ImageMemoryStepExtendsReference(chain);
    }
  }

  lemma ImageMemoryFlagsStep(info: AdditionalImageMemory, s: ChainStruct)
    ensures ImageMemoryStep(info, s).flags == info.flags + ImageMemoryBit(s)
  {
    match s {
      case BindImagePlaneMemoryInfo(_) =>
      case BindImageMemorySwapchainInfo(_, _) =>
      case _ =>
    }
  }

  lemma ImageMemoryPlaneStep(chain: seq<ChainStruct>)
    requires |chain| > 0
    ensures ImageMemoryStep(ImageMemoryReference(chain[..|chain| - 1]), chain[|chain| - 1]).planeAspect == ImageMemoryReference(chain).planeAspect
  {
    match chain[|chain| - 1] {
      case BindImagePlaneMemoryInfo(_) =>
      case _ =>
    }
  }

  lemma ImageMemorySwapchainStep(chain: seq<ChainStruct>)
    requires |chain| > 0
    ensures ImageMemoryStep(ImageMemoryReference(chain[..|chain| - 1]), chain[|chain| - 1]).swapchain == ImageMemoryReference(chain).swapchain
    ensures ImageMemoryStep(ImageMemoryReference(chain[..|chain| - 1]), chain[|chain| - 1]).swapchainImageIndex == ImageMemoryReference(chain).swapchainImageIndex
  {
    match chain[|chain| - 1] {
      case BindImageMemorySwapchainInfo(_, _) =>
      case _ =>
    }
  }

  // ---------------------------------------------------------------------
  // Searching an output chain for VkPhysicalDeviceMemoryBudgetPropertiesEXT

  /** The outcome of a loop that may never finish. */
  datatype Search<T> = Diverges | Stops(outcome: T)

  /**
   * The search loop as written: the loop body never moves to the next
   * structure, so it finishes only when the chain is empty or starts with
   * the budget structure.
   */
  function FindBudgetAsWritten(chain: seq<ChainStruct>): (r: Search<Option<nat>>)
    ensures r.Diverges? <==> |chain| > 0 && FindBudget(chain) != Some(0)
  {
    if |chain| == 0 then Stops(None)
    else if chain[0].MemoryBudgetProperties? then Stops(Some(0))
    else Diverges
  }

  /** The search as intended: the position of the first budget structure. */
  function FindBudget(chain: seq<ChainStruct>): (r: Option<nat>)
    ensures r.Some? <==> exists i :: 0 <= i < |chain| && chain[i].MemoryBudgetProperties?
    ensures r.Some? ==> r.value < |chain| && chain[r.value].MemoryBudgetProperties?
    ensures r.Some? ==> forall j | 0 <= j < r.value :: !chain[j].MemoryBudgetProperties?
  {
    if |chain| == 0 then None
    else if chain[0].MemoryBudgetProperties? then Some(0)
    else
      var rest := FindBudget(chain[1..]);
      if rest.Some? then Some(rest.value + 1) else None
  }

  /** The search loop advancing to the next structure each time round, as intended. */
  method SearchBudget(chain: seq<ChainStruct>) returns (r: Option<nat>)
    ensures r == FindBudget(chain)
  {
    var i := 0;
    while i < |chain|
      invariant 0 <= i <= |chain|
      invariant forall j | 0 <= j < i :: !chain[j].MemoryBudgetProperties?
    {
      if chain[i].MemoryBudgetProperties? {
        return Some(i);
      }
      i := i + 1;
    }
    return None;
  }

  lemma BudgetSearchAgreesWhenItStops(chain: seq<ChainStruct>)
    requires FindBudgetAsWritten(chain).Stops?
    ensures FindBudgetAsWritten(chain).outcome == FindBudget(chain)
  {
  }

  /** A budget structure behind any other structure hangs the written loop. */
  lemma BudgetSearchAsWrittenHangs(usage: seq<u64>, budget: seq<u64>)
    ensures FindBudgetAsWritten([Other(0), MemoryBudgetProperties(usage, budget)]).Diverges?
    ensures FindBudget([Other(0), MemoryBudgetProperties(usage, budget)]) == Some(1)
  {
    var chain := [Other(0), MemoryBudgetProperties(usage, budget)];
    assert chain[1..] == [MemoryBudgetProperties(usage, budget)];
  }

  // ---------------------------------------------------------------------
  // Fences named by VkSwapchainPresentFenceInfoEXT in a present chain

  /**
   * The present-chain loop as written: it re-reads the head of the chain
   * instead of advancing, so any non-empty chain never finishes.
   */
  function PresentFencesAsWritten(chain: seq<ChainStruct>): (r: Search<seq<Handle>>)
    ensures r.Diverges? <==> |chain| > 0
    ensures r.Stops? ==> r.outcome == PresentFences(chain)
  {
    if |chain| == 0 then Stops([]) else Diverges
  }

  /** As intended: every fence of every present-fence structure, in chain order. */
  function PresentFences(chain: seq<ChainStruct>): (r: seq<Handle>)
    ensures forall f :: f in r <==> exists i :: 0 <= i < |chain| && chain[i].SwapchainPresentFenceInfo? && f in chain[i].fences
  {
    if |chain| == 0 then []
    else
      var tail := chain[|chain| - 1];
      var prefix := chain[..|chain| - 1];
      var r := PresentFences(prefix) + (if tail.SwapchainPresentFenceInfo? then tail.fences else []);
      assert forall i | 0 <= i < |prefix| :: prefix[i] == chain[i];
      r
  }

  lemma PresentFencesAsWrittenHangs(fence: Handle)
    ensures PresentFencesAsWritten([SwapchainPresentFenceInfo([fence])]).Diverges?
    ensures PresentFences([SwapchainPresentFenceInfo([fence])]) == [fence]
  {
    var chain := [SwapchainPresentFenceInfo([fence])];
    assert chain[..0] == [];
  }
}
