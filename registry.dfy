// The handle-keyed shadow tables both layers keep for buffers, images,
// device memory and imported file descriptors, with the erase helpers that
// keep them consistent: erasing a buffer or image also erases it from every
// memory object's binding list, and destroying a device erases the file
// descriptors it imported.

module Registry {
  import opened Vk
  import opened Chain
  import opened Bindings

  /** The members of VkMemoryRequirements. */
  datatype MemoryRequirements = MemoryRequirements(size: u64, alignment: u64, memoryTypeBits: u32)

  const NO_REQUIREMENTS := MemoryRequirements(0, 0, 0)

  /** The VkBufferCreateInfo members kept (the copy's pNext is cleared). */
  datatype BufferCreateInfo = BufferCreateInfo(flags: u32, size: u64, usage: u32, sharingMode: nat)

  /** The VkImageCreateInfo members kept (the copy's pNext is cleared). */
  datatype ImageCreateInfo = ImageCreateInfo(flags: u32, imageType: nat, format: nat, mipLevels: u32, arrayLayers: u32, usage: u32)

  datatype BufferRecord = BufferRecord(device: Handle, createInfo: BufferCreateInfo, additional: AdditionalBuffer, memoryReqs: MemoryRequirements)

  datatype ImageRecord = ImageRecord(device: Handle, createInfo: ImageCreateInfo, additional: AdditionalImage, memoryReqs: MemoryRequirements)

  /** A buffer's entry in a memory object's list carries nothing beyond handle and offset. */
  type BufferBinding = Binding<()>

  /** An image's entry also carries what its bind info's chain said. */
  type ImageBinding = Binding<AdditionalImageMemory>

  datatype MemoryRecord = MemoryRecord(
    device: Handle,
    allocationSize: u64,
    memoryTypeIndex: u32,
    additional: AdditionalMemory,
    buffers: seq<BufferBinding>,
    images: seq<ImageBinding>)

  /** A VkDeviceMemory freshly recorded by vkAllocateMemory: no bindings yet. */
  function NewMemory(device: Handle, allocationSize: u64, memoryTypeIndex: u32, chain: seq<ChainStruct>): (r: MemoryRecord)
    ensures r.buffers == [] && r.images == []
    ensures r.additional == MemoryReference(chain)
  {
    MemoryWalkMatchesReference(chain);
    MemoryRecord(device, allocationSize, memoryTypeIndex, Fold(NO_ADDITIONAL_MEMORY, MemoryStep, chain), [], [])
  }

  /** An fd imported through vkGetMemoryFdPropertiesKHR. */
  datatype ExternalFdRecord = ExternalFdRecord(device: Handle, memoryType: u32)

  // ---------------------------------------------------------------------
  // The binding lists of all memory objects, as one map per resource kind

  function BufferLists(memories: map<Handle, MemoryRecord>): (r: Lists<()>)
    ensures r.Keys == memories.Keys
  {
    map m | m in memories :: memories[m].buffers
  }

  function ImageLists(memories: map<Handle, MemoryRecord>): (r: Lists<AdditionalImageMemory>)
    ensures r.Keys == memories.Keys
  {
    map m | m in memories :: memories[m].images
  }

  /** Each memory record with its buffers list replaced, everything else kept. */
  function WithBufferLists(memories: map<Handle, MemoryRecord>, lists: Lists<()>): (r: map<Handle, MemoryRecord>)
    requires lists.Keys == memories.Keys
    ensures BufferLists(r) == lists && ImageLists(r) == ImageLists(memories)
    ensures r.Keys == memories.Keys
    ensures forall m | m in r :: r[m] == memories[m].(buffers := lists[m])
  {
    var r := map m | m in memories :: memories[m].(buffers := lists[m]);
    assert BufferLists(r) == lists;
    assert ImageLists(r) == ImageLists(memories);
    r
  }

  /** Each memory record with its images list replaced, everything else kept. */
  function WithImageLists(memories: map<Handle, MemoryRecord>, lists: Lists<AdditionalImageMemory>): (r: map<Handle, MemoryRecord>)
    requires lists.Keys == memories.Keys
    ensures ImageLists(r) == lists && BufferLists(r) == BufferLists(memories)
    ensures r.Keys == memories.Keys
    ensures forall m | m in r :: r[m] == memories[m].(images := lists[m])
  {
    var r := map m | m in memories :: memories[m].(images := lists[m]);
    assert ImageLists(r) == lists;
    assert BufferLists(r) == BufferLists(memories);
    r
  }

  /** No buffer and no image sits in two lists, or twice in one. */
  ghost predicate BindingsExclusive(memories: map<Handle, MemoryRecord>)
  {
    Exclusive(BufferLists(memories)) && Exclusive(ImageLists(memories))
  }

  lemma NewMemoryKeepsExclusive(memories: map<Handle, MemoryRecord>, m: Handle, record: MemoryRecord)
    requires BindingsExclusive(memories)
    requires record.buffers == [] && record.images == []
    ensures BindingsExclusive(memories[m := record])
  {
    ResetPreservesExclusive(BufferLists(memories), m);
    ResetPreservesExclusive(ImageLists(memories), m);
    assert BufferLists(memories[m := record]) == BufferLists(memories)[m := []];
    assert ImageLists(memories[m := record]) == ImageLists(memories)[m := []];
  }

  lemma FreeMemoryKeepsExclusive(memories: map<Handle, MemoryRecord>, m: Handle)
    requires BindingsExclusive(memories)
    ensures BindingsExclusive(memories - {m})
  {
    ResetPreservesExclusive(BufferLists(memories), m);
    ResetPreservesExclusive(ImageLists(memories), m);
    assert BufferLists(memories - {m}) == BufferLists(memories) - {m};
    assert ImageLists(memories - {m}) == ImageLists(memories) - {m};
  }

  /**
   * After binding buffer `b` to memory `m` at `offset`, `b` is in `m`'s list
   * exactly once, with that offset, and in no other list (in none when `m`
   * is VK_NULL_HANDLE); every other buffer keeps its entries and the image
   * lists are untouched.
   */
  lemma BoundBufferInOneList(memories: map<Handle, MemoryRecord>, b: Handle, m: Handle, offset: u64)
    requires m == NULL_HANDLE || m in memories
    ensures var r := WithBufferLists(memories, Bind(BufferLists(memories), b, m, offset, ()));
      && (forall k | k in r :: Count(r[k].buffers, b) == if k == m && m != NULL_HANDLE then 1 else 0)
      && (m != NULL_HANDLE ==> Binding(b, offset, ()) in r[m].buffers)
      && (forall k, g | k in r && g != b :: Count(r[k].buffers, g) == Count(memories[k].buffers, g))
      && (forall k | k in r :: r[k].images == memories[k].images)
  {
    BindCounts(BufferLists(memories), b, m, offset, ());
  }

  /** The same for an image, whose entry also carries what its bind info's chain said. */
  lemma BoundImageInOneList(memories: map<Handle, MemoryRecord>, i: Handle, m: Handle, offset: u64, extra: AdditionalImageMemory)
    requires m == NULL_HANDLE || m in memories
    ensures var r := WithImageLists(memories, Bind(ImageLists(memories), i, m, offset, extra));
      && (forall k | k in r :: Count(r[k].images, i) == if k == m && m != NULL_HANDLE then 1 else 0)
      && (m != NULL_HANDLE ==> Binding(i, offset, extra) in r[m].images)
      && (forall k, g | k in r && g != i :: Count(r[k].images, g) == Count(memories[k].images, g))
      && (forall k | k in r :: r[k].buffers == memories[k].buffers)
  {
    BindCounts(ImageLists(memories), i, m, offset, extra);
  }

  // ---------------------------------------------------------------------
  // Erase helpers

  /**
   * EraseBufferMapEntry: a tracked buffer loses its record and every
   * binding entry; an untracked one changes nothing.
   */
  method EraseBufferEntry(buffers: map<Handle, BufferRecord>, memories: map<Handle, MemoryRecord>, b: Handle)
    returns (buffers': map<Handle, BufferRecord>, memories': map<Handle, MemoryRecord>)
    ensures b in buffers ==> buffers' == buffers - {b} && memories' == WithBufferLists(memories, Strip(BufferLists(memories), b))
    ensures b !in buffers ==> buffers' == buffers && memories' == memories
  {
    buffers', memories' := buffers, memories;
    if b in buffers {
      buffers' := buffers - {b};
      var lists := StripLists(BufferLists(memories), b);
      memories' := WithBufferLists(memories, lists);
    }
  }

  /** EraseImageMapEntry, the same for images. */
  method EraseImageEntry(images: map<Handle, ImageRecord>, memories: map<Handle, MemoryRecord>, i: Handle)
    returns (images': map<Handle, ImageRecord>, memories': map<Handle, MemoryRecord>)
    ensures i in images ==> images' == images - {i} && memories' == WithImageLists(memories, Strip(ImageLists(memories), i))
    ensures i !in images ==> images' == images && memories' == memories
  {
    images', memories' := images, memories;
    if i in images {
      images' := images - {i};
      var lists := StripLists(ImageLists(memories), i);
      memories' := WithImageLists(memories, lists);
    }
  }

  /**
   * After erasing buffer `b` no list names it, every other resource keeps its
   * entries, image lists and allocation data are untouched, and the lists
   * stay exclusive.
   */
  lemma EraseBufferClears(memories: map<Handle, MemoryRecord>, b: Handle)
    requires BindingsExclusive(memories)
    ensures var r := WithBufferLists(memories, Strip(BufferLists(memories), b));
      && (forall m | m in r :: Count(r[m].buffers, b) == 0)
      && (forall m, g | m in r && g != b :: Count(r[m].buffers, g) == Count(memories[m].buffers, g))
      && (forall m | m in r :: r[m].images == memories[m].images && r[m].(buffers := []) == memories[m].(buffers := []))
      && BindingsExclusive(r)
  {
    StripCounts(BufferLists(memories), b);
    StripPreservesExclusive(BufferLists(memories), b);
  }

  lemma EraseImageClears(memories: map<Handle, MemoryRecord>, i: Handle)
    requires BindingsExclusive(memories)
    ensures var r := WithImageLists(memories, Strip(ImageLists(memories), i));
      && (forall m | m in r :: Count(r[m].images, i) == 0)
      && (forall m, g | m in r && g != i :: Count(r[m].images, g) == Count(memories[m].images, g))
      && (forall m | m in r :: r[m].buffers == memories[m].buffers && r[m].(images := []) == memories[m].(images := []))
      && BindingsExclusive(r)
  {
    StripCounts(ImageLists(memories), i);
    StripPreservesExclusive(ImageLists(memories), i);
  }

  /** The descriptors a device did not import. */
  function FdsNotOf(fds: map<int, ExternalFdRecord>, device: Handle): (r: map<int, ExternalFdRecord>)
    ensures forall fd :: fd in r <==> fd in fds && fds[fd].device != device
    ensures forall fd | fd in r :: r[fd] == fds[fd]
  {
    map fd | fd in fds && fds[fd].device != device :: fds[fd]
  }

  /** The descriptors none of the devices `ds` imported. */
  function FdsNotOfAny(fds: map<int, ExternalFdRecord>, ds: set<Handle>): (r: map<int, ExternalFdRecord>)
    ensures forall fd :: fd in r <==> fd in fds && fds[fd].device !in ds
    ensures forall fd | fd in r :: r[fd] == fds[fd]
  {
    map fd | fd in fds && fds[fd].device !in ds :: fds[fd]
  }

  /** Erasing one more device's descriptors extends the set of devices erased. */
  lemma FdsNotOfAnyStep(fds: map<int, ExternalFdRecord>, ds: set<Handle>, d: Handle)
    ensures FdsNotOf(FdsNotOfAny(fds, ds), d) == FdsNotOfAny(fds, ds + {d})
  {
    assert FdsNotOf(FdsNotOfAny(fds, ds), d).Keys == FdsNotOfAny(fds, ds + {d}).Keys;
  }

  /**
   * EraseExternalMemFdMapEntries: erase one entry of the device, restart the
   * scan, until a scan finds none.
   */
  method EraseExternalMemFds(fds: map<int, ExternalFdRecord>, device: Handle) returns (r: map<int, ExternalFdRecord>)
    ensures r == FdsNotOf(fds, device)
  {
    r := fds;
    while exists fd :: fd in r && r[fd].device == device
      invariant r.Keys <= fds.Keys
      invariant forall fd | fd in r :: r[fd] == fds[fd]
      invariant forall fd | fd in fds && fds[fd].device != device :: fd in r
      decreases |r|
    {
      var fd :| fd in r && r[fd].device == device;
      r := r - {fd};
    }
    var expected := FdsNotOf(fds, device);
    forall fd
      ensures fd in r <==> fd in expected
    {
      if fd in r {
        assert r[fd].device != device;
      }
    }
    assert r.Keys == expected.Keys;
    assert forall fd | fd in r :: r[fd] == expected[fd];
  }

  /**
   * The device loop of vkDestroyInstance: each device of `ds` is erased
   * together with the descriptors it imported, in any order.
   */
  method EraseDevices<D>(devices: map<Handle, D>, fds: map<int, ExternalFdRecord>, ds: set<Handle>)
    returns (remaining: map<Handle, D>, kept: map<int, ExternalFdRecord>)
    requires ds <= devices.Keys
    ensures remaining == devices - ds && kept == FdsNotOfAny(fds, ds)
  {
    remaining, kept := devices, fds;
    var todo := ds;
    ghost var done: set<Handle> := {};
    assert FdsNotOfAny(fds, {}) == kept;
    while todo != {}
      invariant todo <= ds && done == ds - todo
      invariant remaining == devices - done && kept == FdsNotOfAny(fds, done)
      decreases |todo|
    {
      var d :| d in todo;
      kept := EraseExternalMemFds(kept, d);
      remaining := remaining - {d};
      FdsNotOfAnyStep(fds, done, d);
      assert devices - done - {d} == devices - (done + {d});
      todo := todo - {d};
      done := done + {d};
    }
  }

  // ---------------------------------------------------------------------
  // vkBindImageMemory2

  /** One VkBindImageMemoryInfo: the image, the memory, the offset and the info's own chain. */
  datatype ImageBindInfo = ImageBindInfo(image: Handle, memory: Handle, offset: u64, chain: seq<ChainStruct>)

  /** The bind requests the infos make, each image entry carrying what its chain says. */
  function ImageRequests(infos: seq<ImageBindInfo>): (r: seq<BindRequest<AdditionalImageMemory>>)
    ensures |r| == |infos|
    ensures forall i | 0 <= i < |infos| ::
      r[i] == BindRequest(infos[i].image, infos[i].memory, infos[i].offset, ImageMemoryReference(infos[i].chain))
  {
    seq(|infos|, i requires 0 <= i < |infos| =>
      BindRequest(infos[i].image, infos[i].memory, infos[i].offset, ImageMemoryReference(infos[i].chain)))
  }

  /**
   * The loop over the bind infos of vkBindImageMemory2: the same as for
   * buffers, with each info's chain walked only when it binds a non-null
   * image to non-null memory.
   */
  method BindImagesInOrder(lists: Lists<AdditionalImageMemory>, infos: seq<ImageBindInfo>) returns (r: Lists<AdditionalImageMemory>)
    requires MemoriesKnown(lists, ImageRequests(infos))
    ensures r == ApplyBinds(lists, ImageRequests(infos))
  {
    var requests := ImageRequests(infos);
    MemoriesKnownPrefixes(lists, requests);
    r := lists;
    for i := 0 to |infos|
      invariant r == ApplyBinds(lists, requests[..i])
    {
      assert requests[..i + 1][..i] == requests[..i];
      var info := infos[i];
      if info.image != NULL_HANDLE {
        r := StripLists(r, info.image);
        if info.memory != NULL_HANDLE {
          var extra := Walk(NO_ADDITIONAL_IMAGE_MEMORY, ImageMemoryStep, info.chain);
          ImageMemoryWalkMatchesReference(info.chain);
          r := r[info.memory := r[info.memory] + [Binding(info.image, info.offset, extra)]];
        }
      }
    }
    assert requests[..|infos|] == requests;
  }

  // ---------------------------------------------------------------------
  // vkEnumeratePhysicalDeviceGroups

  /** The physical devices of all groups, group by group. */
  function Flatten(groups: seq<seq<Handle>>): (r: seq<Handle>)
  {
    if |groups| == 0 then [] else Flatten(groups[..|groups| - 1]) + groups[|groups| - 1]
  }

  /** A physical device is in the flattened list exactly when some group holds it. */
  lemma {:induction false} FlattenHas(groups: seq<seq<Handle>>, p: Handle)
    ensures p in Flatten(groups) <==> exists i :: 0 <= i < |groups| && p in groups[i]
    decreases |groups|
  {
    if |groups| > 0 {
      var prefix := groups[..|groups| - 1];
      FlattenHas(prefix, p);
      assert forall i | 0 <= i < |prefix| :: prefix[i] == groups[i];
    }
  }
}
