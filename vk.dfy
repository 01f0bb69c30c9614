// Vocabulary shared by both layers: dispatchable and non-dispatchable
// handles, result codes, fixed-width integers and extension names.

module Vk {

  /** A Vulkan handle; 0 stands for VK_NULL_HANDLE. */
  type Handle = nat

  const NULL_HANDLE: Handle := 0

  const U32_LIMIT: int := 0x1_0000_0000
  const U64_LIMIT: int := 0x1_0000_0000_0000_0000

  /** uint32_t */
  type u32 = x: int | 0 <= x < 0x1_0000_0000

  /** uint64_t, also VkDeviceSize */
  type u64 = x: int | 0 <= x < 0x1_0000_0000_0000_0000

  /** int32_t, as read from a layer setting of type int */
  type i32 = x: int | -0x8000_0000 <= x < 0x8000_0000

  /** Assignment of an arbitrary integer to a uint32_t. */
  function WrapU32(x: int): (r: u32)
    ensures 0 <= x < U32_LIMIT ==> r == x
    ensures (r - x) % U32_LIMIT == 0
  {
    x % U32_LIMIT
  }

  /** Assignment of an arbitrary integer to a uint64_t. */
  function WrapU64(x: int): (r: u64)
    ensures 0 <= x < U64_LIMIT ==> r == x
    ensures (r - x) % U64_LIMIT == 0
  {
    x % U64_LIMIT
  }

  datatype Option<T> = None | Some(value: T)

  /** The two layers share most of their code; where they differ, the model takes the layer as a parameter. */
  datatype LayerKind = MemoryTracker | SlowDeviceSimulator

  /** The VkResult codes the layers produce or test for. */
  datatype Result =
    | Success
    | NotReady
    | Timeout
    | Incomplete
    | ErrorOutOfDeviceMemory
    | ErrorInitializationFailed
    | ErrorLayerNotPresent
    | ErrorOther(code: int)

  /** VK_API_VERSION_MINOR: bits 12..21 of a packed version number. */
  function VersionMinor(version: u32): (minor: nat)
    ensures minor < 1024
    ensures version < 4096 ==> minor == 0
  {
    (version / 4096) % 1024
  }

  /** The members of VkPhysicalDeviceProperties the layers read: the API version, and the name, empty until a query. */
  datatype DeviceProperties = DeviceProperties(apiVersion: u32, deviceName: string)

  /** The memset-zeroed properties of a newly enumerated physical device. */
  const ZEROED_PROPERTIES := DeviceProperties(0, "")

  const VK_MAX_MEMORY_TYPES: nat := 32
  const VK_MAX_MEMORY_HEAPS: nat := 16

  // Extension names the layers look for.
  const KHR_DEVICE_GROUP_CREATION: string := "VK_KHR_device_group_creation"
  const KHR_EXTERNAL_MEMORY_CAPABILITIES: string := "VK_KHR_external_memory_capabilities"
  const KHR_GET_PHYSICAL_DEVICE_PROPERTIES_2: string := "VK_KHR_get_physical_device_properties2"
  const KHR_SYNCHRONIZATION_2: string := "VK_KHR_synchronization2"
  const KHR_EXTERNAL_MEMORY_FD: string := "VK_KHR_external_memory_fd"
  const EXT_MEMORY_BUDGET: string := "VK_EXT_memory_budget"
  const KHR_SWAPCHAIN: string := "VK_KHR_swapchain"
  const EXT_DISPLAY_CONTROL: string := "VK_EXT_display_control"
  const EXT_SWAPCHAIN_MAINTENANCE_1: string := "VK_EXT_swapchain_maintenance1"
}
