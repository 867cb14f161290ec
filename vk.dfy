// Vocabulary shared by every module of the model: Vulkan handles, result
// codes, image layouts, extents, and the Option / Result wrappers used where
// the engine reports failure.

module Vk {

  /** A Vulkan handle. 0 plays the role of VK_NULL_HANDLE. */
  type Handle = nat

  const NULL_HANDLE: Handle := 0

  /** Largest value of a uint32_t, used by the engine as "no index". */
  const UINT32_MAX: nat := 0xFFFF_FFFF

  datatype Option<T> = None | Some(value: T)

  /** An engine error: the message carried by the std::runtime_error it throws. */
  datatype Result<T> = Ok(value: T) | Err(message: string)

  datatype Extent2D = Extent2D(width: nat, height: nat)

  /** The VkImageLayout values the engine names; any other one is Other(code). */
  datatype ImageLayout =
    | Undefined
    | General
    | ColorAttachmentOptimal
    | DepthStencilAttachmentOptimal
    | DepthStencilReadOnlyOptimal
    | ShaderReadOnlyOptimal
    | TransferSrcOptimal
    | TransferDstOptimal
    | PresentSrc
    | OtherLayout(code: nat)

  /** The VkResult codes the engine distinguishes. */
  datatype VkResult =
    | Success
    | NotReady
    | Timeout
    | Suboptimal
    | ErrorOutOfHostMemory
    | ErrorOutOfDeviceMemory
    | ErrorFragmentedPool
    | ErrorOutOfPoolMemory
    | ErrorOutOfDate
    | ErrorDeviceLost
    | OtherResult(code: int)

  /**
   * VK_CHECK: the wrapped call goes on only when it returned VK_SUCCESS; any
   * other code throws, the non-error VK_SUBOPTIMAL_KHR, VK_NOT_READY and
   * VK_TIMEOUT included.
   */
  function Checked<T>(r: VkResult, value: T, what: string): (res: Result<T>)
    ensures res.Ok? <==> r == Success
    ensures res.Ok? ==> res.value == value
  {
    if r == Success then Ok(value) else Err(what)
  }
}
