/**
 * The part of the Vulkan API the renderer talks to, as values: handles, flag
 * bits, formats and layouts, the commands recorded into a command buffer, the
 * calls made on the device, and the abstract state of a device.  The device
 * itself (the object whose state these calls change) is the class Device.Gpu.
 */
module Vulkan {

  datatype Option<T> = None | Some(value: T)

  /** The outcome of an operation that throws on failure: the value, or the exception's message. */
  datatype Result<T> = Success(value: T) | Failure(error: string)

  /** A non-dispatchable Vulkan handle; 0 stands for VK_NULL_HANDLE. */
  type Handle = nat
  const NullHandle: Handle := 0

  /** A host pointer as returned by vkMapMemory; 0 stands for nullptr. */
  type Ptr = nat
  const NullPtr: Ptr := 0

  type Flags = bv32

  /** Every bit of `want` is set in `have`. */
  predicate HasFlags(have: Flags, want: Flags)
  {
    have & want == want
  }

  lemma {:induction false} HasFlagsTrans(a: Flags, b: Flags, c: Flags)
    requires HasFlags(a, b) && HasFlags(b, c)
    ensures HasFlags(a, c)
  {
  }
  type Byte = bv8

  /** A 32-bit IEEE-754 float, kept as its bit pattern (no float arithmetic is modelled). */
  type Float32 = bv32

  // VkMemoryPropertyFlagBits
  const MEMORY_PROPERTY_DEVICE_LOCAL: Flags := 0x1
  const MEMORY_PROPERTY_HOST_VISIBLE: Flags := 0x2
  const MEMORY_PROPERTY_HOST_COHERENT: Flags := 0x4

  // VkBufferUsageFlagBits (VK_BUFFER_USAGE_2_TRANSFER_SRC_BIT has the same value as the first)
  const BUFFER_USAGE_TRANSFER_SRC: Flags := 0x1
  const BUFFER_USAGE_TRANSFER_DST: Flags := 0x2
  const BUFFER_USAGE_UNIFORM_BUFFER: Flags := 0x10
  const BUFFER_USAGE_STORAGE_BUFFER: Flags := 0x20
  const BUFFER_USAGE_VERTEX_BUFFER: Flags := 0x80

  // VkImageUsageFlagBits
  const IMAGE_USAGE_TRANSFER_DST: Flags := 0x2
  const IMAGE_USAGE_SAMPLED: Flags := 0x4
  const IMAGE_USAGE_DEPTH_STENCIL_ATTACHMENT: Flags := 0x20

  // VkFormatFeatureFlagBits
  const FORMAT_FEATURE_DEPTH_STENCIL_ATTACHMENT: Flags := 0x200

  /** VK_MAX_MEMORY_TYPES: a physical device reports at most this many memory types. */
  const MaxMemoryTypes: nat := 32

  /** One entry of VkPhysicalDeviceMemoryProperties::memoryTypes. */
  datatype MemoryType = MemoryType(propertyFlags: Flags, heapIndex: nat)

  /** What vkGet{Buffer,Image}MemoryRequirements reports. */
  datatype MemoryRequirements = MemoryRequirements(size: nat, alignment: nat, memoryTypeBits: Flags)

  /** The formats the renderer names. */
  datatype Format = FormatUndefined | R8G8B8A8Unorm | R8G8B8A8Srgb | D32Sfloat | X8D24UnormPack32

  /** vkuFormatTexelBlockSize: bytes per texel block (0 for VK_FORMAT_UNDEFINED). */
  function TexelBlockSize(f: Format): nat
  {
    if f == FormatUndefined then 0 else 4
  }

  /** vkuFormatTexelsPerBlock: texels per block (0 for VK_FORMAT_UNDEFINED). */
  function TexelsPerBlock(f: Format): nat
  {
    if f == FormatUndefined then 0 else 1
  }

  datatype Tiling = Optimal | Linear | DrmFormatModifier

  /** VkFormatProperties, as reported by vkGetPhysicalDeviceFormatProperties. */
  datatype FormatProperties = FormatProperties(linearTilingFeatures: Flags, optimalTilingFeatures: Flags, bufferFeatures: Flags)

  datatype Extent2D = Extent2D(width: nat, height: nat)

  /** Size in bytes of the texel data of a single-level, single-layer image. */
  function ImageBytes(extent: Extent2D, format: Format): nat
  {
    if TexelsPerBlock(format) == 0 then 0
    else Product(Product(extent.width, extent.height), TexelBlockSize(format)) / TexelsPerBlock(format)
  }

  /** a * b as repeated addition, which keeps image sizes linear for the solver (ProductIsMul gives the product). */
  function Product(a: nat, b: nat): nat
  {
    if a == 0 then 0 else b + Product(a - 1, b)
  }

  lemma {:induction false} ProductIsMul(a: nat, b: nat)
    ensures Product(a, b) == a * b
  {
    if a != 0 {
      ProductIsMul(a - 1, b);
    }
  }

  /** ImageBytes is width * height * bytes per block / texels per block. */
  lemma {:induction false} ImageBytesIs(extent: Extent2D, format: Format)
    ensures ImageBytes(extent, format)
         == if TexelsPerBlock(format) == 0 then 0 else extent.width * extent.height * TexelBlockSize(format) / TexelsPerBlock(format)
  {
    ProductIsMul(extent.width, extent.height);
    ProductIsMul(extent.width * extent.height, TexelBlockSize(format));
  }

  datatype ImageLayout = LayoutUndefined | TransferDstOptimal | ShaderReadOnlyOptimal

  datatype PipelineStage = TopOfPipe | Transfer | VertexInput | FragmentShader | ColorAttachmentOutput

  datatype Access = NoAccess | TransferWrite | ShaderRead | MemoryWrite | MemoryRead

  datatype ShaderStages = VertexStage | FragmentStage | VertexAndFragmentStages

  /** The three graphics pipelines (and their layouts) the renderer binds. */
  datatype Pipeline = BackgroundPipeline | LinesPipeline | ObjectsPipeline

  /** A command recorded into a command buffer with vkCmd*. */
  datatype Cmd =
    | CopyBuffer(src: Handle, dst: Handle, srcOffset: nat, dstOffset: nat, size: nat)
    | CopyBufferToImage(src: Handle, image: Handle, dstLayout: ImageLayout, bufferOffset: nat,
                        bufferRowLength: nat, bufferImageHeight: nat, imageExtent: Extent2D)
    | MemoryBarrier(srcStage: PipelineStage, dstStage: PipelineStage, srcAccess: Access, dstAccess: Access)
    | ImageBarrier(srcStage: PipelineStage, dstStage: PipelineStage, srcAccess: Access, dstAccess: Access,
                   image: Handle, oldLayout: ImageLayout, newLayout: ImageLayout)
    | BeginRenderPass(renderPass: Handle, framebuffer: Handle, renderArea: Extent2D)
    | SetScissor(scissor: Extent2D)
    | SetViewport(viewport: Extent2D)
    | BindPipeline(pipeline: Pipeline)
    | BindVertexBuffer(buffer: Handle)
    | BindDescriptorSets(layout: Pipeline, firstSet: nat, sets: seq<Handle>)
    | PushConstants(layout: Pipeline, stages: ShaderStages, size: nat)
    | Draw(vertexCount: nat, instanceCount: nat, firstVertex: nat, firstInstance: nat)
    | EndRenderPass

  datatype DescriptorType = UniformBuffer | StorageBuffer | CombinedImageSampler

  /** What a descriptor set's binding 0 refers to. */
  datatype DescriptorBinding =
    | Unwritten
    | BufferRange(buffer: Handle, offset: nat, range: nat)
    | ImageSampler(view: Handle, sampler: Handle, layout: ImageLayout)

  /** Handle-only objects whose contents the model does not look into. */
  datatype ObjectKind = CommandPool | ImageView | Sampler | Framebuffer | RenderPass

  /** One batch given to vkQueueSubmit. */
  datatype Submission = Submission(commandBuffer: Handle, cmds: seq<Cmd>, waitSemaphores: seq<Handle>,
                                   waitStages: seq<PipelineStage>, signalSemaphores: seq<Handle>, fence: Handle)

  /** A call made on the device, in the order made. */
  datatype Call =
    | VkAllocateMemory(memory: Handle, size: nat, typeIndex: nat)
    | VkMapMemory(memory: Handle)
    | VkUnmapMemory(memory: Handle)
    | VkFreeMemory(memory: Handle)
    | VkCreateBuffer(buffer: Handle, size: nat, usage: Flags)
    | VkBindBufferMemory(buffer: Handle, memory: Handle, offset: nat)
    | VkDestroyBuffer(buffer: Handle)
    | VkCreateImage(image: Handle, extent: Extent2D, format: Format, tiling: Tiling, usage: Flags)
    | VkBindImageMemory(image: Handle, memory: Handle, offset: nat)
    | VkDestroyImage(image: Handle)
    | VkHostWrite(memory: Handle, offset: nat, bytes: seq<Byte>)
    | VkCreateObject(kind: ObjectKind, handle: Handle)
    | VkDestroyObject(kind: ObjectKind, handle: Handle)
    | VkCreateDescriptorPool(pool: Handle, capacity: PoolCounts)
    | VkDestroyDescriptorPool(pool: Handle)
    | VkAllocateDescriptorSet(pool: Handle, descriptorSet: Handle, descriptorType: DescriptorType)
    | VkWriteDescriptorSet(descriptorSet: Handle, binding: DescriptorBinding)
    | VkAllocateCommandBuffer(pool: Handle, commandBuffer: Handle)
    | VkFreeCommandBuffer(commandBuffer: Handle)
    | VkResetCommandBuffer(commandBuffer: Handle)
    | VkBeginCommandBuffer(commandBuffer: Handle, oneTimeSubmit: bool)
    | VkEndCommandBuffer(commandBuffer: Handle)
    | VkQueueSubmit(submission: Submission)
    | VkQueueWaitIdle
    | VkDeviceWaitIdle

  datatype MemoryBlock = MemoryBlock(size: nat, typeIndex: nat, mapped: Ptr)

  datatype BufferObject = BufferObject(size: nat, usage: Flags, memory: Handle, memoryOffset: nat, data: seq<Byte>)

  datatype ImageObject = ImageObject(extent: Extent2D, format: Format, tiling: Tiling, usage: Flags,
                                     memory: Handle, layout: ImageLayout, data: seq<Byte>)

  datatype Phase = Initial | Recording | Executable | Invalid

  datatype CommandBuffer = CommandBuffer(pool: Handle, phase: Phase, oneTimeSubmit: bool, cmds: seq<Cmd>)

  /** Numbers of sets and of descriptors of each type (a descriptor pool's capacity or its use). */
  datatype PoolCounts = PoolCounts(sets: nat, uniformBuffers: nat, storageBuffers: nat, imageSamplers: nat)

  datatype DescriptorPool = DescriptorPool(capacity: PoolCounts, used: PoolCounts)

  datatype DescriptorSet = DescriptorSet(pool: Handle, descriptorType: DescriptorType, binding: DescriptorBinding)

  /** The abstract state of one device: its live objects and every call made so far. */
  datatype State = State(
    memory: map<Handle, MemoryBlock>,
    buffers: map<Handle, BufferObject>,
    images: map<Handle, ImageObject>,
    commandBuffers: map<Handle, CommandBuffer>,
    pools: map<Handle, DescriptorPool>,
    descriptorSets: map<Handle, DescriptorSet>,
    objects: map<Handle, ObjectKind>,
    calls: seq<Call>)

  /** `n` zero bytes. */
  function Zeros(n: nat): (r: seq<Byte>)
    ensures |r| == n
    ensures forall i | 0 <= i < n :: r[i] == 0
  {
    seq(n, _ => 0)
  }

  /** `d` with the bytes from `off` on replaced by `bytes`. */
  function Splice(d: seq<Byte>, off: nat, bytes: seq<Byte>): (r: seq<Byte>)
    requires off + |bytes| <= |d|
    ensures |r| == |d|
    ensures r[off..off + |bytes|] == bytes
    ensures r[..off] == d[..off] && r[off + |bytes|..] == d[off + |bytes|..]
  {
    d[..off] + bytes + d[off + |bytes|..]
  }

  /** Little-endian bytes of a 32-bit word, as the host writes it to memory. */
  function Word(w: bv32): (r: seq<Byte>)
    ensures |r| == 4
  {
    [(w & 0xFF) as Byte, ((w >> 8) & 0xFF) as Byte, ((w >> 16) & 0xFF) as Byte, ((w >> 24) & 0xFF) as Byte]
  }

  /** The bytes of consecutive 32-bit words. */
  function Words(ws: seq<bv32>): (r: seq<Byte>)
    ensures |r| == 4 * |ws|
  {
    if ws == [] then [] else Word(ws[0]) + Words(ws[1..])
  }

  /**
   * vkCmdCopyBuffer: copies `n` bytes when both ranges lie inside their buffers and the
   * buffers were created for transfer; a copy that breaks those rules has no effect here.
   */
  function RunCopyBuffer(s: State, src: Handle, dst: Handle, so: nat, dof: nat, n: nat): State
  {
    if src in s.buffers && dst in s.buffers
       && HasFlags(s.buffers[src].usage, BUFFER_USAGE_TRANSFER_SRC) && HasFlags(s.buffers[dst].usage, BUFFER_USAGE_TRANSFER_DST)
       && so + n <= |s.buffers[src].data| && dof + n <= |s.buffers[dst].data|
    then
      var b := s.buffers[dst];
      s.(buffers := s.buffers[dst := b.(data := Splice(b.data, dof, s.buffers[src].data[so..so + n]))])
    else s
  }

  /** An image memory barrier's layout transition; an old layout of UNDEFINED accepts any current layout. */
  function RunImageBarrier(s: State, img: Handle, oldLayout: ImageLayout, newLayout: ImageLayout): State
  {
    if img in s.images && (oldLayout == LayoutUndefined || s.images[img].layout == oldLayout)
    then s.(images := s.images[img := s.images[img].(layout := newLayout)])
    else s
  }

  /**
   * vkCmdCopyBufferToImage of one tightly packed region covering the whole image, which must
   * be in TRANSFER_DST_OPTIMAL layout and created for transfer; otherwise no effect here.
   */
  function RunCopyBufferToImage(s: State, src: Handle, img: Handle, layout: ImageLayout, off: nat,
                                rowLength: nat, imageHeight: nat, extent: Extent2D): State
  {
    if src in s.buffers && img in s.images
       && HasFlags(s.buffers[src].usage, BUFFER_USAGE_TRANSFER_SRC) && HasFlags(s.images[img].usage, IMAGE_USAGE_TRANSFER_DST)
       && layout == TransferDstOptimal && s.images[img].layout == TransferDstOptimal
       && extent == s.images[img].extent && rowLength == extent.width && imageHeight == extent.height
       && off + |s.images[img].data| <= |s.buffers[src].data|
    then
      var i := s.images[img];
      s.(images := s.images[img := i.(data := s.buffers[src].data[off..off + |i.data|])])
    else s
  }

  /** The effect one recorded command has on device memory when the queue executes it. */
  function RunCmd(c: Cmd, s: State): State
  {
    match c
    case CopyBuffer(src, dst, so, dof, n) => RunCopyBuffer(s, src, dst, so, dof, n)
    case ImageBarrier(_, _, _, _, img, oldLayout, newLayout) => RunImageBarrier(s, img, oldLayout, newLayout)
    case CopyBufferToImage(src, img, layout, off, rowLength, imageHeight, extent) =>
      RunCopyBufferToImage(s, src, img, layout, off, rowLength, imageHeight, extent)
    case _ => s
  }

  /** The effect of executing `cmds` in order. */
  function RunCmds(cmds: seq<Cmd>, s: State): State
  {
    if cmds == [] then s else RunCmds(cmds[1..], RunCmd(cmds[0], s))
  }

  /** Same buffer but for its contents. */
  predicate SameBufferShape(a: BufferObject, b: BufferObject)
  {
    a.size == b.size && a.usage == b.usage && a.memory == b.memory && a.memoryOffset == b.memoryOffset
    && |a.data| == |b.data|
  }

  /** Same image but for its contents and layout. */
  predicate SameImageShape(a: ImageObject, b: ImageObject)
  {
    a.extent == b.extent && a.format == b.format && a.tiling == b.tiling && a.usage == b.usage
    && a.memory == b.memory && |a.data| == |b.data|
  }

  /** `s1` has the same objects as `s0`, all of the same sizes and bindings; only memory contents and image layouts may differ. */
  ghost predicate SameShape(s0: State, s1: State)
  {
    && s1.memory == s0.memory
    && s1.buffers.Keys == s0.buffers.Keys
    && (forall b | b in s0.buffers :: SameBufferShape(s0.buffers[b], s1.buffers[b]))
    && s1.images.Keys == s0.images.Keys
    && (forall i | i in s0.images :: SameImageShape(s0.images[i], s1.images[i]))
    && s1.commandBuffers == s0.commandBuffers
    && s1.pools == s0.pools
    && s1.descriptorSets == s0.descriptorSets
    && s1.objects == s0.objects
    && s1.calls == s0.calls
  }

  lemma {:induction false} SameShapeTrans(s0: State, s1: State, s2: State)
    requires SameShape(s0, s1) && SameShape(s1, s2)
    ensures SameShape(s0, s2)
  {
  }

  lemma {:induction false} UpdateBufferSameShape(s: State, h: Handle, b: BufferObject)
    requires h in s.buffers && SameBufferShape(s.buffers[h], b)
    ensures SameShape(s, s.(buffers := s.buffers[h := b]))
  {
    var s1 := s.(buffers := s.buffers[h := b]);
    assert s1.buffers.Keys == s.buffers.Keys;
  }

  lemma {:induction false} UpdateImageSameShape(s: State, h: Handle, i: ImageObject)
    requires h in s.images && SameImageShape(s.images[h], i)
    ensures SameShape(s, s.(images := s.images[h := i]))
  {
    var s1 := s.(images := s.images[h := i]);
    assert s1.images.Keys == s.images.Keys;
  }

  lemma {:induction false} CopyBufferSameShape(s: State, src: Handle, dst: Handle, so: nat, dof: nat, n: nat)
    ensures SameShape(s, RunCopyBuffer(s, src, dst, so, dof, n))
  {
    if RunCopyBuffer(s, src, dst, so, dof, n) != s {
      var b := s.buffers[dst];
      UpdateBufferSameShape(s, dst, b.(data := Splice(b.data, dof, s.buffers[src].data[so..so + n])));
    }
  }

  lemma {:induction false} ImageBarrierSameShape(s: State, img: Handle, oldLayout: ImageLayout, newLayout: ImageLayout)
    ensures SameShape(s, RunImageBarrier(s, img, oldLayout, newLayout))
  {
    if img in s.images && (oldLayout == LayoutUndefined || s.images[img].layout == oldLayout) {
      UpdateImageSameShape(s, img, s.images[img].(layout := newLayout));
    }
  }

  lemma {:induction false} CopyBufferToImageSameShape(s: State, src: Handle, img: Handle, layout: ImageLayout, off: nat,
                                   rowLength: nat, imageHeight: nat, extent: Extent2D)
    ensures SameShape(s, RunCopyBufferToImage(s, src, img, layout, off, rowLength, imageHeight, extent))
  {
    if RunCopyBufferToImage(s, src, img, layout, off, rowLength, imageHeight, extent) != s {
      var i := s.images[img];
      UpdateImageSameShape(s, img, i.(data := s.buffers[src].data[off..off + |i.data|]));
    }
  }

  lemma {:induction false} RunCmdSameShape(c: Cmd, s: State)
    ensures SameShape(s, RunCmd(c, s))
  {
    if c.CopyBuffer? {
      CopyBufferSameShape(s, c.src, c.dst, c.srcOffset, c.dstOffset, c.size);
    } else if c.ImageBarrier? {
      ImageBarrierSameShape(s, c.image, c.oldLayout, c.newLayout);
    } else if c.CopyBufferToImage? {
      CopyBufferToImageSameShape(s, c.src, c.image, c.dstLayout, c.bufferOffset, c.bufferRowLength,
                                 c.bufferImageHeight, c.imageExtent);
    } else {
      assert RunCmd(c, s) == s;
    }
  }

  /** Executing commands never creates, destroys, resizes or rebinds anything. */
  lemma {:induction false} RunCmdsSameShape(cmds: seq<Cmd>, s: State)
    ensures SameShape(s, RunCmds(cmds, s))
  {
    if cmds != [] {
      var s1 := RunCmd(cmds[0], s);
      RunCmdSameShape(cmds[0], s);
      RunCmdsSameShape(cmds[1..], s1);
      SameShapeTrans(s, s1, RunCmds(cmds[1..], s1));
    }
  }

  /**
   * Between `s0` and `s1` the object `h`, if it existed, survives unchanged in everything but
   * its contents (buffer and image bytes, image layout, descriptor-pool usage, command-buffer
   * recording).
   */
  ghost predicate Kept(s0: State, s1: State, h: Handle)
  {
    && (h in s0.memory ==> h in s1.memory && s1.memory[h] == s0.memory[h])
    && (h in s0.buffers ==>
          h in s1.buffers && s1.buffers[h].size == s0.buffers[h].size
          && s1.buffers[h].usage == s0.buffers[h].usage && s1.buffers[h].memory == s0.buffers[h].memory
          && s1.buffers[h].memoryOffset == s0.buffers[h].memoryOffset)
    && (h in s0.images ==>
          h in s1.images && s1.images[h].extent == s0.images[h].extent && s1.images[h].format == s0.images[h].format
          && s1.images[h].memory == s0.images[h].memory)
    && (h in s0.commandBuffers ==> h in s1.commandBuffers && s1.commandBuffers[h] == s0.commandBuffers[h])
    && (h in s0.pools ==> h in s1.pools && s1.pools[h].capacity == s0.pools[h].capacity)
    && (h in s0.descriptorSets ==> h in s1.descriptorSets && s1.descriptorSets[h] == s0.descriptorSets[h])
    && (h in s0.objects ==> h in s1.objects && s1.objects[h] == s0.objects[h])
  }

  /** Between `s0` and `s1` every object not in `gone` is kept, and calls were only appended. */
  ghost predicate Stable(s0: State, s1: State, gone: set<Handle>)
  {
    && (forall h {:trigger Kept(s0, s1, h)} | h !in gone :: Kept(s0, s1, h))
    && s0.calls <= s1.calls
  }

  lemma {:induction false} StableTrans(s0: State, s1: State, s2: State, g1: set<Handle>, g2: set<Handle>)
    requires Stable(s0, s1, g1) && Stable(s1, s2, g2)
    ensures Stable(s0, s2, g1 + g2)
  {
    forall h | h !in g1 + g2
      ensures Kept(s0, s2, h)
    {
      assert Kept(s0, s1, h) && Kept(s1, s2, h);
    }
  }

  lemma {:induction false} StableGrow(s0: State, s1: State, g1: set<Handle>, g2: set<Handle>)
    requires Stable(s0, s1, g1) && g1 <= g2
    ensures Stable(s0, s1, g2)
  {
  }

  lemma {:induction false} SameShapeStable(s0: State, s1: State)
    requires SameShape(s0, s1)
    ensures Stable(s0, s1, {})
  {
  }

  lemma {:induction false} CopyBufferFrame(s: State, src: Handle, dst: Handle, so: nat, dof: nat, n: nat, cbs: map<Handle, CommandBuffer>, calls: seq<Call>)
    ensures RunCopyBuffer(s.(commandBuffers := cbs, calls := calls), src, dst, so, dof, n)
         == RunCopyBuffer(s, src, dst, so, dof, n).(commandBuffers := cbs, calls := calls)
  {
    assert s.(commandBuffers := cbs, calls := calls).buffers == s.buffers;
  }

  lemma {:induction false} ImageBarrierFrame(s: State, img: Handle, oldLayout: ImageLayout, newLayout: ImageLayout, cbs: map<Handle, CommandBuffer>, calls: seq<Call>)
    ensures RunImageBarrier(s.(commandBuffers := cbs, calls := calls), img, oldLayout, newLayout)
         == RunImageBarrier(s, img, oldLayout, newLayout).(commandBuffers := cbs, calls := calls)
  {
  }

  lemma {:induction false} CopyBufferToImageFrame(s: State, src: Handle, img: Handle, layout: ImageLayout, off: nat, rowLength: nat, imageHeight: nat,
                               extent: Extent2D, cbs: map<Handle, CommandBuffer>, calls: seq<Call>)
    ensures RunCopyBufferToImage(s.(commandBuffers := cbs, calls := calls), src, img, layout, off, rowLength, imageHeight, extent)
         == RunCopyBufferToImage(s, src, img, layout, off, rowLength, imageHeight, extent).(commandBuffers := cbs, calls := calls)
  {
  }

  /** Executing commands reads and writes only buffers and images, never command buffers or the call log. */
  lemma {:induction false} RunCmdFrame(c: Cmd, s: State, cbs: map<Handle, CommandBuffer>, calls: seq<Call>)
    ensures RunCmd(c, s.(commandBuffers := cbs, calls := calls)) == RunCmd(c, s).(commandBuffers := cbs, calls := calls)
  {
    if c.CopyBuffer? {
      CopyBufferFrame(s, c.src, c.dst, c.srcOffset, c.dstOffset, c.size, cbs, calls);
    } else if c.ImageBarrier? {
      ImageBarrierFrame(s, c.image, c.oldLayout, c.newLayout, cbs, calls);
    } else if c.CopyBufferToImage? {
      CopyBufferToImageFrame(s, c.src, c.image, c.dstLayout, c.bufferOffset, c.bufferRowLength, c.bufferImageHeight,
                             c.imageExtent, cbs, calls);
    } else {
      assert RunCmd(c, s) == s;
    }
  }

  lemma {:induction false} RunCmdsFrame(cmds: seq<Cmd>, s: State, cbs: map<Handle, CommandBuffer>, calls: seq<Call>)
    ensures RunCmds(cmds, s.(commandBuffers := cbs, calls := calls)) == RunCmds(cmds, s).(commandBuffers := cbs, calls := calls)
    decreases |cmds|
  {
    if cmds != [] {
      RunCmdFrame(cmds[0], s, cbs, calls);
      RunCmdsFrame(cmds[1..], RunCmd(cmds[0], s), cbs, calls);
    }
  }
}
