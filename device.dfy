/**
 * The Vulkan device the renderer drives, as an object: every API entry point the
 * renderer calls is a method that changes the device's abstract state (`st`) exactly
 * as stated, and appends the call to the state's call log.  The queue executes a
 * submitted command buffer at once, so the effect of its commands is visible as soon
 * as `QueueSubmit` returns.
 */
module Device {
  import opened Vulkan

  /** Rounds `n` up to a multiple of `a` (no rounding for `a == 0`). */
  function RoundUp(n: nat, a: nat): (r: nat)
    ensures n <= r && (0 < a ==> r < n + a)
  {
    if a == 0 || n % a == 0 then n else n + (a - n % a)
  }

  /** Bit `i` of a 32-bit mask. */
  function TypeBit(i: nat): Flags
    requires i < 32
  {
    (1 as Flags) << i
  }

  /** Memory type `i` is allowed by a memoryTypeBits filter. */
  predicate HasBit(filter: Flags, i: nat)
    requires i < 32
  {
    filter & TypeBit(i) != 0
  }

  /** `h` names nothing alive in `s`, and is not VK_NULL_HANDLE. */
  ghost predicate Unused(s: State, h: Handle)
  {
    && h != NullHandle
    && h !in s.memory && h !in s.buffers && h !in s.images && h !in s.commandBuffers
    && h !in s.pools && h !in s.descriptorSets && h !in s.objects
  }

  /** Handles that were unused at the start need not be counted among those that went away. */
  lemma {:induction false} StableShrink(s0: State, s1: State, g1: set<Handle>, g2: set<Handle>)
    requires Stable(s0, s1, g1 + g2)
    requires forall h | h in g2 :: Unused(s0, h)
    ensures Stable(s0, s1, g1)
  {
  }

  /** Every live handle is below `next`, so `next` and anything above it is unused. */
  ghost predicate HandlesBelow(s: State, next: nat)
  {
    && (forall h | h in s.memory :: 0 < h < next)
    && (forall h | h in s.buffers :: 0 < h < next)
    && (forall h | h in s.images :: 0 < h < next)
    && (forall h | h in s.commandBuffers :: 0 < h < next)
    && (forall h | h in s.pools :: 0 < h < next)
    && (forall h | h in s.descriptorSets :: 0 < h < next)
    && (forall h | h in s.objects :: 0 < h < next)
  }

  /** Descriptor counts of `used` do not exceed `capacity`. */
  predicate Fits(used: PoolCounts, capacity: PoolCounts)
  {
    && used.sets <= capacity.sets && used.uniformBuffers <= capacity.uniformBuffers
    && used.storageBuffers <= capacity.storageBuffers && used.imageSamplers <= capacity.imageSamplers
  }

  /** `c` plus one set holding one descriptor of type `t`. */
  function AddSet(c: PoolCounts, t: DescriptorType): (r: PoolCounts)
    ensures r.sets == c.sets + 1
  {
    match t
    case UniformBuffer => c.(sets := c.sets + 1, uniformBuffers := c.uniformBuffers + 1)
    case StorageBuffer => c.(sets := c.sets + 1, storageBuffers := c.storageBuffers + 1)
    case CombinedImageSampler => c.(sets := c.sets + 1, imageSamplers := c.imageSamplers + 1)
  }

  /** The command buffers allocated from command pool `p`. */
  ghost function CommandBuffersOf(s: State, p: Handle): set<Handle>
  {
    set c | c in s.commandBuffers && s.commandBuffers[c].pool == p
  }

  /** The descriptor sets allocated from descriptor pool `p`. */
  ghost function DescriptorSetsOf(s: State, p: Handle): set<Handle>
  {
    set d | d in s.descriptorSets && s.descriptorSets[d].pool == p
  }

  /** The command buffers that outlive the destruction of command pool `p`. */
  function CommandBuffersOutside(buffers: map<Handle, CommandBuffer>, p: Handle): map<Handle, CommandBuffer>
  {
    map c | c in buffers && buffers[c].pool != p :: buffers[c]
  }

  /** The descriptor sets that outlive the destruction of descriptor pool `p`. */
  function SetsOutside(sets: map<Handle, DescriptorSet>, p: Handle): map<Handle, DescriptorSet>
  {
    map d | d in sets && sets[d].pool != p :: sets[d]
  }

  /** What vkUpdateDescriptorSets accepts for a set of type `t`. */
  ghost predicate BindingValid(s: State, t: DescriptorType, b: DescriptorBinding)
  {
    match t
    case UniformBuffer =>
      b.BufferRange? && b.buffer in s.buffers && b.offset + b.range <= s.buffers[b.buffer].size
      && HasFlags(s.buffers[b.buffer].usage, BUFFER_USAGE_UNIFORM_BUFFER)
    case StorageBuffer =>
      b.BufferRange? && b.buffer in s.buffers && b.offset + b.range <= s.buffers[b.buffer].size
      && HasFlags(s.buffers[b.buffer].usage, BUFFER_USAGE_STORAGE_BUFFER)
    case CombinedImageSampler =>
      b.ImageSampler? && b.view in s.objects && s.objects[b.view] == ImageView
      && b.sampler in s.objects && s.objects[b.sampler] == Sampler
  }

  lemma {:induction false} SubmitState(c: Handle, s0: State, s1: State, s2: State, s3: State)
    requires c in s0.commandBuffers
    requires s1 == s0.(commandBuffers := s0.commandBuffers[c := s0.commandBuffers[c].(phase := Executable)],
                       calls := s0.calls + [VkEndCommandBuffer(c)])
    requires var cb := s1.commandBuffers[c];
      s2 == RunCmds(cb.cmds, s1).(commandBuffers := s1.commandBuffers[c := cb.(phase := if cb.oneTimeSubmit then Invalid else Executable)],
                                  calls := s1.calls + [VkQueueSubmit(Submission(c, cb.cmds, [], [], [], NullHandle))])
    requires s3 == s2.(calls := s2.calls + [VkQueueWaitIdle])
    ensures var cb := s0.commandBuffers[c];
      s3 == RunCmds(cb.cmds, s0).(commandBuffers := s0.commandBuffers[c := cb.(phase := if cb.oneTimeSubmit then Invalid else Executable)],
                                  calls := s0.calls + [VkEndCommandBuffer(c), VkQueueSubmit(Submission(c, cb.cmds, [], [], [], NullHandle)), VkQueueWaitIdle])
  {
    var cb := s0.commandBuffers[c];
    var cb1 := s1.commandBuffers[c];
    assert cb1.cmds == cb.cmds && cb1.oneTimeSubmit == cb.oneTimeSubmit;
    var done := cb.(phase := if cb.oneTimeSubmit then Invalid else Executable);
    assert cb1.(phase := if cb1.oneTimeSubmit then Invalid else Executable) == done;
    assert s1.commandBuffers[c := done] == s0.commandBuffers[c := done];
    var r0 := RunCmds(cb.cmds, s0);
    RunCmdsFrame(cb.cmds, s0, s1.commandBuffers, s1.calls);
    assert RunCmds(cb.cmds, s1) == r0.(commandBuffers := s1.commandBuffers, calls := s1.calls);
    var calls := s0.calls + [VkEndCommandBuffer(c), VkQueueSubmit(Submission(c, cb.cmds, [], [], [], NullHandle)), VkQueueWaitIdle];
    assert s3.calls == calls;
    assert s3 == r0.(commandBuffers := s0.commandBuffers[c := done], calls := calls);
  }

  /** `s` after `cmds` are appended to command buffer `c`. */
  function Recorded(s: State, c: Handle, cmds: seq<Cmd>): State
    requires c in s.commandBuffers
  {
    s.(commandBuffers := s.commandBuffers[c := s.commandBuffers[c].(cmds := s.commandBuffers[c].cmds + cmds)])
  }

  lemma {:induction false} RecordedNothing(s: State, c: Handle)
    requires c in s.commandBuffers
    ensures Recorded(s, c, []) == s
  {
    assert s.commandBuffers[c].cmds + [] == s.commandBuffers[c].cmds;
    assert s.commandBuffers[c := s.commandBuffers[c]] == s.commandBuffers;
  }

  lemma {:induction false} RecordedTwice(s: State, c: Handle, a: seq<Cmd>, b: seq<Cmd>)
    requires c in s.commandBuffers
    ensures Recorded(Recorded(s, c, a), c, b) == Recorded(s, c, a + b)
  {
    assert s.commandBuffers[c].cmds + a + b == s.commandBuffers[c].cmds + (a + b);
  }

  /** The calls RunOneTime makes. */
  function OneTimeCalls(c: Handle, cmds: seq<Cmd>, reset: bool): seq<Call>
  {
    (if reset then [VkResetCommandBuffer(c)] else [])
    + [VkBeginCommandBuffer(c, true), VkEndCommandBuffer(c), VkQueueSubmit(Submission(c, cmds, [], [], [], NullHandle)), VkQueueWaitIdle]
  }

  lemma {:induction false} OneTimeState(c: Handle, cmds: seq<Cmd>, reset: bool, s0: State, s1: State, s2: State, s3: State, s4: State)
    requires c in s0.commandBuffers
    requires s1 == if reset then s0.(commandBuffers := s0.commandBuffers[c := s0.commandBuffers[c].(phase := Initial, cmds := [])],
                                     calls := s0.calls + [VkResetCommandBuffer(c)]) else s0
    requires s2 == s1.(commandBuffers := s1.commandBuffers[c := CommandBuffer(s1.commandBuffers[c].pool, Recording, true, [])],
                       calls := s1.calls + [VkBeginCommandBuffer(c, true)])
    requires s3 == Recorded(s2, c, cmds)
    requires var cb := s3.commandBuffers[c];
      s4 == RunCmds(cb.cmds, s3).(commandBuffers := s3.commandBuffers[c := cb.(phase := if cb.oneTimeSubmit then Invalid else Executable)],
                                  calls := s3.calls + [VkEndCommandBuffer(c), VkQueueSubmit(Submission(c, cb.cmds, [], [], [], NullHandle)), VkQueueWaitIdle])
    ensures s4 == RunCmds(cmds, s0).(commandBuffers := s0.commandBuffers[c := CommandBuffer(s0.commandBuffers[c].pool, Invalid, true, cmds)],
                                     calls := s0.calls + OneTimeCalls(c, cmds, reset))
  {
    var pool := s0.commandBuffers[c].pool;
    assert s3.commandBuffers[c] == CommandBuffer(pool, Recording, true, cmds);
    var done := CommandBuffer(pool, Invalid, true, cmds);
    assert s3.commandBuffers[c := done] == s0.commandBuffers[c := done];
    RunCmdsFrame(cmds, s0, s3.commandBuffers, s3.calls);
    assert s3 == s0.(commandBuffers := s3.commandBuffers, calls := s3.calls);
    assert s4.calls == s0.calls + OneTimeCalls(c, cmds, reset);
  }

  class Gpu {
    /** The next handle value the device hands out. */
    var next: nat
    /** Every live object of the device and the calls made so far. */
    ghost var st: State

    /** VkPhysicalDeviceMemoryProperties::memoryTypes (the first memoryTypeCount entries). */
    const memoryTypes: seq<MemoryType>
    /** vkGetPhysicalDeviceFormatProperties. */
    const formatProperties: Format -> FormatProperties
    /** The alignment and memoryTypeBits vkGet{Buffer,Image}MemoryRequirements report. */
    const bufferAlignment: nat
    const bufferMemoryTypeBits: Flags
    const imageAlignment: nat
    const imageMemoryTypeBits: Flags

    ghost predicate Valid()
      reads this
    {
      && 0 < next
      && |memoryTypes| <= MaxMemoryTypes
      && HandlesBelow(st, next)
      && (forall m | m in st.memory :: st.memory[m].typeIndex < |memoryTypes|)
      && (forall b | b in st.buffers :: |st.buffers[b].data| == st.buffers[b].size)
      && (forall i | i in st.images :: |st.images[i].data| == ImageBytes(st.images[i].extent, st.images[i].format))
    }

    constructor (memoryTypes: seq<MemoryType>, formatProperties: Format -> FormatProperties,
                 bufferAlignment: nat, bufferMemoryTypeBits: Flags, imageAlignment: nat, imageMemoryTypeBits: Flags)
      requires |memoryTypes| <= MaxMemoryTypes
      ensures Valid()
      ensures this.memoryTypes == memoryTypes && this.formatProperties == formatProperties
      ensures this.bufferAlignment == bufferAlignment && this.bufferMemoryTypeBits == bufferMemoryTypeBits
      ensures this.imageAlignment == imageAlignment && this.imageMemoryTypeBits == imageMemoryTypeBits
      ensures st == State(map[], map[], map[], map[], map[], map[], map[], [])
    {
      this.memoryTypes := memoryTypes;
      this.formatProperties := formatProperties;
      this.bufferAlignment := bufferAlignment;
      this.bufferMemoryTypeBits := bufferMemoryTypeBits;
      this.imageAlignment := imageAlignment;
      this.imageMemoryTypeBits := imageMemoryTypeBits;
      next := 1;
      st := State(map[], map[], map[], map[], map[], map[], map[], []);
    }

    /** vkGetBufferMemoryRequirements for a buffer of `size` bytes. */
    function BufferRequirements(size: nat): (r: MemoryRequirements)
      ensures size <= r.size && r.memoryTypeBits == bufferMemoryTypeBits
    {
      MemoryRequirements(RoundUp(size, bufferAlignment), bufferAlignment, bufferMemoryTypeBits)
    }

    /** vkGetImageMemoryRequirements for a single-level 2D image. */
    function ImageRequirements(extent: Extent2D, format: Format): (r: MemoryRequirements)
      ensures ImageBytes(extent, format) <= r.size && r.memoryTypeBits == imageMemoryTypeBits
    {
      MemoryRequirements(RoundUp(ImageBytes(extent, format), imageAlignment), imageAlignment, imageMemoryTypeBits)
    }

    /** Hands out a handle no live object has. */
    method NewHandle() returns (h: Handle)
      requires Valid()
      modifies this
      ensures Valid() && Unused(st, h) && st == old(st) && next == h + 1
    {
      h := next;
      next := next + 1;
    }

    method AllocateMemory(size: nat, typeIndex: nat) returns (m: Handle)
      requires Valid() && 0 < size && typeIndex < |memoryTypes|
      modifies this
      ensures Valid() && Unused(old(st), m)
      ensures st == old(st).(memory := old(st).memory[m := MemoryBlock(size, typeIndex, NullPtr)],
                             calls := old(st).calls + [VkAllocateMemory(m, size, typeIndex)])
      ensures Stable(old(st), st, {})
    {
      m := NewHandle();
      st := st.(memory := st.memory[m := MemoryBlock(size, typeIndex, NullPtr)],
                calls := st.calls + [VkAllocateMemory(m, size, typeIndex)]);
    }

    /** vkMapMemory of the whole allocation; only host-visible memory that is not mapped yet can be mapped. */
    method MapMemory(m: Handle) returns (p: Ptr)
      requires Valid() && m in st.memory && st.memory[m].mapped == NullPtr
      requires HasFlags(memoryTypes[st.memory[m].typeIndex].propertyFlags, MEMORY_PROPERTY_HOST_VISIBLE)
      modifies this
      ensures Valid() && p != NullPtr
      ensures st == old(st).(memory := old(st).memory[m := old(st).memory[m].(mapped := p)],
                             calls := old(st).calls + [VkMapMemory(m)])
      ensures Stable(old(st), st, {m})
    {
      p := next;
      next := next + 1;
      st := st.(memory := st.memory[m := st.memory[m].(mapped := p)], calls := st.calls + [VkMapMemory(m)]);
    }

    method UnmapMemory(m: Handle)
      requires Valid() && m in st.memory && st.memory[m].mapped != NullPtr
      modifies this
      ensures Valid()
      ensures st == old(st).(memory := old(st).memory[m := old(st).memory[m].(mapped := NullPtr)],
                             calls := old(st).calls + [VkUnmapMemory(m)])
      ensures Stable(old(st), st, {m})
    {
      st := st.(memory := st.memory[m := st.memory[m].(mapped := NullPtr)], calls := st.calls + [VkUnmapMemory(m)]);
    }

    /** vkFreeMemory; freeing VK_NULL_HANDLE does nothing. */
    method FreeMemory(m: Handle)
      requires Valid() && (m == NullHandle || m in st.memory)
      modifies this
      ensures Valid()
      ensures st == old(st).(memory := old(st).memory - {m}, calls := old(st).calls + [VkFreeMemory(m)])
      ensures Stable(old(st), st, {m})
    {
      st := st.(memory := st.memory - {m}, calls := st.calls + [VkFreeMemory(m)]);
    }

    /** vkCreateBuffer; a buffer's size must be positive.  Fresh contents read as zero. */
    method CreateBuffer(size: nat, usage: Flags) returns (b: Handle)
      requires Valid() && 0 < size
      modifies this
      ensures Valid() && Unused(old(st), b)
      ensures st == old(st).(buffers := old(st).buffers[b := BufferObject(size, usage, NullHandle, 0, Zeros(size))],
                             calls := old(st).calls + [VkCreateBuffer(b, size, usage)])
      ensures Stable(old(st), st, {})
    {
      b := NewHandle();
      st := st.(buffers := st.buffers[b := BufferObject(size, usage, NullHandle, 0, Zeros(size))],
                calls := st.calls + [VkCreateBuffer(b, size, usage)]);
    }

    /**
     * vkBindBufferMemory: the buffer must not be bound yet, the memory type must be one the
     * buffer accepts, and the memory must hold the required size from `offset` on.
     */
    method BindBufferMemory(b: Handle, m: Handle, offset: nat)
      requires Valid() && b in st.buffers && st.buffers[b].memory == NullHandle && m in st.memory
      requires HasBit(bufferMemoryTypeBits, st.memory[m].typeIndex)
      requires offset + BufferRequirements(st.buffers[b].size).size <= st.memory[m].size
      modifies this
      ensures Valid()
      ensures st == old(st).(buffers := old(st).buffers[b := old(st).buffers[b].(memory := m, memoryOffset := offset)],
                             calls := old(st).calls + [VkBindBufferMemory(b, m, offset)])
      ensures Stable(old(st), st, {b})
    {
      st := st.(buffers := st.buffers[b := st.buffers[b].(memory := m, memoryOffset := offset)],
                calls := st.calls + [VkBindBufferMemory(b, m, offset)]);
    }

    /** vkDestroyBuffer; destroying VK_NULL_HANDLE does nothing. */
    method DestroyBuffer(b: Handle)
      requires Valid() && (b == NullHandle || b in st.buffers)
      modifies this
      ensures Valid()
      ensures st == old(st).(buffers := old(st).buffers - {b}, calls := old(st).calls + [VkDestroyBuffer(b)])
      ensures Stable(old(st), st, {b})
    {
      st := st.(buffers := st.buffers - {b}, calls := st.calls + [VkDestroyBuffer(b)]);
    }

    /** vkCreateImage of a single-level, single-layer 2D image whose initial layout is UNDEFINED. */
    method CreateImage(extent: Extent2D, format: Format, tiling: Tiling, usage: Flags) returns (i: Handle)
      requires Valid() && 0 < extent.width && 0 < extent.height && format != FormatUndefined
      modifies this
      ensures Valid() && Unused(old(st), i)
      ensures st == old(st).(images := old(st).images[i := ImageObject(extent, format, tiling, usage, NullHandle, LayoutUndefined,
                                                                       Zeros(ImageBytes(extent, format)))],
                             calls := old(st).calls + [VkCreateImage(i, extent, format, tiling, usage)])
      ensures Stable(old(st), st, {})
    {
      i := NewHandle();
      st := st.(images := st.images[i := ImageObject(extent, format, tiling, usage, NullHandle, LayoutUndefined,
                                                     Zeros(ImageBytes(extent, format)))],
                calls := st.calls + [VkCreateImage(i, extent, format, tiling, usage)]);
    }

    method BindImageMemory(i: Handle, m: Handle, offset: nat)
      requires Valid() && i in st.images && st.images[i].memory == NullHandle && m in st.memory
      requires HasBit(imageMemoryTypeBits, st.memory[m].typeIndex)
      requires offset + ImageRequirements(st.images[i].extent, st.images[i].format).size <= st.memory[m].size
      modifies this
      ensures Valid()
      ensures st == old(st).(images := old(st).images[i := old(st).images[i].(memory := m)],
                             calls := old(st).calls + [VkBindImageMemory(i, m, offset)])
      ensures Stable(old(st), st, {i})
    {
      st := st.(images := st.images[i := st.images[i].(memory := m)], calls := st.calls + [VkBindImageMemory(i, m, offset)]);
    }

    method DestroyImage(i: Handle)
      requires Valid() && (i == NullHandle || i in st.images)
      modifies this
      ensures Valid()
      ensures st == old(st).(images := old(st).images - {i}, calls := old(st).calls + [VkDestroyImage(i)])
      ensures Stable(old(st), st, {i})
    {
      st := st.(images := st.images - {i}, calls := st.calls + [VkDestroyImage(i)]);
    }

    /**
     * A host `memcpy` through the mapping of the memory buffer `b` is bound to, landing
     * at byte `offset` of the buffer.
     */
    method HostWrite(b: Handle, offset: nat, bytes: seq<Byte>)
      requires Valid() && b in st.buffers && st.buffers[b].memory in st.memory
      requires st.memory[st.buffers[b].memory].mapped != NullPtr
      requires offset + |bytes| <= st.buffers[b].size
      modifies this
      ensures Valid()
      ensures st == old(st).(buffers := old(st).buffers[b := old(st).buffers[b].(data := Splice(old(st).buffers[b].data, offset, bytes))],
                             calls := old(st).calls + [VkHostWrite(old(st).buffers[b].memory, old(st).buffers[b].memoryOffset + offset, bytes)])
      ensures Stable(old(st), st, {})
    {
      var d := Splice(st.buffers[b].data, offset, bytes);
      st := st.(buffers := st.buffers[b := st.buffers[b].(data := d)],
                calls := st.calls + [VkHostWrite(st.buffers[b].memory, st.buffers[b].memoryOffset + offset, bytes)]);
    }

    /** vkCreateImageView / vkCreateSampler / vkCreateFramebuffer / vkCreateRenderPass. */
    method CreateObject(kind: ObjectKind) returns (h: Handle)
      requires Valid() && kind != CommandPool
      modifies this
      ensures Valid() && Unused(old(st), h)
      ensures st == old(st).(objects := old(st).objects[h := kind], calls := old(st).calls + [VkCreateObject(kind, h)])
      ensures Stable(old(st), st, {})
    {
      h := NewHandle();
      st := st.(objects := st.objects[h := kind], calls := st.calls + [VkCreateObject(kind, h)]);
    }

    /** The matching vkDestroy*; destroying VK_NULL_HANDLE does nothing. */
    method DestroyObject(kind: ObjectKind, h: Handle)
      requires Valid() && kind != CommandPool && (h == NullHandle || (h in st.objects && st.objects[h] == kind))
      modifies this
      ensures Valid()
      ensures st == old(st).(objects := old(st).objects - {h}, calls := old(st).calls + [VkDestroyObject(kind, h)])
      ensures Stable(old(st), st, {h})
    {
      st := st.(objects := st.objects - {h}, calls := st.calls + [VkDestroyObject(kind, h)]);
    }

    /** vkCreateCommandPool (always with RESET_COMMAND_BUFFER, the only flag this renderer uses). */
    method CreateCommandPool() returns (p: Handle)
      requires Valid()
      modifies this
      ensures Valid() && Unused(old(st), p)
      ensures st == old(st).(objects := old(st).objects[p := CommandPool], calls := old(st).calls + [VkCreateObject(CommandPool, p)])
      ensures Stable(old(st), st, {})
    {
      p := NewHandle();
      st := st.(objects := st.objects[p := CommandPool], calls := st.calls + [VkCreateObject(CommandPool, p)]);
    }

    /** vkDestroyCommandPool, which also frees every command buffer allocated from the pool. */
    method DestroyCommandPool(p: Handle)
      requires Valid() && (p == NullHandle || (p in st.objects && st.objects[p] == CommandPool))
      modifies this
      ensures Valid()
      ensures st == old(st).(objects := old(st).objects - {p},
                             commandBuffers := CommandBuffersOutside(old(st).commandBuffers, p),
                             calls := old(st).calls + [VkDestroyObject(CommandPool, p)])
      ensures Stable(old(st), st, {p} + CommandBuffersOf(old(st), p))
    {
      st := st.(objects := st.objects - {p},
                commandBuffers := CommandBuffersOutside(st.commandBuffers, p),
                calls := st.calls + [VkDestroyObject(CommandPool, p)]);
    }

    method AllocateCommandBuffer(pool: Handle) returns (c: Handle)
      requires Valid() && pool in st.objects && st.objects[pool] == CommandPool
      modifies this
      ensures Valid() && Unused(old(st), c)
      ensures st == old(st).(commandBuffers := old(st).commandBuffers[c := CommandBuffer(pool, Initial, false, [])],
                             calls := old(st).calls + [VkAllocateCommandBuffer(pool, c)])
      ensures Stable(old(st), st, {})
    {
      c := NewHandle();
      st := st.(commandBuffers := st.commandBuffers[c := CommandBuffer(pool, Initial, false, [])],
                calls := st.calls + [VkAllocateCommandBuffer(pool, c)]);
    }

    /** vkFreeCommandBuffers of one buffer, which must come from `pool`; VK_NULL_HANDLE is ignored. */
    method FreeCommandBuffer(pool: Handle, c: Handle)
      requires Valid() && (c == NullHandle || (c in st.commandBuffers && st.commandBuffers[c].pool == pool))
      modifies this
      ensures Valid()
      ensures st == old(st).(commandBuffers := old(st).commandBuffers - {c}, calls := old(st).calls + [VkFreeCommandBuffer(c)])
      ensures Stable(old(st), st, {c})
    {
      st := st.(commandBuffers := st.commandBuffers - {c}, calls := st.calls + [VkFreeCommandBuffer(c)]);
    }

    method ResetCommandBuffer(c: Handle)
      requires Valid() && c in st.commandBuffers
      modifies this
      ensures Valid()
      ensures st == old(st).(commandBuffers := old(st).commandBuffers[c := old(st).commandBuffers[c].(phase := Initial, cmds := [])],
                             calls := old(st).calls + [VkResetCommandBuffer(c)])
      ensures Stable(old(st), st, {c})
    {
      st := st.(commandBuffers := st.commandBuffers[c := st.commandBuffers[c].(phase := Initial, cmds := [])],
                calls := st.calls + [VkResetCommandBuffer(c)]);
    }

    /**
     * vkBeginCommandBuffer; a buffer that is not in the initial state is reset implicitly,
     * which its pool's RESET_COMMAND_BUFFER flag allows.  It must not be recording already.
     */
    method BeginCommandBuffer(c: Handle, oneTimeSubmit: bool)
      requires Valid() && c in st.commandBuffers && st.commandBuffers[c].phase != Recording
      modifies this
      ensures Valid()
      ensures st == old(st).(commandBuffers := old(st).commandBuffers[c := CommandBuffer(old(st).commandBuffers[c].pool, Recording, oneTimeSubmit, [])],
                             calls := old(st).calls + [VkBeginCommandBuffer(c, oneTimeSubmit)])
      ensures Stable(old(st), st, {c})
    {
      st := st.(commandBuffers := st.commandBuffers[c := CommandBuffer(st.commandBuffers[c].pool, Recording, oneTimeSubmit, [])],
                calls := st.calls + [VkBeginCommandBuffer(c, oneTimeSubmit)]);
    }

    /** Any vkCmd*: appends the command to a buffer that is recording. */
    method Record(c: Handle, cmd: Cmd)
      requires Valid() && c in st.commandBuffers && st.commandBuffers[c].phase == Recording
      modifies this
      ensures Valid()
      ensures st == Recorded(old(st), c, [cmd])
      ensures Stable(old(st), st, {c})
    {
      st := Recorded(st, c, [cmd]);
    }

    method EndCommandBuffer(c: Handle)
      requires Valid() && c in st.commandBuffers && st.commandBuffers[c].phase == Recording
      modifies this
      ensures Valid()
      ensures st == old(st).(commandBuffers := old(st).commandBuffers[c := old(st).commandBuffers[c].(phase := Executable)],
                             calls := old(st).calls + [VkEndCommandBuffer(c)])
      ensures Stable(old(st), st, {c})
    {
      st := st.(commandBuffers := st.commandBuffers[c := st.commandBuffers[c].(phase := Executable)],
                calls := st.calls + [VkEndCommandBuffer(c)]);
    }

    /**
     * vkQueueSubmit of one executable command buffer; the queue runs its commands at once.
     * A buffer recorded for one-time submission becomes invalid afterwards.
     */
    method QueueSubmit(c: Handle, waits: seq<Handle>, waitStages: seq<PipelineStage>, signals: seq<Handle>, fence: Handle)
      requires Valid() && c in st.commandBuffers && st.commandBuffers[c].phase == Executable
      modifies this
      ensures Valid()
      ensures
        var cb := old(st).commandBuffers[c];
        st == RunCmds(cb.cmds, old(st)).(
          commandBuffers := old(st).commandBuffers[c := cb.(phase := if cb.oneTimeSubmit then Invalid else Executable)],
          calls := old(st).calls + [VkQueueSubmit(Submission(c, cb.cmds, waits, waitStages, signals, fence))])
      ensures Stable(old(st), st, {c})
    {
      var cb := st.commandBuffers[c];
      var s1 := RunCmds(cb.cmds, st);
      RunCmdsSameShape(cb.cmds, st);
      SameShapeStable(st, s1);
      st := s1.(commandBuffers := s1.commandBuffers[c := cb.(phase := if cb.oneTimeSubmit then Invalid else Executable)],
                calls := s1.calls + [VkQueueSubmit(Submission(c, cb.cmds, waits, waitStages, signals, fence))]);
    }

    method QueueWaitIdle()
      requires Valid()
      modifies this
      ensures Valid() && st == old(st).(calls := old(st).calls + [VkQueueWaitIdle])
      ensures Stable(old(st), st, {})
    {
      st := st.(calls := st.calls + [VkQueueWaitIdle]);
    }

    /**
     * Ends a recording command buffer, submits it alone with no semaphores and no fence, and
     * waits for the queue to drain: the blocking pattern of the one-off transfers.
     */
    method SubmitAndWait(c: Handle)
      requires Valid() && c in st.commandBuffers && st.commandBuffers[c].phase == Recording
      modifies this
      ensures Valid()
      ensures var cb := old(st).commandBuffers[c];
        st == RunCmds(cb.cmds, old(st)).(
          commandBuffers := old(st).commandBuffers[c := cb.(phase := if cb.oneTimeSubmit then Invalid else Executable)],
          calls := old(st).calls + [VkEndCommandBuffer(c), VkQueueSubmit(Submission(c, cb.cmds, [], [], [], NullHandle)), VkQueueWaitIdle])
      ensures Stable(old(st), st, {c})
    {
      ghost var s0 := st;
      EndCommandBuffer(c);
      ghost var s1 := st;
      QueueSubmit(c, [], [], [], NullHandle);
      ghost var s2 := st;
      QueueWaitIdle();
      StableTrans(s0, s1, s2, {c}, {c});
      StableTrans(s0, s2, st, {c}, {});
      SubmitState(c, s0, s1, s2, st);
    }

    /** A run of vkCmd* calls on one recording command buffer, appending `cmds` in order. */
    method RecordAll(c: Handle, cmds: seq<Cmd>)
      requires Valid() && c in st.commandBuffers && st.commandBuffers[c].phase == Recording
      modifies this
      ensures Valid()
      ensures st == Recorded(old(st), c, cmds)
      ensures Stable(old(st), st, {c})
    {
      var k := 0;
      RecordedNothing(st, c);
      while k < |cmds|
        invariant 0 <= k <= |cmds| && Valid()
        invariant st == Recorded(old(st), c, cmds[..k])
        invariant Stable(old(st), st, {c})
      {
        ghost var s := st;
        Record(c, cmds[k]);
        StableTrans(old(st), s, st, {c}, {c});
        RecordedTwice(old(st), c, cmds[..k], [cmds[k]]);
        assert cmds[..k] + [cmds[k]] == cmds[..k + 1];
        k := k + 1;
      }
      assert cmds[..k] == cmds;
    }

    /**
     * Records `cmds` into `c` for one-time submission (after an explicit reset when `reset`),
     * submits it alone with no semaphores and no fence, and waits for the queue to drain.
     */
    method RunOneTime(c: Handle, cmds: seq<Cmd>, reset: bool)
      requires Valid() && c in st.commandBuffers && st.commandBuffers[c].phase != Recording
      modifies this
      ensures Valid()
      ensures st == RunCmds(cmds, old(st)).(
                      commandBuffers := old(st).commandBuffers[c := CommandBuffer(old(st).commandBuffers[c].pool, Invalid, true, cmds)],
                      calls := old(st).calls + OneTimeCalls(c, cmds, reset))
      ensures Stable(old(st), st, {c})
    {
      ghost var s0 := st;
      if reset {
        ResetCommandBuffer(c);
      }
      ghost var s1 := st;
      BeginCommandBuffer(c, true);
      ghost var s2 := st;
      RecordAll(c, cmds);
      ghost var s3 := st;
      SubmitAndWait(c);
      StableTrans(s0, s1, s2, {c}, {c});
      StableTrans(s0, s2, s3, {c}, {c});
      StableTrans(s0, s3, st, {c}, {c});
      OneTimeState(c, cmds, reset, s0, s1, s2, s3, st);
    }

    method DeviceWaitIdle()
      requires Valid()
      modifies this
      ensures Valid() && st == old(st).(calls := old(st).calls + [VkDeviceWaitIdle])
      ensures Stable(old(st), st, {})
    {
      st := st.(calls := st.calls + [VkDeviceWaitIdle]);
    }

    method CreateDescriptorPool(capacity: PoolCounts) returns (p: Handle)
      requires Valid()
      modifies this
      ensures Valid() && Unused(old(st), p)
      ensures st == old(st).(pools := old(st).pools[p := DescriptorPool(capacity, PoolCounts(0, 0, 0, 0))],
                             calls := old(st).calls + [VkCreateDescriptorPool(p, capacity)])
      ensures Stable(old(st), st, {})
    {
      p := NewHandle();
      st := st.(pools := st.pools[p := DescriptorPool(capacity, PoolCounts(0, 0, 0, 0))],
                calls := st.calls + [VkCreateDescriptorPool(p, capacity)]);
    }

    /** vkDestroyDescriptorPool, which also frees the sets allocated from it; VK_NULL_HANDLE is ignored. */
    method DestroyDescriptorPool(p: Handle)
      requires Valid() && (p == NullHandle || p in st.pools)
      modifies this
      ensures Valid()
      ensures st == old(st).(pools := old(st).pools - {p},
                             descriptorSets := SetsOutside(old(st).descriptorSets, p),
                             calls := old(st).calls + [VkDestroyDescriptorPool(p)])
      ensures Stable(old(st), st, {p} + DescriptorSetsOf(old(st), p))
    {
      st := st.(pools := st.pools - {p},
                descriptorSets := SetsOutside(st.descriptorSets, p),
                calls := st.calls + [VkDestroyDescriptorPool(p)]);
    }

    /** vkAllocateDescriptorSets of one set with one descriptor of type `t`; the pool must have room. */
    method AllocateDescriptorSet(p: Handle, t: DescriptorType) returns (d: Handle)
      requires Valid() && p in st.pools && Fits(AddSet(st.pools[p].used, t), st.pools[p].capacity)
      modifies this
      ensures Valid() && Unused(old(st), d)
      ensures st == old(st).(pools := old(st).pools[p := old(st).pools[p].(used := AddSet(old(st).pools[p].used, t))],
                             descriptorSets := old(st).descriptorSets[d := DescriptorSet(p, t, Unwritten)],
                             calls := old(st).calls + [VkAllocateDescriptorSet(p, d, t)])
      ensures Stable(old(st), st, {})
    {
      d := NewHandle();
      st := st.(pools := st.pools[p := st.pools[p].(used := AddSet(st.pools[p].used, t))],
                descriptorSets := st.descriptorSets[d := DescriptorSet(p, t, Unwritten)],
                calls := st.calls + [VkAllocateDescriptorSet(p, d, t)]);
    }

    /** One VkWriteDescriptorSet of binding 0 of set `d`. */
    method WriteDescriptorSet(d: Handle, binding: DescriptorBinding)
      requires Valid() && d in st.descriptorSets && BindingValid(st, st.descriptorSets[d].descriptorType, binding)
      modifies this
      ensures Valid()
      ensures st == old(st).(descriptorSets := old(st).descriptorSets[d := old(st).descriptorSets[d].(binding := binding)],
                             calls := old(st).calls + [VkWriteDescriptorSet(d, binding)])
      ensures Stable(old(st), st, {d})
    {
      st := st.(descriptorSets := st.descriptorSets[d := st.descriptorSets[d].(binding := binding)],
                calls := st.calls + [VkWriteDescriptorSet(d, binding)]);
    }
  }
}
