/**
 * The renderer's helper layer (Helpers.cpp): device-memory allocations with a
 * single owner, buffers and images created together with the memory backing them,
 * memory-type and format selection, and blocking host-to-device transfers through a
 * temporary staging buffer.
 */
module Helpers {
  import opened Vulkan
  import opened Device

  datatype MapFlag = Unmapped | Mapped

  /**
   * Helpers::Allocation: a block of device memory, the offset of the part in use and
   * the host pointer it is mapped at (null when unmapped).  The C++ type is move-only;
   * its moves are modelled on values: each returns the new value of both operands.
   */
  datatype Allocation = Allocation(handle: Handle, size: nat, offset: nat, mapped: Ptr)
  {
    /** The state the move operations and the destructor accept silently. */
    predicate IsEmpty()
    {
      handle == NullHandle && offset == 0 && size == 0 && mapped == NullPtr
    }
  }

  const NoAllocation: Allocation := Allocation(NullHandle, 0, 0, NullPtr)

  /** The outcome of a move: the moved-to value, the moved-from value, and whether a leak was reported. */
  datatype Moved<T> = Moved(target: T, source: T, leaked: bool)

  /** The handles an allocation owns. */
  function Owned(a: Allocation): multiset<Handle>
  {
    if a.IsEmpty() then multiset{} else multiset{a.handle}
  }

  /** The destructor reports a leak exactly when the allocation is not empty. */
  predicate DestructorWarns(a: Allocation)
  {
    !a.IsEmpty()
  }

  /** The move constructor: a new allocation starts empty and swaps fields with `from`. */
  function MoveConstruct(from: Allocation): (r: Moved<Allocation>)
    ensures r.target == from && r.source.IsEmpty() && !r.leaked
  {
    Moved(from, NoAllocation, false)
  }

  /**
   * Move assignment: reports a leak when the target is not empty, then swaps the fields,
   * so the moved-from value ends up holding whatever the target held.
   */
  function MoveAssign(to: Allocation, from: Allocation): (r: Moved<Allocation>)
    ensures r.target == from && r.source == to
    ensures r.leaked <==> !to.IsEmpty()
  {
    Moved(from, to, !to.IsEmpty())
  }

  /** A move never creates or loses ownership: the two operands own the same handles before and after. */
  lemma {:induction false} MoveAssignConservesOwnership(to: Allocation, from: Allocation)
    ensures var r := MoveAssign(to, from);
      Owned(r.target) + Owned(r.source) == Owned(to) + Owned(from) && r.target == from
  {
  }

  /**
   * The leak is reported twice when it is reported at all: once by the assignment and once more
   * when the moved-from temporary, now holding the overwritten allocation, is destroyed.
   */
  lemma {:induction false} MoveAssignLeakReachesDestructor(to: Allocation, from: Allocation)
    ensures DestructorWarns(MoveAssign(to, from).source) <==> MoveAssign(to, from).leaked
  {
  }

  /** Moving into a fresh allocation equals move-assigning into an empty one, and reports nothing. */
  lemma {:induction false} MoveConstructIsAssignToEmpty(from: Allocation)
    ensures MoveConstruct(from) == MoveAssign(NoAllocation, from)
    ensures !DestructorWarns(MoveConstruct(from).source)
  {
  }

  /** Helpers::AllocatedBuffer: a buffer, its size, and the allocation backing it. */
  datatype AllocatedBuffer = AllocatedBuffer(handle: Handle, size: nat, allocation: Allocation)

  const NoBuffer: AllocatedBuffer := AllocatedBuffer(NullHandle, 0, NoAllocation)

  /** Helpers::AllocatedImage: an image, its extent and format, and the allocation backing it. */
  datatype AllocatedImage = AllocatedImage(handle: Handle, extent: Extent2D, format: Format, allocation: Allocation)

  const NoImage: AllocatedImage := AllocatedImage(NullHandle, Extent2D(0, 0), FormatUndefined, NoAllocation)

  /** The member-wise move assignment of AllocatedBuffer: handle and size are copied, the allocation is moved. */
  function MoveAssignBuffer(to: AllocatedBuffer, from: AllocatedBuffer): (r: Moved<AllocatedBuffer>)
    ensures r.target == from && r.source.allocation == to.allocation
    ensures r.leaked <==> !to.allocation.IsEmpty()
    ensures DestructorWarns(r.source.allocation) <==> r.leaked
  {
    var a := MoveAssign(to.allocation, from.allocation);
    Moved(AllocatedBuffer(from.handle, from.size, a.target), AllocatedBuffer(from.handle, from.size, a.source), a.leaked)
  }

  /** The member-wise move assignment of AllocatedImage. */
  function MoveAssignImage(to: AllocatedImage, from: AllocatedImage): (r: Moved<AllocatedImage>)
    ensures r.target == from && r.source.allocation == to.allocation
    ensures r.leaked <==> !to.allocation.IsEmpty()
    ensures DestructorWarns(r.source.allocation) <==> r.leaked
  {
    var a := MoveAssign(to.allocation, from.allocation);
    Moved(AllocatedImage(from.handle, from.extent, from.format, a.target),
          AllocatedImage(from.handle, from.extent, from.format, a.source), a.leaked)
  }

  // ---------------------------------------------------------------- selection

  /** Memory type `i` is in the filter and has every requested property flag. */
  predicate Suitable(types: seq<MemoryType>, filter: Flags, flags: Flags, i: nat)
  {
    i < |types| && i < 32 && HasBit(filter, i) && HasFlags(types[i].propertyFlags, flags)
  }

  /** The first suitable memory type at index `from` or above. */
  function FirstMemoryType(types: seq<MemoryType>, filter: Flags, flags: Flags, from: nat := 0): (r: Option<nat>)
    requires |types| <= MaxMemoryTypes
    decreases |types| - from
    ensures r.Some? ==> from <= r.value && Suitable(types, filter, flags, r.value)
    ensures r.Some? ==> forall j | from <= j < r.value :: !Suitable(types, filter, flags, j)
    ensures r.None? ==> forall j | from <= j :: !Suitable(types, filter, flags, j)
  {
    if from >= |types| then None
    else if Suitable(types, filter, flags, from) then Some(from)
    else FirstMemoryType(types, filter, flags, from + 1)
  }

  /** A format property set offers every requested feature for the tiling; tilings other than linear and optimal never do. */
  predicate Supports(p: FormatProperties, tiling: Tiling, features: Flags)
  {
    match tiling
    case Linear => HasFlags(p.linearTilingFeatures, features)
    case Optimal => HasFlags(p.optimalTilingFeatures, features)
    case DrmFormatModifier => false
  }

  /** The first candidate format that supports the features with the tiling. */
  function FirstFormat(props: Format -> FormatProperties, candidates: seq<Format>, tiling: Tiling, features: Flags): (r: Option<Format>)
    ensures r.Some? ==> exists k | 0 <= k < |candidates| :: candidates[k] == r.value
                          && (forall j | 0 <= j < k :: !Supports(props(candidates[j]), tiling, features))
    ensures r.Some? ==> r.value in candidates && Supports(props(r.value), tiling, features)
    ensures r.None? ==> forall j | 0 <= j < |candidates| :: !Supports(props(candidates[j]), tiling, features)
  {
    if candidates == [] then None
    else if Supports(props(candidates[0]), tiling, features) then
      assert candidates[0] == candidates[0];
      Some(candidates[0])
    else
      var rest := FirstFormat(props, candidates[1..], tiling, features);
      if rest.Some? then
        var k :| 0 <= k < |candidates[1..]| && candidates[1..][k] == rest.value
                 && (forall j | 0 <= j < k :: !Supports(props(candidates[1..][j]), tiling, features));
        assert candidates[k + 1] == rest.value;
        assert forall j | 0 <= j < k + 1 :: !Supports(props(candidates[j]), tiling, features) by {
          forall j | 0 <= j < k + 1 ensures !Supports(props(candidates[j]), tiling, features) {
            if j > 0 { assert candidates[j] == candidates[1..][j - 1]; }
          }
        }
        rest
      else
        assert forall j | 0 <= j < |candidates| :: !Supports(props(candidates[j]), tiling, features) by {
          forall j | 0 <= j < |candidates| ensures !Supports(props(candidates[j]), tiling, features) {
            if j > 0 { assert candidates[j] == candidates[1..][j - 1]; }
          }
        }
        None
  }

  // ---------------------------------------------------------------- ownership in device state

  /** `a` owns a live memory block of its size, mapped exactly when `a.mapped` is set. */
  ghost predicate LiveAllocation(a: Allocation, s: State)
  {
    && a.handle != NullHandle && a.handle in s.memory && a.offset == 0
    && s.memory[a.handle].size == a.size && s.memory[a.handle].mapped == a.mapped
  }

  /** `b` names a live buffer of its size, bound at offset 0 to the memory its allocation owns. */
  ghost predicate LiveBuffer(b: AllocatedBuffer, s: State)
  {
    && b.handle != NullHandle && b.handle in s.buffers && 0 < b.size
    && s.buffers[b.handle].size == b.size
    && s.buffers[b.handle].memory == b.allocation.handle && s.buffers[b.handle].memoryOffset == 0
    && LiveAllocation(b.allocation, s) && b.handle != b.allocation.handle
  }

  /** `b` is either empty or live: what a field holding a buffer may be between operations. */
  ghost predicate HeldBuffer(b: AllocatedBuffer, s: State)
  {
    b == NoBuffer || LiveBuffer(b, s)
  }

  ghost predicate LiveImage(i: AllocatedImage, s: State)
  {
    && i.handle != NullHandle && i.handle in s.images
    && s.images[i.handle].extent == i.extent && s.images[i.handle].format == i.format
    && s.images[i.handle].memory == i.allocation.handle
    && LiveAllocation(i.allocation, s) && i.handle != i.allocation.handle
  }

  ghost predicate HeldImage(i: AllocatedImage, s: State)
  {
    i == NoImage || LiveImage(i, s)
  }

  /** What Free may be given: nothing, or memory that is live and, when mapped, mapped. */
  ghost predicate Freeable(a: Allocation, s: State)
  {
    && (a.handle == NullHandle || a.handle in s.memory)
    && (a.mapped != NullPtr ==> a.handle in s.memory && s.memory[a.handle].mapped != NullPtr)
  }

  lemma {:induction false} LiveBufferStable(b: AllocatedBuffer, s0: State, s1: State, gone: set<Handle>)
    requires LiveBuffer(b, s0) && Stable(s0, s1, gone) && b.handle !in gone && b.allocation.handle !in gone
    ensures LiveBuffer(b, s1)
  {
    assert Kept(s0, s1, b.handle) && Kept(s0, s1, b.allocation.handle);
  }

  lemma {:induction false} LiveImageStable(i: AllocatedImage, s0: State, s1: State, gone: set<Handle>)
    requires LiveImage(i, s0) && Stable(s0, s1, gone) && i.handle !in gone && i.allocation.handle !in gone
    ensures LiveImage(i, s1)
  {
    assert Kept(s0, s1, i.handle) && Kept(s0, s1, i.allocation.handle);
  }

  // ---------------------------------------------------------------- call sequences

  /** The calls `Allocate` makes. */
  function AllocateCalls(m: Handle, size: nat, typeIndex: nat, mode: MapFlag): seq<Call>
  {
    [VkAllocateMemory(m, size, typeIndex)] + (if mode == Mapped then [VkMapMemory(m)] else [])
  }

  /** The calls `Free` makes: unmap when mapped, then free (VK_NULL_HANDLE included). */
  function FreeCalls(a: Allocation): seq<Call>
  {
    (if a.mapped != NullPtr then [VkUnmapMemory(a.handle)] else []) + [VkFreeMemory(a.handle)]
  }

  /** The calls a successful `CreateBuffer` makes. */
  function CreateBufferCalls(b: AllocatedBuffer, usage: Flags, typeIndex: nat, mode: MapFlag): seq<Call>
  {
    [VkCreateBuffer(b.handle, b.size, usage)] + AllocateCalls(b.allocation.handle, b.allocation.size, typeIndex, mode)
    + [VkBindBufferMemory(b.handle, b.allocation.handle, 0)]
  }

  /** The calls `DestroyBuffer` makes: the buffer goes before its memory. */
  function DestroyBufferCalls(b: AllocatedBuffer): seq<Call>
  {
    [VkDestroyBuffer(b.handle)] + FreeCalls(b.allocation)
  }

  function CreateImageCalls(i: AllocatedImage, tiling: Tiling, usage: Flags, typeIndex: nat, mode: MapFlag): seq<Call>
  {
    [VkCreateImage(i.handle, i.extent, i.format, tiling, usage)] + AllocateCalls(i.allocation.handle, i.allocation.size, typeIndex, mode)
    + [VkBindImageMemory(i.handle, i.allocation.handle, 0)]
  }

  function DestroyImageCalls(i: AllocatedImage): seq<Call>
  {
    [VkDestroyImage(i.handle)] + FreeCalls(i.allocation)
  }

  /** The object is destroyed before the memory backing it is freed, and that memory is freed last. */
  lemma {:induction false} DestroyBeforeFree(b: AllocatedBuffer, i: AllocatedImage)
    ensures DestroyBufferCalls(b)[0] == VkDestroyBuffer(b.handle)
    ensures DestroyBufferCalls(b)[|DestroyBufferCalls(b)| - 1] == VkFreeMemory(b.allocation.handle)
    ensures DestroyImageCalls(i)[0] == VkDestroyImage(i.handle)
    ensures DestroyImageCalls(i)[|DestroyImageCalls(i)| - 1] == VkFreeMemory(i.allocation.handle)
  {
  }

  /** The commands transfer_to_image records for `image`, read from `src`. */
  function ImageUploadCmds(src: Handle, image: Handle, extent: Extent2D): seq<Cmd>
  {
    [ ImageBarrier(TopOfPipe, Transfer, NoAccess, TransferWrite, image, LayoutUndefined, TransferDstOptimal),
      CopyBufferToImage(src, image, TransferDstOptimal, 0, extent.width, extent.height, extent),
      ImageBarrier(Transfer, FragmentShader, TransferWrite, ShaderRead, image, TransferDstOptimal, ShaderReadOnlyOptimal) ]
  }

  // ---------------------------------------------------------------- composing device-state updates

  lemma {:induction false} FreeState(a: Allocation, s0: State, s1: State, s2: State)
    requires a.mapped != NullPtr ==> a.handle in s0.memory
    requires s1 == if a.mapped != NullPtr then s0.(memory := s0.memory[a.handle := s0.memory[a.handle].(mapped := NullPtr)],
                                                   calls := s0.calls + [VkUnmapMemory(a.handle)]) else s0
    requires s2 == s1.(memory := s1.memory - {a.handle}, calls := s1.calls + [VkFreeMemory(a.handle)])
    ensures s2 == s0.(memory := s0.memory - {a.handle}, calls := s0.calls + FreeCalls(a))
  {
    assert s2.memory == s0.memory - {a.handle};
    assert s2.calls == s0.calls + FreeCalls(a);
  }

  lemma {:induction false} AllocateState(m: Handle, size: nat, t: nat, p: Ptr, mode: MapFlag, s0: State, s1: State, s2: State)
    requires mode == Unmapped ==> p == NullPtr
    requires s1 == s0.(memory := s0.memory[m := MemoryBlock(size, t, NullPtr)], calls := s0.calls + [VkAllocateMemory(m, size, t)])
    requires s2 == if mode == Mapped then s1.(memory := s1.memory[m := s1.memory[m].(mapped := p)], calls := s1.calls + [VkMapMemory(m)])
                   else s1
    ensures s2 == s0.(memory := s0.memory[m := MemoryBlock(size, t, p)], calls := s0.calls + AllocateCalls(m, size, t, mode))
  {
    assert s2.memory == s0.memory[m := MemoryBlock(size, t, p)];
    assert s2.calls == s0.calls + AllocateCalls(m, size, t, mode);
  }

  /** The device state after `CreateBuffer` made `b` with `usage`, in memory of type `t`. */
  function BufferCreated(s: State, b: AllocatedBuffer, usage: Flags, t: nat, mode: MapFlag): State
  {
    s.(buffers := s.buffers[b.handle := BufferObject(b.size, usage, b.allocation.handle, 0, Zeros(b.size))],
       memory := s.memory[b.allocation.handle := MemoryBlock(b.allocation.size, t, b.allocation.mapped)],
       calls := s.calls + CreateBufferCalls(b, usage, t, mode))
  }

  /** The device state after `CreateImage` made `i` with `tiling` and `usage`, in memory of type `t`. */
  function ImageCreated(s: State, i: AllocatedImage, tiling: Tiling, usage: Flags, t: nat, mode: MapFlag): State
  {
    s.(images := s.images[i.handle := ImageObject(i.extent, i.format, tiling, usage, i.allocation.handle, LayoutUndefined,
                                                  Zeros(ImageBytes(i.extent, i.format)))],
       memory := s.memory[i.allocation.handle := MemoryBlock(i.allocation.size, t, i.allocation.mapped)],
       calls := s.calls + CreateImageCalls(i, tiling, usage, t, mode))
  }

  lemma {:induction false} CreateBufferState(b: AllocatedBuffer, usage: Flags, t: nat, mode: MapFlag, s0: State, s1: State, s2: State, s3: State)
    requires s1 == s0.(buffers := s0.buffers[b.handle := BufferObject(b.size, usage, NullHandle, 0, Zeros(b.size))],
                       calls := s0.calls + [VkCreateBuffer(b.handle, b.size, usage)])
    requires s2 == s1.(memory := s1.memory[b.allocation.handle := MemoryBlock(b.allocation.size, t, b.allocation.mapped)],
                       calls := s1.calls + AllocateCalls(b.allocation.handle, b.allocation.size, t, mode))
    requires s3 == s2.(buffers := s2.buffers[b.handle := s2.buffers[b.handle].(memory := b.allocation.handle, memoryOffset := 0)],
                       calls := s2.calls + [VkBindBufferMemory(b.handle, b.allocation.handle, 0)])
    ensures s3 == BufferCreated(s0, b, usage, t, mode)
    ensures (b.handle != NullHandle && b.handle != b.allocation.handle && b.allocation.handle != NullHandle
             && b.allocation.offset == 0 && 0 < b.size) ==> LiveBuffer(b, s3)
  {
    assert s3.buffers == s0.buffers[b.handle := BufferObject(b.size, usage, b.allocation.handle, 0, Zeros(b.size))];
    assert s3.calls == s0.calls + CreateBufferCalls(b, usage, t, mode);
  }

  lemma {:induction false} CreateImageState(i: AllocatedImage, tiling: Tiling, usage: Flags, t: nat, mode: MapFlag, s0: State, s1: State, s2: State, s3: State)
    requires s1 == s0.(images := s0.images[i.handle := ImageObject(i.extent, i.format, tiling, usage, NullHandle, LayoutUndefined,
                                                                   Zeros(ImageBytes(i.extent, i.format)))],
                       calls := s0.calls + [VkCreateImage(i.handle, i.extent, i.format, tiling, usage)])
    requires s2 == s1.(memory := s1.memory[i.allocation.handle := MemoryBlock(i.allocation.size, t, i.allocation.mapped)],
                       calls := s1.calls + AllocateCalls(i.allocation.handle, i.allocation.size, t, mode))
    requires s3 == s2.(images := s2.images[i.handle := s2.images[i.handle].(memory := i.allocation.handle)],
                       calls := s2.calls + [VkBindImageMemory(i.handle, i.allocation.handle, 0)])
    ensures s3 == ImageCreated(s0, i, tiling, usage, t, mode)
    ensures (i.handle != NullHandle && i.handle != i.allocation.handle && i.allocation.handle != NullHandle
             && i.allocation.offset == 0) ==> LiveImage(i, s3)
  {
    assert s3.images == s0.images[i.handle := ImageObject(i.extent, i.format, tiling, usage, i.allocation.handle, LayoutUndefined,
                                                          Zeros(ImageBytes(i.extent, i.format)))];
    assert s3.calls == s0.calls + CreateImageCalls(i, tiling, usage, t, mode);
  }

  lemma {:induction false} DestroyBufferState(b: AllocatedBuffer, s0: State, s1: State, s2: State)
    requires s1 == s0.(buffers := s0.buffers - {b.handle}, calls := s0.calls + [VkDestroyBuffer(b.handle)])
    requires s2 == s1.(memory := s1.memory - {b.allocation.handle}, calls := s1.calls + FreeCalls(b.allocation))
    ensures s2 == s0.(buffers := s0.buffers - {b.handle}, memory := s0.memory - {b.allocation.handle},
                      calls := s0.calls + DestroyBufferCalls(b))
  {
    assert s2.calls == s0.calls + DestroyBufferCalls(b);
  }

  lemma {:induction false} DestroyImageState(i: AllocatedImage, s0: State, s1: State, s2: State)
    requires s1 == s0.(images := s0.images - {i.handle}, calls := s0.calls + [VkDestroyImage(i.handle)])
    requires s2 == s1.(memory := s1.memory - {i.allocation.handle}, calls := s1.calls + FreeCalls(i.allocation))
    ensures s2 == s0.(images := s0.images - {i.handle}, memory := s0.memory - {i.allocation.handle},
                      calls := s0.calls + DestroyImageCalls(i))
  {
    assert s2.calls == s0.calls + DestroyImageCalls(i);
  }

  lemma {:induction false} CreateTransferState(p: Handle, c: Handle, s0: State, s1: State, s2: State)
    requires s1 == s0.(objects := s0.objects[p := CommandPool], calls := s0.calls + [VkCreateObject(CommandPool, p)])
    requires s2 == s1.(commandBuffers := s1.commandBuffers[c := CommandBuffer(p, Initial, false, [])],
                       calls := s1.calls + [VkAllocateCommandBuffer(p, c)])
    ensures s2 == s0.(objects := s0.objects[p := CommandPool],
                      commandBuffers := s0.commandBuffers[c := CommandBuffer(p, Initial, false, [])],
                      calls := s0.calls + [VkCreateObject(CommandPool, p), VkAllocateCommandBuffer(p, c)])
  {
    assert s2.calls == s0.calls + [VkCreateObject(CommandPool, p), VkAllocateCommandBuffer(p, c)];
  }

  lemma {:induction false} DestroyTransferState(p: Handle, c: Handle, s0: State, s1: State, s2: State)
    requires NullHandle !in s0.objects
    requires s1 == if c != NullHandle then s0.(commandBuffers := s0.commandBuffers - {c}, calls := s0.calls + [VkFreeCommandBuffer(c)])
                   else s0
    requires p != NullHandle ==> s2.objects == s1.objects - {p} && s2.commandBuffers.Keys <= s1.commandBuffers.Keys
                                 && s2.calls == s1.calls + [VkDestroyObject(CommandPool, p)]
    requires p == NullHandle ==> s2 == s1
    requires c == NullHandle ==> c !in s0.commandBuffers
    ensures s2.objects == s0.objects - {p} && c !in s2.commandBuffers
    ensures s2.calls == s0.calls + (if c != NullHandle then [VkFreeCommandBuffer(c)] else [])
                                 + (if p != NullHandle then [VkDestroyObject(CommandPool, p)] else [])
  {
    if c != NullHandle && p != NullHandle {
      assert s2.calls == s0.calls + [VkFreeCommandBuffer(c)] + [VkDestroyObject(CommandPool, p)];
    } else if c != NullHandle {
      assert s2.calls == s0.calls + [VkFreeCommandBuffer(c)] + [];
    } else if p != NullHandle {
      assert s2.calls == s0.calls + [] + [VkDestroyObject(CommandPool, p)];
    } else {
      assert s2.calls == s0.calls + [] + [];
    }
  }

  lemma {:induction false} DestroyTransferStable(p: Handle, c: Handle, s0: State, s1: State, s2: State)
    requires c != NullHandle ==> Stable(s0, s1, {c}) && s1.commandBuffers == s0.commandBuffers - {c}
    requires c == NullHandle ==> s1 == s0
    requires p != NullHandle ==> Stable(s1, s2, {p} + CommandBuffersOf(s1, p))
    requires p == NullHandle ==> s2 == s1
    ensures Stable(s0, s2, {p, c} + CommandBuffersOf(s0, p))
  {
    var g := {p, c} + CommandBuffersOf(s0, p);
    if c != NullHandle {
      StableGrow(s0, s1, {c}, g);
    } else {
      StableGrow(s0, s0, {}, g);
    }
    if p != NullHandle {
      assert CommandBuffersOf(s1, p) <= CommandBuffersOf(s0, p);
      StableGrow(s1, s2, {p} + CommandBuffersOf(s1, p), g);
      StableTrans(s0, s1, s2, g, g);
      assert g + g == g;
    }
  }

  /** The host-visible, host-coherent memory staging buffers are allocated from. */
  const StagingProperties: Flags := MEMORY_PROPERTY_HOST_VISIBLE | MEMORY_PROPERTY_HOST_COHERENT

  /** Splicing a whole sequence's worth of bytes at offset 0 replaces it. */
  lemma {:induction false} SpliceAll(d: seq<Byte>, bytes: seq<Byte>)
    requires |bytes| == |d|
    ensures Splice(d, 0, bytes) == bytes
  {
    var r := Splice(d, 0, bytes);
    assert r == r[0..|bytes|];
  }

  /** Executing the staging copy puts the staged bytes at the front of the target buffer. */
  lemma {:induction false} StagedCopyEffect(s: State, src: Handle, dst: Handle, n: nat)
    requires src in s.buffers && dst in s.buffers
    requires HasFlags(s.buffers[src].usage, BUFFER_USAGE_TRANSFER_SRC) && HasFlags(s.buffers[dst].usage, BUFFER_USAGE_TRANSFER_DST)
    requires n <= |s.buffers[src].data| && n <= |s.buffers[dst].data|
    ensures RunCmds([CopyBuffer(src, dst, 0, 0, n)], s)
         == s.(buffers := s.buffers[dst := s.buffers[dst].(data := Splice(s.buffers[dst].data, 0, s.buffers[src].data[..n]))])
  {
    assert RunCmds([CopyBuffer(src, dst, 0, 0, n)], s) == RunCmds([], RunCmd(CopyBuffer(src, dst, 0, 0, n), s));
  }

  /**
   * Executing the upload commands leaves the image in SHADER_READ_ONLY_OPTIMAL layout holding the
   * staged bytes, whatever layout it was in before; an image not created as a transfer
   * destination, or a too short source, only changes layout.
   */
  lemma {:induction false} ImageUploadEffect(s: State, src: Handle, img: Handle, extent: Extent2D)
    requires src in s.buffers && img in s.images && s.images[img].extent == extent
    requires HasFlags(s.buffers[src].usage, BUFFER_USAGE_TRANSFER_SRC)
    ensures var i := s.images[img];
      RunCmds(ImageUploadCmds(src, img, extent), s)
      == s.(images := s.images[img := i.(layout := ShaderReadOnlyOptimal,
                                         data := if HasFlags(i.usage, IMAGE_USAGE_TRANSFER_DST) && |i.data| <= |s.buffers[src].data|
                                                 then s.buffers[src].data[..|i.data|] else i.data)])
  {
    var cmds := ImageUploadCmds(src, img, extent);
    var s1 := RunCmd(cmds[0], s);
    var s2 := RunCmd(cmds[1], s1);
    var s3 := RunCmd(cmds[2], s2);
    assert RunCmds(cmds, s) == RunCmds(cmds[1..], s1);
    assert cmds[1..][1..] == [cmds[2]];
    assert RunCmds(cmds[1..], s1) == RunCmds([cmds[2]], s2);
    assert RunCmds([cmds[2]], s2) == RunCmds([], s3);
    var i := s.images[img];
    assert s3.images[img] == i.(layout := ShaderReadOnlyOptimal,
                                data := if HasFlags(i.usage, IMAGE_USAGE_TRANSFER_DST) && |i.data| <= |s.buffers[src].data|
                                        then s.buffers[src].data[..|i.data|] else i.data);
    assert s3.images == s.images[img := s3.images[img]];
  }

  /**
   * The byte count transfer_to_image checks against, with the texel count computed in 32 bits,
   * is the image's size unless width times height overflows 32 bits, and then it is smaller.
   */
  lemma {:induction false} ImageBytesWrap(extent: Extent2D, format: Format, n: nat)
    requires 0 < TexelsPerBlock(format)
    requires n == ((extent.width * extent.height) % 0x1_0000_0000) * TexelBlockSize(format) / TexelsPerBlock(format)
    ensures extent.width * extent.height < 0x1_0000_0000 ==> n == ImageBytes(extent, format)
    ensures extent.width * extent.height >= 0x1_0000_0000 ==> n < ImageBytes(extent, format)
  {
    ImageBytesIs(extent, format);
  }

  // ---------------------------------------------------------------- staged transfers

  /** The device state right after staging `data` in the host-visible buffer `b` bound to memory of type `t`. */
  function StagedState(s: State, b: AllocatedBuffer, t: nat, data: seq<Byte>): State
  {
    s.(buffers := s.buffers[b.handle := BufferObject(|data|, BUFFER_USAGE_TRANSFER_SRC, b.allocation.handle, 0, data)],
       memory := s.memory[b.allocation.handle := MemoryBlock(b.allocation.size, t, b.allocation.mapped)],
       calls := s.calls + CreateBufferCalls(b, BUFFER_USAGE_TRANSFER_SRC, t, Mapped) + [VkHostWrite(b.allocation.handle, 0, data)])
  }

  /** Composition of the two steps of `Stage`: create the staging buffer, then write through its mapping. */
  lemma {:induction false} StageState(s0: State, s1: State, s2: State, b: AllocatedBuffer, t: nat, data: seq<Byte>)
    requires b.size == |data| && s1 == BufferCreated(s0, b, BUFFER_USAGE_TRANSFER_SRC, t, Mapped)
    requires s2 == s1.(buffers := s1.buffers[b.handle := s1.buffers[b.handle].(data := Splice(s1.buffers[b.handle].data, 0, data))],
                       calls := s1.calls + [VkHostWrite(s1.buffers[b.handle].memory, s1.buffers[b.handle].memoryOffset + 0, data)])
    ensures s2 == StagedState(s0, b, t, data)
  {
    SpliceAll(Zeros(|data|), data);
  }

  /** The calls of a staged transfer through the staging buffer `b` and the command buffer `c`. */
  function TransferCalls(b: AllocatedBuffer, t: nat, data: seq<Byte>, c: Handle, cmds: seq<Cmd>, reset: bool): seq<Call>
  {
    CreateBufferCalls(b, BUFFER_USAGE_TRANSFER_SRC, t, Mapped) + [VkHostWrite(b.allocation.handle, 0, data)]
    + OneTimeCalls(c, cmds, reset) + DestroyBufferCalls(b)
  }

  /** The one command a buffer transfer records. */
  function BufferUploadCmds(src: Handle, dst: Handle, n: nat): seq<Cmd>
  {
    [CopyBuffer(src, dst, 0, 0, n)]
  }

  /**
   * The device state after `TransferToBuffer(data, dst)` staged through `b`: the first `|data|` bytes of
   * `dst` replaced, the command buffer `c` consumed, nothing else different but the call log.
   */
  function BufferUploaded(s: State, b: AllocatedBuffer, t: nat, data: seq<Byte>, dst: Handle, c: Handle): State
    requires dst in s.buffers && c in s.commandBuffers && |data| <= |s.buffers[dst].data|
  {
    var cmds := BufferUploadCmds(b.handle, dst, |data|);
    s.(buffers := s.buffers[dst := s.buffers[dst].(data := Splice(s.buffers[dst].data, 0, data))],
       commandBuffers := s.commandBuffers[c := CommandBuffer(s.commandBuffers[c].pool, Invalid, true, cmds)],
       calls := s.calls + TransferCalls(b, t, data, c, cmds, false))
  }

  /** What an image holds after the upload commands ran with `data` staged. */
  function UploadedImage(i: ImageObject, data: seq<Byte>): ImageObject
  {
    i.(layout := ShaderReadOnlyOptimal,
       data := if HasFlags(i.usage, IMAGE_USAGE_TRANSFER_DST) && |i.data| <= |data| then data[..|i.data|] else i.data)
  }

  /** The device state after `TransferToImage(data, img)` staged through `b`. */
  function ImageUploaded(s: State, b: AllocatedBuffer, t: nat, data: seq<Byte>, img: Handle, c: Handle): State
    requires img in s.images && c in s.commandBuffers
  {
    var cmds := ImageUploadCmds(b.handle, img, s.images[img].extent);
    s.(images := s.images[img := UploadedImage(s.images[img], data)],
       commandBuffers := s.commandBuffers[c := CommandBuffer(s.commandBuffers[c].pool, Invalid, true, cmds)],
       calls := s.calls + TransferCalls(b, t, data, c, cmds, true))
  }

  /** The device state after the transfer command buffer `c` ran `cmds` once and the queue went idle. */
  function RanOnce(s: State, c: Handle, cmds: seq<Cmd>, reset: bool): State
    requires c in s.commandBuffers
  {
    s.(commandBuffers := s.commandBuffers[c := CommandBuffer(s.commandBuffers[c].pool, Invalid, true, cmds)],
       calls := s.calls + OneTimeCalls(c, cmds, reset))
  }

  /** Running the buffer upload's one copy changes only the first `n` bytes of `dst`. */
  lemma {:induction false} CopyOnceState(s1: State, s2: State, src: Handle, dst: Handle, n: nat, c: Handle)
    requires src in s1.buffers && dst in s1.buffers && c in s1.commandBuffers
    requires HasFlags(s1.buffers[src].usage, BUFFER_USAGE_TRANSFER_SRC) && HasFlags(s1.buffers[dst].usage, BUFFER_USAGE_TRANSFER_DST)
    requires n <= |s1.buffers[src].data| && n <= |s1.buffers[dst].data|
    requires var cmds := BufferUploadCmds(src, dst, n);
      s2 == RunCmds(cmds, s1).(commandBuffers := s1.commandBuffers[c := CommandBuffer(s1.commandBuffers[c].pool, Invalid, true, cmds)],
                               calls := s1.calls + OneTimeCalls(c, cmds, false))
    ensures var t := s1.buffers[dst];
      s2 == RanOnce(s1.(buffers := s1.buffers[dst := t.(data := Splice(t.data, 0, s1.buffers[src].data[..n]))]), c,
                    BufferUploadCmds(src, dst, n), false)
  {
    StagedCopyEffect(s1, src, dst, n);
  }

  /** Running the image upload's commands once changes only the layout and bytes of `img`. */
  lemma {:induction false} UploadOnceState(s1: State, s2: State, src: Handle, img: Handle, c: Handle)
    requires src in s1.buffers && img in s1.images && c in s1.commandBuffers
    requires HasFlags(s1.buffers[src].usage, BUFFER_USAGE_TRANSFER_SRC)
    requires var cmds := ImageUploadCmds(src, img, s1.images[img].extent);
      s2 == RunCmds(cmds, s1).(commandBuffers := s1.commandBuffers[c := CommandBuffer(s1.commandBuffers[c].pool, Invalid, true, cmds)],
                               calls := s1.calls + OneTimeCalls(c, cmds, true))
    ensures s2 == RanOnce(s1.(images := s1.images[img := UploadedImage(s1.images[img], s1.buffers[src].data)]), c,
                          ImageUploadCmds(src, img, s1.images[img].extent), true)
  {
    ImageUploadEffect(s1, src, img, s1.images[img].extent);
  }

  /** Composition of the three steps of `TransferToBuffer`: stage, run once, destroy the staging buffer. */
  lemma {:induction false} BufferUploadState(s0: State, s1: State, s2: State, s3: State, b: AllocatedBuffer, t: nat,
                                             data: seq<Byte>, dst: Handle, c: Handle)
    requires b.handle !in s0.buffers && b.allocation.handle !in s0.memory && dst in s0.buffers && c in s0.commandBuffers
    requires |data| <= |s0.buffers[dst].data|
    requires s1 == StagedState(s0, b, t, data)
    requires var d := s1.buffers[dst];
      s2 == RanOnce(s1.(buffers := s1.buffers[dst := d.(data := Splice(d.data, 0, s1.buffers[b.handle].data[..|data|]))]), c,
                    BufferUploadCmds(b.handle, dst, |data|), false)
    requires s3 == s2.(buffers := s2.buffers - {b.handle}, memory := s2.memory - {b.allocation.handle},
                       calls := s2.calls + DestroyBufferCalls(b))
    ensures s3 == BufferUploaded(s0, b, t, data, dst, c)
  {
    var cmds := BufferUploadCmds(b.handle, dst, |data|);
    assert data[..|data|] == data;
    var d := s0.buffers[dst].(data := Splice(s0.buffers[dst].data, 0, data));
    assert s3.buffers == s0.buffers[dst := d];
    assert s3.memory == s0.memory;
    assert s3.commandBuffers == s0.commandBuffers[c := CommandBuffer(s0.commandBuffers[c].pool, Invalid, true, cmds)];
    assert s3.calls == s0.calls + TransferCalls(b, t, data, c, cmds, false);
  }

  /** Composition of the three steps of `TransferToImage`. */
  lemma {:induction false} ImageUploadState(s0: State, s1: State, s2: State, s3: State, b: AllocatedBuffer, t: nat,
                                            data: seq<Byte>, img: Handle, c: Handle)
    requires b.handle !in s0.buffers && b.allocation.handle !in s0.memory && img in s0.images && c in s0.commandBuffers
    requires s1 == StagedState(s0, b, t, data)
    requires s2 == RanOnce(s1.(images := s1.images[img := UploadedImage(s1.images[img], s1.buffers[b.handle].data)]), c,
                           ImageUploadCmds(b.handle, img, s1.images[img].extent), true)
    requires s3 == s2.(buffers := s2.buffers - {b.handle}, memory := s2.memory - {b.allocation.handle},
                       calls := s2.calls + DestroyBufferCalls(b))
    ensures s3 == ImageUploaded(s0, b, t, data, img, c)
  {
    var cmds := ImageUploadCmds(b.handle, img, s0.images[img].extent);
    assert s3.images == s0.images[img := UploadedImage(s0.images[img], data)];
    assert s3.buffers == s0.buffers;
    assert s3.memory == s0.memory;
    assert s3.commandBuffers == s0.commandBuffers[c := CommandBuffer(s0.commandBuffers[c].pool, Invalid, true, cmds)];
    assert s3.calls == s0.calls + TransferCalls(b, t, data, c, cmds, true);
  }

  class Helpers {
    const gpu: Gpu
    /** The memory types, as queried in `Create`. */
    var MemoryProperties: seq<MemoryType>
    var TransferCommandPool: Handle
    var TransferCommandBuffer: Handle

    ghost predicate Valid()
      reads this, gpu
    {
      && gpu.Valid()
      && |MemoryProperties| <= MaxMemoryTypes
      && (TransferCommandPool != NullHandle ==>
            TransferCommandPool in gpu.st.objects && gpu.st.objects[TransferCommandPool] == CommandPool)
      && (TransferCommandBuffer != NullHandle ==>
            && TransferCommandPool != NullHandle && TransferCommandBuffer != TransferCommandPool
            && TransferCommandBuffer in gpu.st.commandBuffers
            && gpu.st.commandBuffers[TransferCommandBuffer].pool == TransferCommandPool)
    }

    /** After `Create`: memory types known and a transfer command buffer that is not recording. */
    ghost predicate Ready()
      reads this, gpu
    {
      && Valid() && MemoryProperties == gpu.memoryTypes && TransferCommandBuffer != NullHandle
      && gpu.st.commandBuffers[TransferCommandBuffer].phase != Recording
    }

    constructor (gpu: Gpu)
      requires gpu.Valid()
      ensures Valid() && this.gpu == gpu
      ensures MemoryProperties == [] && TransferCommandPool == NullHandle && TransferCommandBuffer == NullHandle
    {
      this.gpu := gpu;
      MemoryProperties := [];
      TransferCommandPool := NullHandle;
      TransferCommandBuffer := NullHandle;
    }

    /** Creates the transfer command pool and its command buffer and queries the memory types. */
    method Create()
      requires Valid()
      modifies this, gpu
      ensures Ready()
      ensures Unused(old(gpu.st), TransferCommandPool) && Unused(old(gpu.st), TransferCommandBuffer)
      ensures TransferCommandPool != TransferCommandBuffer
      ensures gpu.st == old(gpu.st).(objects := old(gpu.st).objects[TransferCommandPool := CommandPool],
                                     commandBuffers := old(gpu.st).commandBuffers[TransferCommandBuffer :=
                                                         CommandBuffer(TransferCommandPool, Initial, false, [])],
                                     calls := old(gpu.st).calls + [VkCreateObject(CommandPool, TransferCommandPool),
                                                                   VkAllocateCommandBuffer(TransferCommandPool, TransferCommandBuffer)])
      ensures Stable(old(gpu.st), gpu.st, {})
    {
      TransferCommandPool := gpu.CreateCommandPool();
      ghost var s1 := gpu.st;
      TransferCommandBuffer := gpu.AllocateCommandBuffer(TransferCommandPool);
      StableTrans(old(gpu.st), s1, gpu.st, {}, {});
      CreateTransferState(TransferCommandPool, TransferCommandBuffer, old(gpu.st), s1, gpu.st);
      MemoryProperties := gpu.memoryTypes;
    }

    /** Frees the transfer command buffer, then destroys the pool, each only when present. */
    method Destroy()
      requires Valid()
      modifies this, gpu
      ensures Valid() && TransferCommandPool == NullHandle && TransferCommandBuffer == NullHandle
      ensures MemoryProperties == old(MemoryProperties)
      ensures var s0 := old(gpu.st); var p := old(TransferCommandPool); var c := old(TransferCommandBuffer);
        gpu.st.objects == s0.objects - {p}
        && c !in gpu.st.commandBuffers
        && gpu.st.calls == s0.calls + (if c != NullHandle then [VkFreeCommandBuffer(c)] else [])
                                    + (if p != NullHandle then [VkDestroyObject(CommandPool, p)] else [])
      ensures Stable(old(gpu.st), gpu.st, {old(TransferCommandPool), old(TransferCommandBuffer)} + CommandBuffersOf(old(gpu.st), old(TransferCommandPool)))
    {
      ghost var s0 := gpu.st;
      if TransferCommandBuffer != NullHandle {
        gpu.FreeCommandBuffer(TransferCommandPool, TransferCommandBuffer);
        TransferCommandBuffer := NullHandle;
      }
      ghost var s1 := gpu.st;
      if TransferCommandPool != NullHandle {
        gpu.DestroyCommandPool(TransferCommandPool);
        TransferCommandPool := NullHandle;
      }
      DestroyTransferState(old(TransferCommandPool), old(TransferCommandBuffer), s0, s1, gpu.st);
      DestroyTransferStable(old(TransferCommandPool), old(TransferCommandBuffer), s0, s1, gpu.st);
    }

    /** FindMemoryType: the first memory type in the filter with all the requested flags, else the exception. */
    method FindMemoryType(TypeFilter: Flags, flags: Flags) returns (r: Result<nat>)
      requires |MemoryProperties| <= MaxMemoryTypes
      ensures r.Success? <==> FirstMemoryType(MemoryProperties, TypeFilter, flags).Some?
      ensures r.Success? ==> r.value == FirstMemoryType(MemoryProperties, TypeFilter, flags).value
      ensures r.Failure? ==> r.error == "No suitable memory type found."
    {
      var i := 0;
      while i < |MemoryProperties|
        invariant 0 <= i <= |MemoryProperties|
        invariant FirstMemoryType(MemoryProperties, TypeFilter, flags) == FirstMemoryType(MemoryProperties, TypeFilter, flags, i)
      {
        var t := MemoryProperties[i];
        if HasBit(TypeFilter, i) && HasFlags(t.propertyFlags, flags) {
          return Success(i);
        }
        i := i + 1;
      }
      return Failure("No suitable memory type found.");
    }

    /** find_image_format: the first candidate whose properties for `tiling` include `features`, else the exception. */
    method FindImageFormat(candidates: seq<Format>, tiling: Tiling, features: Flags) returns (r: Result<Format>)
      ensures r.Success? <==> FirstFormat(gpu.formatProperties, candidates, tiling, features).Some?
      ensures r.Success? ==> r.value == FirstFormat(gpu.formatProperties, candidates, tiling, features).value
      ensures r.Failure? ==> r.error == "No supported format matches request."
    {
      var k := 0;
      while k < |candidates|
        invariant 0 <= k <= |candidates|
        invariant FirstFormat(gpu.formatProperties, candidates, tiling, features)
               == FirstFormat(gpu.formatProperties, candidates[k..], tiling, features)
      {
        var format := candidates[k];
        var props := gpu.formatProperties(format);
        if tiling == Linear && HasFlags(props.linearTilingFeatures, features) {
          return Success(format);
        } else if tiling == Optimal && HasFlags(props.optimalTilingFeatures, features) {
          return Success(format);
        }
        assert candidates[k..][1..] == candidates[k + 1..];
        k := k + 1;
      }
      return Failure("No supported format matches request.");
    }

    /**
     * Allocate: allocates `size` bytes of memory type `typeIndex` (the alignment is not used)
     * and maps the whole block when asked to.
     */
    method Allocate(size: nat, alignment: nat, typeIndex: nat, mode: MapFlag) returns (a: Allocation)
      requires Valid() && 0 < size && typeIndex < |gpu.memoryTypes|
      requires mode == Mapped ==> HasFlags(gpu.memoryTypes[typeIndex].propertyFlags, MEMORY_PROPERTY_HOST_VISIBLE)
      modifies gpu
      ensures Valid() && LiveAllocation(a, gpu.st) && Unused(old(gpu.st), a.handle)
      ensures a.size == size && (a.mapped != NullPtr <==> mode == Mapped)
      ensures gpu.st == old(gpu.st).(memory := old(gpu.st).memory[a.handle := MemoryBlock(size, typeIndex, a.mapped)],
                                     calls := old(gpu.st).calls + AllocateCalls(a.handle, size, typeIndex, mode))
      ensures Stable(old(gpu.st), gpu.st, {})
    {
      var m := gpu.AllocateMemory(size, typeIndex);
      ghost var s1 := gpu.st;
      var p := NullPtr;
      if mode == Mapped {
        p := gpu.MapMemory(m);
        StableTrans(old(gpu.st), s1, gpu.st, {}, {m});
      }
      AllocateState(m, size, typeIndex, p, mode, old(gpu.st), s1, gpu.st);
      a := Allocation(m, size, 0, p);
    }

    /** Allocate for a memory requirement: the first suitable memory type with `properties`, else the exception. */
    method AllocateFor(req: MemoryRequirements, properties: Flags, mode: MapFlag) returns (r: Result<Allocation>)
      requires Valid() && MemoryProperties == gpu.memoryTypes && 0 < req.size
      requires mode == Mapped ==> HasFlags(properties, MEMORY_PROPERTY_HOST_VISIBLE)
      modifies gpu
      ensures Valid()
      ensures r.Success? <==> FirstMemoryType(MemoryProperties, req.memoryTypeBits, properties).Some?
      ensures r.Failure? ==> gpu.st == old(gpu.st)
      ensures r.Success? ==>
        var t := FirstMemoryType(MemoryProperties, req.memoryTypeBits, properties).value;
        var a := r.value;
        && LiveAllocation(a, gpu.st) && Unused(old(gpu.st), a.handle)
        && a.size == req.size && (a.mapped != NullPtr <==> mode == Mapped)
        && gpu.st == old(gpu.st).(memory := old(gpu.st).memory[a.handle := MemoryBlock(req.size, t, a.mapped)],
                                  calls := old(gpu.st).calls + AllocateCalls(a.handle, req.size, t, mode))
      ensures Stable(old(gpu.st), gpu.st, {})
    {
      var t := FindMemoryType(req.memoryTypeBits, properties);
      if t.Failure? {
        return Failure(t.error);
      }
      if mode == Mapped {
        HasFlagsTrans(MemoryProperties[t.value].propertyFlags, properties, MEMORY_PROPERTY_HOST_VISIBLE);
      }
      var a := Allocate(req.size, req.alignment, t.value, mode);
      r := Success(a);
    }

    /** Free: unmaps when mapped, frees the memory (VK_NULL_HANDLE included) and leaves the allocation empty. */
    method Free(a: Allocation) returns (r: Allocation)
      requires Valid() && Freeable(a, gpu.st)
      modifies gpu
      ensures Valid() && r.IsEmpty()
      ensures gpu.st == old(gpu.st).(memory := old(gpu.st).memory - {a.handle}, calls := old(gpu.st).calls + FreeCalls(a))
      ensures Stable(old(gpu.st), gpu.st, {a.handle})
    {
      r := a;
      ghost var s0 := gpu.st;
      if r.mapped != NullPtr {
        gpu.UnmapMemory(r.handle);
        r := r.(mapped := NullPtr);
      }
      ghost var s1 := gpu.st;
      gpu.FreeMemory(r.handle);
      StableTrans(s0, s1, gpu.st, {a.handle}, {a.handle});
      FreeState(a, s0, s1, gpu.st);
      r := r.(handle := NullHandle, offset := 0, size := 0);
    }

    /**
     * create_buffer: creates the buffer, allocates memory of the first suitable type for its
     * requirements, and binds it at the allocation's offset.  When no memory type is suitable
     * the exception leaves the buffer created and unbound.
     */
    method CreateBuffer(size: nat, usage: Flags, properties: Flags, mode: MapFlag) returns (r: Result<AllocatedBuffer>)
      requires Valid() && MemoryProperties == gpu.memoryTypes && 0 < size
      requires mode == Mapped ==> HasFlags(properties, MEMORY_PROPERTY_HOST_VISIBLE)
      modifies gpu
      ensures Valid() && Stable(old(gpu.st), gpu.st, {})
      ensures r.Success? <==> FirstMemoryType(MemoryProperties, gpu.bufferMemoryTypeBits, properties).Some?
      ensures r.Success? ==>
        var t := FirstMemoryType(MemoryProperties, gpu.bufferMemoryTypeBits, properties).value;
        var b := r.value;
        && LiveBuffer(b, gpu.st) && b.size == size && Unused(old(gpu.st), b.handle) && Unused(old(gpu.st), b.allocation.handle)
        && b.allocation.size == gpu.BufferRequirements(size).size && (b.allocation.mapped != NullPtr <==> mode == Mapped)
        && gpu.st == BufferCreated(old(gpu.st), b, usage, t, mode)
    {
      var h := gpu.CreateBuffer(size, usage);
      ghost var s1 := gpu.st;
      var req := gpu.BufferRequirements(size);
      var ra := AllocateFor(req, properties, mode);
      ghost var s2 := gpu.st;
      StableTrans(old(gpu.st), s1, s2, {}, {});
      if ra.Failure? {
        return Failure(ra.error);
      }
      var a := ra.value;
      gpu.BindBufferMemory(h, a.handle, a.offset);
      StableTrans(old(gpu.st), s2, gpu.st, {}, {h});
      r := Success(AllocatedBuffer(h, size, a));
      CreateBufferState(r.value, usage, FirstMemoryType(MemoryProperties, gpu.bufferMemoryTypeBits, properties).value, mode,
                        old(gpu.st), s1, s2, gpu.st);
    }

    /** destroy_buffer: destroys the buffer, then frees its allocation; the value left behind is empty. */
    method DestroyBuffer(b: AllocatedBuffer) returns (r: AllocatedBuffer)
      requires Valid() && (b.handle == NullHandle || b.handle in gpu.st.buffers) && Freeable(b.allocation, gpu.st)
      modifies gpu
      ensures Valid() && r == NoBuffer
      ensures gpu.st == old(gpu.st).(buffers := old(gpu.st).buffers - {b.handle}, memory := old(gpu.st).memory - {b.allocation.handle},
                                     calls := old(gpu.st).calls + DestroyBufferCalls(b))
      ensures Stable(old(gpu.st), gpu.st, {b.handle, b.allocation.handle})
    {
      gpu.DestroyBuffer(b.handle);
      ghost var s1 := gpu.st;
      var a := Free(b.allocation);
      StableTrans(old(gpu.st), s1, gpu.st, {b.handle}, {b.allocation.handle});
      DestroyBufferState(b, old(gpu.st), s1, gpu.st);
      r := AllocatedBuffer(NullHandle, 0, a);
    }

    /**
     * create_image: a single-level 2D image in UNDEFINED layout, with memory of the first
     * suitable type bound at the allocation's offset.
     */
    method CreateImage(extent: Extent2D, format: Format, tiling: Tiling, usage: Flags, properties: Flags, mode: MapFlag)
      returns (r: Result<AllocatedImage>)
      requires Valid() && MemoryProperties == gpu.memoryTypes
      requires 0 < extent.width && 0 < extent.height && format != FormatUndefined
      requires mode == Mapped ==> HasFlags(properties, MEMORY_PROPERTY_HOST_VISIBLE)
      modifies gpu
      ensures Valid() && Stable(old(gpu.st), gpu.st, {})
      ensures r.Success? <==> FirstMemoryType(MemoryProperties, gpu.imageMemoryTypeBits, properties).Some?
      ensures r.Success? ==>
        var t := FirstMemoryType(MemoryProperties, gpu.imageMemoryTypeBits, properties).value;
        var i := r.value;
        && LiveImage(i, gpu.st) && i.extent == extent && i.format == format
        && Unused(old(gpu.st), i.handle) && Unused(old(gpu.st), i.allocation.handle)
        && gpu.st == ImageCreated(old(gpu.st), i, tiling, usage, t, mode)
    {
      var h := gpu.CreateImage(extent, format, tiling, usage);
      ghost var s1 := gpu.st;
      var req := gpu.ImageRequirements(extent, format);
      var ra := AllocateFor(req, properties, mode);
      ghost var s2 := gpu.st;
      StableTrans(old(gpu.st), s1, s2, {}, {});
      if ra.Failure? {
        return Failure(ra.error);
      }
      var a := ra.value;
      gpu.BindImageMemory(h, a.handle, a.offset);
      StableTrans(old(gpu.st), s2, gpu.st, {}, {h});
      r := Success(AllocatedImage(h, extent, format, a));
      CreateImageState(r.value, tiling, usage, FirstMemoryType(MemoryProperties, gpu.imageMemoryTypeBits, properties).value, mode,
                       old(gpu.st), s1, s2, gpu.st);
    }

    /** destroy_image: destroys the image, then frees its allocation; the value left behind is empty. */
    method DestroyImage(i: AllocatedImage) returns (r: AllocatedImage)
      requires Valid() && (i.handle == NullHandle || i.handle in gpu.st.images) && Freeable(i.allocation, gpu.st)
      modifies gpu
      ensures Valid() && r == NoImage
      ensures gpu.st == old(gpu.st).(images := old(gpu.st).images - {i.handle}, memory := old(gpu.st).memory - {i.allocation.handle},
                                     calls := old(gpu.st).calls + DestroyImageCalls(i))
      ensures Stable(old(gpu.st), gpu.st, {i.handle, i.allocation.handle})
    {
      gpu.DestroyImage(i.handle);
      ghost var s1 := gpu.st;
      var a := Free(i.allocation);
      StableTrans(old(gpu.st), s1, gpu.st, {i.handle}, {i.allocation.handle});
      DestroyImageState(i, old(gpu.st), s1, gpu.st);
      r := AllocatedImage(NullHandle, Extent2D(0, 0), FormatUndefined, a);
    }
    /**
     * The staging step both transfers begin with: a buffer of `|data|` bytes usable as a transfer
     * source, in host-visible coherent memory mapped at creation, filled with `data` through
     * the mapping.
     */
    method Stage(data: seq<Byte>) returns (r: Result<AllocatedBuffer>)
      requires Valid() && MemoryProperties == gpu.memoryTypes && 0 < |data|
      modifies gpu
      ensures Valid()
      ensures r.Success? <==> FirstMemoryType(MemoryProperties, gpu.bufferMemoryTypeBits, StagingProperties).Some?
      ensures r.Failure? ==> Stable(old(gpu.st), gpu.st, {})
      ensures r.Success? ==>
        var b := r.value;
        && LiveBuffer(b, gpu.st) && b.allocation.mapped != NullPtr && b.size == |data|
        && Unused(old(gpu.st), b.handle) && Unused(old(gpu.st), b.allocation.handle)
        && gpu.st == StagedState(old(gpu.st), b, FirstMemoryType(MemoryProperties, gpu.bufferMemoryTypeBits, StagingProperties).value, data)
    {
      ghost var s0 := gpu.st;
      r := CreateBuffer(|data|, BUFFER_USAGE_TRANSFER_SRC, StagingProperties, Mapped);
      if r.Failure? {
        return;
      }
      var src := r.value;
      ghost var s1 := gpu.st;
      gpu.HostWrite(src.handle, 0, data);
      LiveBufferStable(src, s1, gpu.st, {});
      StageState(s0, s1, gpu.st, src, FirstMemoryType(MemoryProperties, gpu.bufferMemoryTypeBits, StagingProperties).value, data);
    }

    /**
     * transfer_to_buffer: stages `data`, copies it to the front of `target` with the transfer
     * command buffer recorded for one-time submission, waits for the queue, and destroys the
     * staging buffer.  Fails, leaving the staging buffer created and unbound, when no memory
     * type is host-visible and coherent.
     */
    method TransferToBuffer(data: seq<Byte>, target: AllocatedBuffer) returns (r: Result<()>, ghost staging: AllocatedBuffer)
      requires Ready() && 0 < |data|
      requires target.handle in gpu.st.buffers && HasFlags(gpu.st.buffers[target.handle].usage, BUFFER_USAGE_TRANSFER_DST)
      requires |data| <= gpu.st.buffers[target.handle].size
      modifies gpu
      ensures Ready()
      ensures r.Success? <==> FirstMemoryType(MemoryProperties, gpu.bufferMemoryTypeBits, StagingProperties).Some?
      ensures r.Failure? ==> Stable(old(gpu.st), gpu.st, {})
      ensures r.Success? ==>
        && Unused(old(gpu.st), staging.handle) && Unused(old(gpu.st), staging.allocation.handle)
        && gpu.st == BufferUploaded(old(gpu.st), staging, FirstMemoryType(MemoryProperties, gpu.bufferMemoryTypeBits, StagingProperties).value,
                                    data, target.handle, TransferCommandBuffer)
    {
      var c := TransferCommandBuffer;
      ghost var s0 := gpu.st;
      var staged := Stage(data);
      if staged.Failure? {
        assert Kept(s0, gpu.st, c);
        return Failure(staged.error), NoBuffer;
      }
      var src := staged.value;
      staging := src;
      ghost var s1 := gpu.st;
      gpu.RunOneTime(c, BufferUploadCmds(src.handle, target.handle, |data|), false);
      ghost var s2 := gpu.st;
      CopyOnceState(s1, s2, src.handle, target.handle, |data|, c);
      src := DestroyBuffer(src);
      BufferUploadState(s0, s1, s2, gpu.st, staging, FirstMemoryType(MemoryProperties, gpu.bufferMemoryTypeBits, StagingProperties).value,
                        data, target.handle, c);
      r := Success(());
    }

    /**
     * transfer_to_image: stages `data`; resets the transfer command buffer and records, for
     * one-time submission, a barrier moving the whole image to TRANSFER_DST_OPTIMAL (discarding
     * its contents), the copy of the staged texels, and a barrier to SHADER_READ_ONLY_OPTIMAL;
     * submits, waits for the queue, and destroys the staging buffer.  The byte count must match
     * the image, with the texel count computed in 32 bits as the source does.
     */
    method TransferToImage(data: seq<Byte>, target: AllocatedImage) returns (r: Result<()>, ghost staging: AllocatedBuffer)
      requires Ready() && LiveImage(target, gpu.st) && 0 < TexelsPerBlock(target.format)
      requires |data| == ((target.extent.width * target.extent.height) % 0x1_0000_0000) * TexelBlockSize(target.format)
                         / TexelsPerBlock(target.format)
      requires 0 < |data|
      modifies gpu
      ensures Ready()
      ensures r.Success? <==> FirstMemoryType(MemoryProperties, gpu.bufferMemoryTypeBits, StagingProperties).Some?
      ensures r.Failure? ==> Stable(old(gpu.st), gpu.st, {})
      ensures r.Success? ==>
        && Unused(old(gpu.st), staging.handle) && Unused(old(gpu.st), staging.allocation.handle)
        && gpu.st == ImageUploaded(old(gpu.st), staging, FirstMemoryType(MemoryProperties, gpu.bufferMemoryTypeBits, StagingProperties).value,
                                   data, target.handle, TransferCommandBuffer)
    {
      var c := TransferCommandBuffer;
      ghost var s0 := gpu.st;
      var staged := Stage(data);
      if staged.Failure? {
        assert Kept(s0, gpu.st, c);
        return Failure(staged.error), NoBuffer;
      }
      var src := staged.value;
      staging := src;
      ghost var s1 := gpu.st;
      gpu.RunOneTime(c, ImageUploadCmds(src.handle, target.handle, target.extent), true);
      ghost var s2 := gpu.st;
      UploadOnceState(s1, s2, src.handle, target.handle, c);
      src := DestroyBuffer(src);
      ImageUploadState(s0, s1, s2, gpu.st, staging, FirstMemoryType(MemoryProperties, gpu.bufferMemoryTypeBits, StagingProperties).value,
                       data, target.handle, c);
      r := Success(());
    }
  }
}
