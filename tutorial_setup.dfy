/**
 * The renderer's construction on the device (Tutorial.cpp:18-506): the command pool, the
 * render pass and the workspace descriptor pool; per workspace a command buffer, the camera
 * and world pairs with their descriptor sets and the transforms set; the object vertex
 * buffer holding the plane and torus mesh; the two textures with their views, the sampler,
 * the texture descriptor pool and one set per texture.  Every step records which field holds
 * each handle it creates, so that the finished construction ends in the renderer's invariant.
 */
module TutorialSetup {
  import opened Vulkan
  import opened Device
  import opened Helpers
  import opened TutorialTypes
  import opened TutorialScene

  // ---------------------------------------------------------------- owners that only grow

  /** `o1` gives every handle `o` owns the same role. */
  ghost predicate Keeps(o: Owners, o1: Owners)
  {
    forall h | h in o :: h in o1 && o1[h] == o[h]
  }

  lemma {:induction false} KeepsTrans(o0: Owners, o1: Owners, o2: Owners)
    requires Keeps(o0, o1) && Keeps(o1, o2)
    ensures Keeps(o0, o2)
  {
  }

  /**
   * Handles the device just created (unused before the step, alive after it) taken over by
   * the fields with roles `r1` and `r2`: they were owned by nobody, and the owners still
   * name only live handles.
   */
  ghost function Adopted(o: Owners, h1: Handle, r1: Role, h2: Handle, r2: Role): Owners
  {
    o[h1 := r1][h2 := r2]
  }

  lemma {:induction false} AdoptTwo(o: Owners, s0: State, s1: State, h1: Handle, r1: Role, h2: Handle, r2: Role)
    requires OwnedPresent(o, s0) && Stable(s0, s1, {}) && Unused(s0, h1) && Unused(s0, h2) && h1 != h2
    requires Present(s1, h1) && Present(s1, h2)
    ensures h1 !in o && h2 !in o && Keeps(o, Adopted(o, h1, r1, h2, r2))
    ensures OwnedPresent(Adopted(o, h1, r1, h2, r2), s1)
    ensures Owns(Adopted(o, h1, r1, h2, r2), h1, r1) && Owns(Adopted(o, h1, r1, h2, r2), h2, r2)
  {
    OwnedPresentStable(o, s0, s1, {});
  }

  lemma {:induction false} AdoptOne(o: Owners, s0: State, s1: State, h: Handle, r: Role)
    requires OwnedPresent(o, s0) && Stable(s0, s1, {}) && Unused(s0, h) && Present(s1, h)
    ensures h !in o && Keeps(o, o[h := r]) && OwnedPresent(o[h := r], s1)
  {
    OwnedPresentStable(o, s0, s1, {});
  }

  /** The helpers stay ready across a step that kept every object. */
  lemma {:induction false} ReadyKept(s0: State, s1: State, c: Handle)
    requires c in s0.commandBuffers && s0.commandBuffers[c].phase != Recording && Stable(s0, s1, {})
    ensures c in s1.commandBuffers && s1.commandBuffers[c].phase != Recording
  {
    assert Kept(s0, s1, c);
  }

  /** A handle unused after a step that kept every object was unused before it. */
  lemma {:induction false} UnusedEarlier(s0: State, s1: State, h: Handle)
    requires Stable(s0, s1, {}) && Unused(s1, h)
    ensures Unused(s0, h)
  {
    assert Kept(s0, s1, h);
  }

  // ---------------------------------------------------------------- one created object, owned

  /**
   * create_buffer on behalf of the field with role `r`: succeeds exactly when a memory type
   * with `properties` exists; the new buffer and its memory are then owned by `r`, and
   * nothing that was alive changed.
   */
  method CreateOwnedBuffer(helpers: Helpers, size: nat, usage: Flags, properties: Flags, mode: MapFlag,
                           ghost o: Owners, ghost r: Role)
    returns (res: Result<AllocatedBuffer>, ghost o1: Owners)
    requires helpers.Ready() && 0 < size && OwnedPresent(o, helpers.gpu.st)
    requires mode == Mapped ==> HasFlags(properties, MEMORY_PROPERTY_HOST_VISIBLE)
    modifies helpers.gpu
    ensures helpers.Ready() && Stable(old(helpers.gpu.st), helpers.gpu.st, {})
    ensures Keeps(o, o1) && OwnedPresent(o1, helpers.gpu.st)
    ensures res.Success? <==> FirstMemoryType(helpers.gpu.memoryTypes, helpers.gpu.bufferMemoryTypeBits, properties).Some?
    ensures res.Success? ==>
      && LiveBuffer(res.value, helpers.gpu.st) && res.value.size == size && helpers.gpu.st.buffers[res.value.handle].usage == usage
      && (res.value.allocation.mapped != NullPtr <==> mode == Mapped)
      && OwnsBuffer(o1, res.value, r) && res.value.handle !in o && res.value.allocation.handle !in o
      && Unused(old(helpers.gpu.st), res.value.handle) && Unused(old(helpers.gpu.st), res.value.allocation.handle)
      && helpers.gpu.st.pools == old(helpers.gpu.st).pools
  {
    ghost var s0 := helpers.gpu.st;
    o1 := o;
    res := helpers.CreateBuffer(size, usage, properties, mode);
    ReadyKept(s0, helpers.gpu.st, helpers.TransferCommandBuffer);
    if res.Success? {
      var b := res.value;
      AdoptTwo(o, s0, helpers.gpu.st, b.handle, r, b.allocation.handle, r.(memory := true));
      o1 := Adopted(o, b.handle, r, b.allocation.handle, r.(memory := true));
    } else {
      OwnedPresentStable(o, s0, helpers.gpu.st, {});
    }
  }
  /** vkAllocateDescriptorSets of one set of type `t` from pool `p`, for the field with role `r`. */
  method AllocateOwnedSet(helpers: Helpers, p: Handle, t: DescriptorType, ghost o: Owners, ghost r: Role)
    returns (d: Handle, ghost o1: Owners)
    requires helpers.Ready() && OwnedPresent(o, helpers.gpu.st)
    requires p in helpers.gpu.st.pools && Fits(AddSet(helpers.gpu.st.pools[p].used, t), helpers.gpu.st.pools[p].capacity)
    modifies helpers.gpu
    ensures helpers.Ready() && Stable(old(helpers.gpu.st), helpers.gpu.st, {})
    ensures Keeps(o, o1) && OwnedPresent(o1, helpers.gpu.st) && d !in o && Owns(o1, d, r) && Unused(old(helpers.gpu.st), d)
    ensures SetHolds(helpers.gpu.st, d, p, t, Unwritten)
    ensures p in helpers.gpu.st.pools
    ensures helpers.gpu.st.pools[p] == old(helpers.gpu.st).pools[p].(used := AddSet(old(helpers.gpu.st).pools[p].used, t))
    ensures helpers.gpu.st.buffers == old(helpers.gpu.st).buffers && helpers.gpu.st.objects == old(helpers.gpu.st).objects
      && helpers.gpu.st.images == old(helpers.gpu.st).images
  {
    ghost var s0 := helpers.gpu.st;
    d := helpers.gpu.AllocateDescriptorSet(p, t);
    ReadyKept(s0, helpers.gpu.st, helpers.TransferCommandBuffer);
    AdoptOne(o, s0, helpers.gpu.st, d, r);
    o1 := o[d := r];
  }

  /** vkAllocateCommandBuffers of one primary command buffer from `pool`, for the field with role `r`. */
  method AllocateOwnedCommandBuffer(helpers: Helpers, pool: Handle, ghost o: Owners, ghost r: Role)
    returns (c: Handle, ghost o1: Owners)
    requires helpers.Ready() && OwnedPresent(o, helpers.gpu.st) && IsObject(helpers.gpu.st, pool, CommandPool)
    modifies helpers.gpu
    ensures helpers.Ready() && Stable(old(helpers.gpu.st), helpers.gpu.st, {})
    ensures Keeps(o, o1) && OwnedPresent(o1, helpers.gpu.st) && c !in o && Owns(o1, c, r)
    ensures c in helpers.gpu.st.commandBuffers && helpers.gpu.st.commandBuffers[c] == CommandBuffer(pool, Initial, false, [])
    ensures helpers.gpu.st.pools == old(helpers.gpu.st).pools
  {
    ghost var s0 := helpers.gpu.st;
    c := helpers.gpu.AllocateCommandBuffer(pool);
    ReadyKept(s0, helpers.gpu.st, helpers.TransferCommandBuffer);
    AdoptOne(o, s0, helpers.gpu.st, c, r);
    o1 := o[c := r];
  }
  // ---------------------------------------------------------------- a workspace

  /**
   * A camera or world pair and its descriptor set (Tutorial.cpp:183-214 and 216-242): a mapped
   * host-visible coherent staging buffer of `size` bytes used as a transfer source, a
   * device-local buffer of `size` bytes used as a uniform buffer and a transfer destination,
   * and one uniform-buffer set from `dp`, not yet written.  Succeeds exactly when both memory
   * types exist.
   */
  method CreateUniformPair(helpers: Helpers, dp: Handle, size: nat, ghost o: Owners, ghost j: nat,
                           ghost srcSlot: Slot, ghost dstSlot: Slot, ghost setSlot: Slot)
    returns (res: Result<(AllocatedBuffer, AllocatedBuffer, Handle)>, ghost o1: Owners)
    requires helpers.Ready() && OwnedPresent(o, helpers.gpu.st) && 0 < size
    requires srcSlot != dstSlot && srcSlot != setSlot && dstSlot != setSlot
    requires dp in helpers.gpu.st.pools
    requires Fits(AddSet(helpers.gpu.st.pools[dp].used, UniformBuffer), helpers.gpu.st.pools[dp].capacity)
    modifies helpers.gpu
    ensures helpers.Ready() && Stable(old(helpers.gpu.st), helpers.gpu.st, {})
    ensures Keeps(o, o1) && OwnedPresent(o1, helpers.gpu.st)
    ensures res.Success? <==>
      && FirstMemoryType(helpers.gpu.memoryTypes, helpers.gpu.bufferMemoryTypeBits, StagingProperties).Some?
      && FirstMemoryType(helpers.gpu.memoryTypes, helpers.gpu.bufferMemoryTypeBits, MEMORY_PROPERTY_DEVICE_LOCAL).Some?
    ensures res.Success? ==>
      var (src, dst, d) := res.value;
      && FixedPair(src, dst, size, UniformUsage, helpers.gpu.st)
      && OwnsBuffer(o1, src, InWorkspace(j, srcSlot, false)) && OwnsBuffer(o1, dst, InWorkspace(j, dstSlot, false))
      && Owns(o1, d, InWorkspace(j, setSlot, false)) && SetHolds(helpers.gpu.st, d, dp, UniformBuffer, Unwritten)
      && src.handle !in o && src.allocation.handle !in o && dst.handle !in o && dst.allocation.handle !in o && d !in o
      && Unused(old(helpers.gpu.st), d)
      && dp in helpers.gpu.st.pools
      && helpers.gpu.st.pools[dp] == old(helpers.gpu.st).pools[dp].(used := AddSet(old(helpers.gpu.st).pools[dp].used, UniformBuffer))
  {
    ghost var s0 := helpers.gpu.st;
    var rs;
    rs, o1 := CreateOwnedBuffer(helpers, size, BUFFER_USAGE_TRANSFER_SRC, StagingProperties, Mapped, o, InWorkspace(j, srcSlot, false));
    if rs.Failure? {
      return Failure(rs.error), o1;
    }
    ghost var s1 := helpers.gpu.st;
    ghost var oa := o1;
    var rd;
    rd, o1 := CreateOwnedBuffer(helpers, size, UniformUsage, MEMORY_PROPERTY_DEVICE_LOCAL, Unmapped, o1, InWorkspace(j, dstSlot, false));
    StableTrans(s0, s1, helpers.gpu.st, {}, {});
    KeepsTrans(o, oa, o1);
    if rd.Failure? {
      return Failure(rd.error), o1;
    }
    ghost var s2 := helpers.gpu.st;
    ghost var ob := o1;
    assert Kept(s0, s2, dp);
    var d;
    d, o1 := AllocateOwnedSet(helpers, dp, UniformBuffer, o1, InWorkspace(j, setSlot, false));
    StableTrans(s0, s2, helpers.gpu.st, {}, {});
    StableTrans(s1, s2, helpers.gpu.st, {}, {});
    KeepsTrans(o, ob, o1);
    UnusedEarlier(s0, s2, d);
    var src, dst := rs.value, rd.value;
    LiveBufferStable(src, s1, helpers.gpu.st, {});
    LiveBufferStable(dst, s2, helpers.gpu.st, {});
    assert Kept(s1, helpers.gpu.st, src.handle) && Kept(s2, helpers.gpu.st, dst.handle);
    res := Success((src, dst, d));
  }
  /**
   * The allocations of one workspace in the constructor's loop (Tutorial.cpp:169-255): a
   * command buffer from the command pool; the camera pair of sizeof(Camera) bytes and its
   * set; the world pair of sizeof(World) bytes and its set; the transforms set.  The
   * workspace is the `j`-th of `n`, so its three sets fit the pool sized for `n`.
   */
  method AllocateWorkspace(helpers: Helpers, cp: Handle, dp: Handle, worldBytes: nat, ghost o: Owners, ghost j: nat, ghost n: nat)
    returns (res: Result<Workspace>, ghost o1: Owners)
    requires helpers.Ready() && OwnedPresent(o, helpers.gpu.st) && 0 < worldBytes && j < n
    requires IsObject(helpers.gpu.st, cp, CommandPool)
    requires dp in helpers.gpu.st.pools && helpers.gpu.st.pools[dp] == DescriptorPool(WorkspacePoolCapacity(n), WorkspaceSetsUsed(j))
    modifies helpers.gpu
    ensures helpers.Ready() && Stable(old(helpers.gpu.st), helpers.gpu.st, {})
    ensures Keeps(o, o1) && OwnedPresent(o1, helpers.gpu.st)
    ensures res.Success? <==>
      && FirstMemoryType(helpers.gpu.memoryTypes, helpers.gpu.bufferMemoryTypeBits, StagingProperties).Some?
      && FirstMemoryType(helpers.gpu.memoryTypes, helpers.gpu.bufferMemoryTypeBits, MEMORY_PROPERTY_DEVICE_LOCAL).Some?
    ensures res.Success? ==>
      var w := res.value;
      && WorkspaceAllocated(w, helpers.gpu.st, cp, dp, worldBytes) && WorkspaceOwned(o1, w, j)
      && Unused(old(helpers.gpu.st), w.cameraDescriptors) && Unused(old(helpers.gpu.st), w.worldDescriptors)
      && dp in helpers.gpu.st.pools && helpers.gpu.st.pools[dp] == DescriptorPool(WorkspacePoolCapacity(n), WorkspaceSetsUsed(j + 1))
  {
    ghost var s0 := helpers.gpu.st;
    WorkspaceSetsFit(j, n);
    var c;
    c, o1 := AllocateOwnedCommandBuffer(helpers, cp, o, InWorkspace(j, CommandBufferSlot, false));
    ghost var s1, oc := helpers.gpu.st, o1;
    var camera;
    camera, o1 := CreateUniformPair(helpers, dp, CameraBytes, o1, j, CameraSrcSlot, CameraSlot, CameraSetSlot);
    StableTrans(s0, s1, helpers.gpu.st, {}, {});
    KeepsTrans(o, oc, o1);
    if camera.Failure? {
      return Failure(camera.error), o1;
    }
    ghost var s2, oa := helpers.gpu.st, o1;
    var world;
    world, o1 := CreateUniformPair(helpers, dp, worldBytes, o1, j, WorldSrcSlot, WorldSlot, WorldSetSlot);
    StableTrans(s0, s2, helpers.gpu.st, {}, {});
    KeepsTrans(o, oa, o1);
    if world.Failure? {
      return Failure(world.error), o1;
    }
    ghost var s3, ob := helpers.gpu.st, o1;
    var transformDescriptors;
    transformDescriptors, o1 := AllocateOwnedSet(helpers, dp, StorageBuffer, o1, InWorkspace(j, TransformsSetSlot, false));
    StableTrans(s0, s3, helpers.gpu.st, {}, {});
    KeepsTrans(o, ob, o1);
    var (cameraSrc, cameraBuffer, cameraDescriptors) := camera.value;
    var (worldSrc, worldBuffer, worldDescriptors) := world.value;
    var w := Workspace(c, NoBuffer, NoBuffer, cameraSrc, cameraBuffer, cameraDescriptors, worldSrc, worldBuffer, worldDescriptors,
                       NoBuffer, NoBuffer, transformDescriptors);
    StableTrans(s2, s3, helpers.gpu.st, {}, {});
    StableTrans(s1, s2, helpers.gpu.st, {}, {});
    WorkspaceCreated(w, s1, s2, s3, helpers.gpu.st, cp, dp, worldBytes);
    UnusedEarlier(s0, s1, cameraDescriptors);
    UnusedEarlier(s0, s2, worldDescriptors);
    res := Success(w);
  }

  /**
   * One workspace as the constructor's loop builds it (Tutorial.cpp:169-303): the allocations
   * above, then the camera and world sets pointed at the whole device-side camera and world
   * buffers.  The lines and transforms pairs stay empty and the transforms set unwritten
   * until the first frame.  Succeeds exactly when staging and device-local memory exist.
   */
  method CreateWorkspace(helpers: Helpers, cp: Handle, dp: Handle, worldBytes: nat, ghost o: Owners, ghost j: nat, ghost n: nat)
    returns (res: Result<Workspace>, ghost o1: Owners)
    requires helpers.Ready() && OwnedPresent(o, helpers.gpu.st) && 0 < worldBytes && j < n
    requires IsObject(helpers.gpu.st, cp, CommandPool)
    requires dp in helpers.gpu.st.pools && helpers.gpu.st.pools[dp] == DescriptorPool(WorkspacePoolCapacity(n), WorkspaceSetsUsed(j))
    modifies helpers.gpu
    ensures helpers.Ready() && Stable(old(helpers.gpu.st), helpers.gpu.st, {})
    ensures Keeps(o, o1) && OwnedPresent(o1, helpers.gpu.st)
    ensures res.Success? <==>
      && FirstMemoryType(helpers.gpu.memoryTypes, helpers.gpu.bufferMemoryTypeBits, StagingProperties).Some?
      && FirstMemoryType(helpers.gpu.memoryTypes, helpers.gpu.bufferMemoryTypeBits, MEMORY_PROPERTY_DEVICE_LOCAL).Some?
    ensures res.Success? ==>
      var w := res.value;
      && WorkspaceLive(w, helpers.gpu.st, cp, dp, worldBytes) && WorkspaceOwned(o1, w, j)
      && w.linesVerticesSrc == NoBuffer && w.linesVertices == NoBuffer && w.transformsSrc == NoBuffer && w.transforms == NoBuffer
      && w.transformDescriptors in helpers.gpu.st.descriptorSets
      && helpers.gpu.st.descriptorSets[w.transformDescriptors].binding == Unwritten
      && dp in helpers.gpu.st.pools && helpers.gpu.st.pools[dp] == DescriptorPool(WorkspacePoolCapacity(n), WorkspaceSetsUsed(j + 1))
  {
    ghost var s0 := helpers.gpu.st;
    res, o1 := AllocateWorkspace(helpers, cp, dp, worldBytes, o, j, n);
    if res.Failure? {
      return;
    }
    var w := res.value;
    ghost var s1 := helpers.gpu.st;
    PointSets(helpers.gpu, w, cp, dp, worldBytes);
    SetsPointed(w, o1, j, s0, s1, helpers.gpu.st, cp, dp, worldBytes);
  }

  /** The camera and world sets pointed at their buffers, as one vkUpdateDescriptorSets with two writes. */
  function PointedSets(s: State, w: Workspace): State
    requires w.cameraDescriptors in s.descriptorSets && w.worldDescriptors in s.descriptorSets
  {
    var camera := BufferRange(w.camera.handle, 0, w.camera.size);
    var world := BufferRange(w.world.handle, 0, w.world.size);
    s.(descriptorSets := s.descriptorSets[w.cameraDescriptors := s.descriptorSets[w.cameraDescriptors].(binding := camera)]
                                         [w.worldDescriptors := s.descriptorSets[w.worldDescriptors].(binding := world)],
       calls := s.calls + [VkWriteDescriptorSet(w.cameraDescriptors, camera), VkWriteDescriptorSet(w.worldDescriptors, world)])
  }

  /** vkUpdateDescriptorSets with the camera write, then the world write. */
  method PointSets(gpu: Gpu, w: Workspace, ghost cp: Handle, ghost dp: Handle, ghost worldBytes: nat)
    requires gpu.Valid() && WorkspaceAllocated(w, gpu.st, cp, dp, worldBytes) && w.cameraDescriptors != w.worldDescriptors
    modifies gpu
    ensures gpu.Valid() && gpu.st == PointedSets(old(gpu.st), w)
  {
    assert HasFlags(UniformUsage, BUFFER_USAGE_UNIFORM_BUFFER);
    gpu.WriteDescriptorSet(w.cameraDescriptors, BufferRange(w.camera.handle, 0, w.camera.size));
    gpu.WriteDescriptorSet(w.worldDescriptors, BufferRange(w.world.handle, 0, w.world.size));
  }

  /** After the two writes the workspace is live, and the step kept every other object. */
  lemma {:induction false} SetsPointed(w: Workspace, o: Owners, j: nat, s0: State, s1: State, s2: State,
                                       cp: Handle, dp: Handle, worldBytes: nat)
    requires WorkspaceAllocated(w, s1, cp, dp, worldBytes) && WorkspaceOwned(o, w, j) && OwnedPresent(o, s1)
    requires Stable(s0, s1, {}) && Unused(s0, w.cameraDescriptors) && Unused(s0, w.worldDescriptors)
    requires s2 == PointedSets(s1, w)
    ensures WorkspaceLive(w, s2, cp, dp, worldBytes) && Stable(s0, s2, {}) && OwnedPresent(o, s2)
    ensures s2.pools == s1.pools && s2.commandBuffers == s1.commandBuffers
    ensures w.transformDescriptors in s2.descriptorSets && s2.descriptorSets[w.transformDescriptors].binding == Unwritten
  {
    var gone := {w.cameraDescriptors, w.worldDescriptors};
    assert Stable(s1, s2, gone) by {
      forall h | h !in gone
        ensures Kept(s1, s2, h)
      {
      }
    }
    FixedPairStable(w.cameraSrc, w.camera, CameraBytes, UniformUsage, s1, s2, gone);
    FixedPairStable(w.worldSrc, w.world, worldBytes, UniformUsage, s1, s2, gone);
    StableTrans(s0, s1, s2, {}, gone);
    StableShrink(s0, s2, {}, gone);
    OwnedPresentStable(o, s1, s2, gone);
  }

  /**
   * A workspace whose buffers and sets exist but whose camera and world sets are not yet
   * written: what the allocations of the constructor's loop leave.
   */
  ghost predicate WorkspaceAllocated(w: Workspace, s: State, cp: Handle, dp: Handle, worldBytes: nat)
  {
    && w.commandBuffer in s.commandBuffers && s.commandBuffers[w.commandBuffer] == CommandBuffer(cp, Initial, false, [])
    && w.linesVerticesSrc == NoBuffer && w.linesVertices == NoBuffer && w.transformsSrc == NoBuffer && w.transforms == NoBuffer
    && FixedPair(w.cameraSrc, w.camera, CameraBytes, UniformUsage, s)
    && FixedPair(w.worldSrc, w.world, worldBytes, UniformUsage, s)
    && SetHolds(s, w.cameraDescriptors, dp, UniformBuffer, Unwritten)
    && SetHolds(s, w.worldDescriptors, dp, UniformBuffer, Unwritten)
    && SetHolds(s, w.transformDescriptors, dp, StorageBuffer, Unwritten)
  }

  /** The allocations made one after another all survive to the end of the loop body. */
  lemma {:induction false} WorkspaceCreated(w: Workspace, s1: State, s2: State, s3: State, s4: State,
                                            cp: Handle, dp: Handle, worldBytes: nat)
    requires w.commandBuffer in s1.commandBuffers && s1.commandBuffers[w.commandBuffer] == CommandBuffer(cp, Initial, false, [])
    requires w.linesVerticesSrc == NoBuffer && w.linesVertices == NoBuffer && w.transformsSrc == NoBuffer && w.transforms == NoBuffer
    requires FixedPair(w.cameraSrc, w.camera, CameraBytes, UniformUsage, s2)
    requires SetHolds(s2, w.cameraDescriptors, dp, UniformBuffer, Unwritten)
    requires FixedPair(w.worldSrc, w.world, worldBytes, UniformUsage, s3)
    requires SetHolds(s3, w.worldDescriptors, dp, UniformBuffer, Unwritten)
    requires SetHolds(s4, w.transformDescriptors, dp, StorageBuffer, Unwritten)
    requires Stable(s1, s4, {}) && Stable(s2, s4, {}) && Stable(s3, s4, {})
    ensures WorkspaceAllocated(w, s4, cp, dp, worldBytes)
  {
    assert Kept(s1, s4, w.commandBuffer) && Kept(s2, s4, w.cameraDescriptors) && Kept(s3, s4, w.worldDescriptors);
    FixedPairStable(w.cameraSrc, w.camera, CameraBytes, UniformUsage, s2, s4, {});
    FixedPairStable(w.worldSrc, w.world, worldBytes, UniformUsage, s3, s4, {});
  }

  // ---------------------------------------------------------------- the object vertices

  /**
   * The object vertex buffer (Tutorial.cpp:305-326): a device-local buffer of |vertices| *
   * sizeof(PosNorTexVertex) bytes used as a vertex buffer and a transfer destination, filled
   * with the vertices' bytes by transfer_to_buffer.  The constructor builds one per
   * workspace; the new buffer and its memory are owned with role `r` (see MeshRole).
   * Succeeds exactly when device-local and staging memory exist.
   */
  method UploadMesh(helpers: Helpers, vertices: seq<PosNorTexVertex>, ghost o: Owners, ghost r: Role)
    returns (res: Result<AllocatedBuffer>, ghost o1: Owners)
    requires helpers.Ready() && OwnedPresent(o, helpers.gpu.st) && 0 < |vertices|
    modifies helpers.gpu
    ensures helpers.Ready() && Stable(old(helpers.gpu.st), helpers.gpu.st, {helpers.TransferCommandBuffer})
    ensures Keeps(o, o1) && OwnedPresent(o1, helpers.gpu.st)
    ensures res.Success? <==>
      && FirstMemoryType(helpers.gpu.memoryTypes, helpers.gpu.bufferMemoryTypeBits, MEMORY_PROPERTY_DEVICE_LOCAL).Some?
      && FirstMemoryType(helpers.gpu.memoryTypes, helpers.gpu.bufferMemoryTypeBits, StagingProperties).Some?
    ensures res.Success? ==>
      var b := res.value;
      && LiveBuffer(b, helpers.gpu.st) && b.size == PosNorTexVertexBytes * |vertices|
      && helpers.gpu.st.buffers[b.handle].usage == ObjectVerticesUsage && Holds(helpers.gpu.st, b.handle, MeshBytes(vertices))
      && OwnsBuffer(o1, b, r) && b.handle !in o && b.allocation.handle !in o
      && helpers.gpu.st.pools == old(helpers.gpu.st).pools
  {
    ghost var s0 := helpers.gpu.st;
    var c := helpers.TransferCommandBuffer;
    var bytes := MeshBytes(vertices);
    res, o1 := CreateOwnedBuffer(helpers, |bytes|, ObjectVerticesUsage, MEMORY_PROPERTY_DEVICE_LOCAL, Unmapped, o, r);
    if res.Failure? {
      StableGrow(s0, helpers.gpu.st, {}, {c});
      return;
    }
    var b := res.value;
    ghost var s1 := helpers.gpu.st;
    assert HasFlags(ObjectVerticesUsage, BUFFER_USAGE_TRANSFER_DST);
    var sent, staging := helpers.TransferToBuffer(bytes, b);
    if sent.Failure? {
      StableTrans(s0, s1, helpers.gpu.st, {}, {});
      StableGrow(s0, helpers.gpu.st, {}, {c});
      OwnedPresentStable(o1, s1, helpers.gpu.st, {});
      return Failure(sent.error), o1;
    }
    BufferUploadedStable(s1, staging, FirstMemoryType(helpers.MemoryProperties, helpers.gpu.bufferMemoryTypeBits, StagingProperties).value,
                         bytes, b.handle, c);
    StableTrans(s0, s1, helpers.gpu.st, {}, {c});
    LiveBufferStable(b, s1, helpers.gpu.st, {c});
    assert Kept(s1, helpers.gpu.st, b.handle);
    OwnedPresentStable(o1, s1, helpers.gpu.st, {c});
  }

  // ---------------------------------------------------------------- the textures

  /**
   * What ImageLoader::Load hands the constructor: a width, a height and one 32-bit RGBA word
   * per texel (a 1x1 white texel when the file cannot be read).  Reading the file is not
   * part of this model: the loaded image is an input.
   */
  datatype LoadedImage = LoadedImage(width: nat, height: nat, texels: seq<bv32>)

  /**
   * A loaded image the constructor can upload: not empty, one word per texel as
   * Tutorial.cpp:338 asserts, and few enough texels for transfer_to_image's 32-bit size check.
   */
  predicate Uploadable(image: LoadedImage)
  {
    && 0 < image.width && 0 < image.height && |image.texels| == image.width * image.height
    && image.width * image.height < 0x1_0000_0000
  }

  /** The texel bytes of an uploadable image are exactly the size transfer_to_image expects of a 4-byte format. */
  lemma {:induction false} UploadSize(image: LoadedImage, format: Format)
    requires Uploadable(image) && format != FormatUndefined
    ensures var n := image.width * image.height;
      && |Words(image.texels)| == ((n % 0x1_0000_0000) * TexelBlockSize(format)) / TexelsPerBlock(format)
      && |Words(image.texels)| == ImageBytes(Extent2D(image.width, image.height), format)
      && 0 < |Words(image.texels)|
  {
    var n := image.width * image.height;
    assert n % 0x1_0000_0000 == n;
    ImageBytesIs(Extent2D(image.width, image.height), format);
  }

  const TextureUsage: Flags := IMAGE_USAGE_SAMPLED | IMAGE_USAGE_TRANSFER_DST

  /** Texture `i` has the loaded size and `format` and holds the texel bytes, ready to be sampled. */
  ghost predicate TextureHolds(s: State, i: AllocatedImage, image: LoadedImage, format: Format)
  {
    && i.extent == Extent2D(image.width, image.height) && i.format == format && i.handle in s.images
    && s.images[i.handle].layout == ShaderReadOnlyOptimal && s.images[i.handle].data == Words(image.texels)
  }

  /**
   * One texture (Tutorial.cpp:335-353 and 355-373): create_image of the loaded size and
   * `format`, optimal tiling, sampled and a transfer destination, in device-local memory;
   * then transfer_to_image of the texel words.  The texture then holds those bytes in
   * SHADER_READ_ONLY_OPTIMAL layout and is owned as the `k`-th texture; no buffer changed.
   * Succeeds exactly when device-local image memory and staging memory exist.
   */
  method CreateTexture(helpers: Helpers, image: LoadedImage, format: Format, ghost o: Owners, ghost k: nat)
    returns (res: Result<AllocatedImage>, ghost o1: Owners)
    requires helpers.Ready() && OwnedPresent(o, helpers.gpu.st) && Uploadable(image) && format != FormatUndefined
    modifies helpers.gpu
    ensures helpers.Ready() && Stable(old(helpers.gpu.st), helpers.gpu.st, {helpers.TransferCommandBuffer})
    ensures Keeps(o, o1) && OwnedPresent(o1, helpers.gpu.st)
    ensures res.Success? <==>
      && FirstMemoryType(helpers.gpu.memoryTypes, helpers.gpu.imageMemoryTypeBits, MEMORY_PROPERTY_DEVICE_LOCAL).Some?
      && FirstMemoryType(helpers.gpu.memoryTypes, helpers.gpu.bufferMemoryTypeBits, StagingProperties).Some?
    ensures res.Success? ==>
      var i := res.value;
      && LiveImage(i, helpers.gpu.st) && TextureHolds(helpers.gpu.st, i, image, format)
      && OwnsImage(o1, i, InScene(TextureItem, k, false)) && i.handle !in o && i.allocation.handle !in o
      && i.handle != helpers.TransferCommandBuffer && i.allocation.handle != helpers.TransferCommandBuffer
      && helpers.gpu.st.buffers == old(helpers.gpu.st).buffers
      && (forall h | h in old(helpers.gpu.st).images :: h in helpers.gpu.st.images && helpers.gpu.st.images[h] == old(helpers.gpu.st).images[h])
  {
    ghost var s0 := helpers.gpu.st;
    var c := helpers.TransferCommandBuffer;
    o1 := o;
    var extent := Extent2D(image.width, image.height);
    res := helpers.CreateImage(extent, format, Optimal, TextureUsage, MEMORY_PROPERTY_DEVICE_LOCAL, Unmapped);
    ReadyKept(s0, helpers.gpu.st, c);
    if res.Failure? {
      OwnedPresentStable(o, s0, helpers.gpu.st, {});
      StableGrow(s0, helpers.gpu.st, {}, {c});
      return;
    }
    var i := res.value;
    ghost var s1 := helpers.gpu.st;
    AdoptTwo(o, s0, s1, i.handle, InScene(TextureItem, k, false), i.allocation.handle, InScene(TextureItem, k, true));
    o1 := Adopted(o, i.handle, InScene(TextureItem, k, false), i.allocation.handle, InScene(TextureItem, k, true));
    var bytes := Words(image.texels);
    UploadSize(image, format);
    var sent, staging := helpers.TransferToImage(bytes, i);
    if sent.Failure? {
      StableTrans(s0, s1, helpers.gpu.st, {}, {});
      StableGrow(s0, helpers.gpu.st, {}, {c});
      OwnedPresentStable(o1, s1, helpers.gpu.st, {});
      return Failure(sent.error), o1;
    }
    TextureUploaded(image, format, i, o1, s0, s1, helpers.gpu.st, staging,
                    FirstMemoryType(helpers.MemoryProperties, helpers.gpu.imageMemoryTypeBits, MEMORY_PROPERTY_DEVICE_LOCAL).value,
                    FirstMemoryType(helpers.MemoryProperties, helpers.gpu.bufferMemoryTypeBits, StagingProperties).value, c);
  }

  /** The created image, once the upload ran, holds the texel bytes in SHADER_READ_ONLY_OPTIMAL layout; nothing else alive changed. */
  lemma {:induction false} TextureUploaded(image: LoadedImage, format: Format, i: AllocatedImage, o: Owners,
                                           s0: State, s1: State, s2: State, staging: AllocatedBuffer, ti: nat, tb: nat, c: Handle)
    requires Uploadable(image) && format != FormatUndefined && i.extent == Extent2D(image.width, image.height) && i.format == format
    requires s1 == ImageCreated(s0, i, Optimal, TextureUsage, ti, Unmapped) && LiveImage(i, s1) && Stable(s0, s1, {})
    requires c in s0.commandBuffers && Unused(s0, i.handle) && Unused(s0, i.allocation.handle) && OwnedPresent(o, s1)
    requires s2 == ImageUploaded(s1, staging, tb, Words(image.texels), i.handle, c)
    ensures Stable(s0, s2, {c}) && LiveImage(i, s2) && OwnedPresent(o, s2) && s2.buffers == s0.buffers
    ensures TextureHolds(s2, i, image, format)
    ensures forall h | h in s0.images :: h in s2.images && s2.images[h] == s0.images[h]
  {
    ImageUploadedStable(s1, staging, tb, Words(image.texels), i.handle, c);
    StableTrans(s0, s1, s2, {}, {c});
    LiveImageStable(i, s1, s2, {c});
    OwnedPresentStable(o, s1, s2, {c});
    UploadSize(image, format);
    assert HasFlags(TextureUsage, IMAGE_USAGE_TRANSFER_DST);
    assert |s1.images[i.handle].data| == |Words(image.texels)|;
  }

  /**
   * One image view per texture, in texture order (Tutorial.cpp:378-409); the `k`-th is owned
   * as the `k`-th texture view.  Only the objects change.
   */
  method CreateTextureViews(helpers: Helpers, textures: seq<AllocatedImage>, ghost o: Owners)
    returns (views: seq<Handle>, ghost o1: Owners)
    requires helpers.Ready() && OwnedPresent(o, helpers.gpu.st)
    modifies helpers.gpu
    ensures helpers.Ready() && Stable(old(helpers.gpu.st), helpers.gpu.st, {})
    ensures Keeps(o, o1) && OwnedPresent(o1, helpers.gpu.st)
    ensures |views| == |textures|
    ensures forall k | 0 <= k < |views| ::
      IsObject(helpers.gpu.st, views[k], ImageView) && Owns(o1, views[k], InScene(TextureViewItem, k, false)) && views[k] !in o
    ensures helpers.gpu.st.buffers == old(helpers.gpu.st).buffers && helpers.gpu.st.images == old(helpers.gpu.st).images
  {
    views, o1 := [], o;
    for k := 0 to |textures|
      invariant helpers.Ready() && Stable(old(helpers.gpu.st), helpers.gpu.st, {})
      invariant Keeps(o, o1) && OwnedPresent(o1, helpers.gpu.st)
      invariant |views| == k
      invariant forall j | 0 <= j < k ::
        IsObject(helpers.gpu.st, views[j], ImageView) && Owns(o1, views[j], InScene(TextureViewItem, j, false)) && views[j] !in o
      invariant helpers.gpu.st.buffers == old(helpers.gpu.st).buffers && helpers.gpu.st.images == old(helpers.gpu.st).images
    {
      ghost var s0 := helpers.gpu.st;
      var v := helpers.gpu.CreateObject(ImageView);
      ReadyKept(s0, helpers.gpu.st, helpers.TransferCommandBuffer);
      AdoptOne(o1, s0, helpers.gpu.st, v, InScene(TextureViewItem, k, false));
      StableTrans(old(helpers.gpu.st), s0, helpers.gpu.st, {}, {});
      o1 := o1[v := InScene(TextureViewItem, k, false)];
      views := views + [v];
    }
  }

  /**
   * One combined-image-sampler set per texture from the texture pool (Tutorial.cpp:459-475),
   * each owned as the `k`-th texture set and not yet written; the pool sized for `count`
   * sets ends exactly full.
   */
  method AllocateTextureSets(helpers: Helpers, pool: Handle, count: nat, ghost o: Owners)
    returns (sets: seq<Handle>, ghost o1: Owners)
    requires helpers.Ready() && OwnedPresent(o, helpers.gpu.st)
    requires pool in helpers.gpu.st.pools && helpers.gpu.st.pools[pool] == DescriptorPool(TexturePoolCapacity(count), PoolCounts(0, 0, 0, 0))
    modifies helpers.gpu
    ensures helpers.Ready() && Stable(old(helpers.gpu.st), helpers.gpu.st, {})
    ensures Keeps(o, o1) && OwnedPresent(o1, helpers.gpu.st)
    ensures |sets| == count
    ensures forall k | 0 <= k < |sets| ::
      && SetHolds(helpers.gpu.st, sets[k], pool, CombinedImageSampler, Unwritten)
      && Owns(o1, sets[k], InScene(TextureSetItem, k, false)) && Unused(old(helpers.gpu.st), sets[k])
    ensures pool in helpers.gpu.st.pools && helpers.gpu.st.pools[pool] == DescriptorPool(TexturePoolCapacity(count), TexturePoolCapacity(count))
    ensures helpers.gpu.st.buffers == old(helpers.gpu.st).buffers && helpers.gpu.st.objects == old(helpers.gpu.st).objects
      && helpers.gpu.st.images == old(helpers.gpu.st).images
  {
    sets, o1 := [], o;
    for k := 0 to count
      invariant helpers.Ready() && Stable(old(helpers.gpu.st), helpers.gpu.st, {})
      invariant Keeps(o, o1) && OwnedPresent(o1, helpers.gpu.st)
      invariant |sets| == k
      invariant forall j | 0 <= j < k ::
        && SetHolds(helpers.gpu.st, sets[j], pool, CombinedImageSampler, Unwritten)
        && Owns(o1, sets[j], InScene(TextureSetItem, j, false)) && Unused(old(helpers.gpu.st), sets[j])
      invariant pool in helpers.gpu.st.pools && helpers.gpu.st.pools[pool] == DescriptorPool(TexturePoolCapacity(count), PoolCounts(k, 0, 0, k))
      invariant helpers.gpu.st.buffers == old(helpers.gpu.st).buffers && helpers.gpu.st.objects == old(helpers.gpu.st).objects
      && helpers.gpu.st.images == old(helpers.gpu.st).images
    {
      ghost var s0, oa := helpers.gpu.st, o1;
      TextureSetsFit(k, count, CombinedImageSampler);
      var d;
      d, o1 := AllocateOwnedSet(helpers, pool, CombinedImageSampler, o1, InScene(TextureSetItem, k, false));
      UnusedEarlier(old(helpers.gpu.st), s0, d);
      StableTrans(old(helpers.gpu.st), s0, helpers.gpu.st, {}, {});
      KeepsTrans(o, oa, o1);
      forall j | 0 <= j < k
        ensures SetHolds(helpers.gpu.st, sets[j], pool, CombinedImageSampler, Unwritten)
      {
        assert Kept(s0, helpers.gpu.st, sets[j]);
      }
      sets := sets + [d];
    }
    TextureSetsFit(count, count, CombinedImageSampler);
  }

  /**
   * The texture sets' writes (Tutorial.cpp:477-504): the `k`-th set shows the `k`-th view
   * through the sampler in SHADER_READ_ONLY_OPTIMAL layout.  The one vkUpdateDescriptorSets
   * call is modelled as its writes in order.  Only the sets' bindings change.
   */
  method WriteTextureSets(gpu: Gpu, sets: seq<Handle>, views: seq<Handle>, sampler: Handle, ghost pool: Handle, ghost o: Owners)
    requires gpu.Valid() && |sets| == |views| && IsObject(gpu.st, sampler, Sampler)
    requires forall k | 0 <= k < |sets| ::
      && SetHolds(gpu.st, sets[k], pool, CombinedImageSampler, Unwritten)
      && IsObject(gpu.st, views[k], ImageView) && Owns(o, sets[k], InScene(TextureSetItem, k, false))
    modifies gpu
    ensures gpu.Valid() && Stable(old(gpu.st), gpu.st, Elements(sets))
    ensures forall k | 0 <= k < |sets| ::
      SetHolds(gpu.st, sets[k], pool, CombinedImageSampler, ImageSampler(views[k], sampler, ShaderReadOnlyOptimal))
    ensures gpu.st.buffers == old(gpu.st).buffers && gpu.st.objects == old(gpu.st).objects && gpu.st.pools == old(gpu.st).pools
      && gpu.st.images == old(gpu.st).images && gpu.st.commandBuffers == old(gpu.st).commandBuffers
  {
    for k := 0 to |sets|
      invariant gpu.Valid() && Stable(old(gpu.st), gpu.st, Elements(sets))
      invariant forall j | 0 <= j < |sets| ::
        SetHolds(gpu.st, sets[j], pool, CombinedImageSampler,
                 if j < k then ImageSampler(views[j], sampler, ShaderReadOnlyOptimal) else Unwritten)
      invariant gpu.st.buffers == old(gpu.st).buffers && gpu.st.objects == old(gpu.st).objects && gpu.st.pools == old(gpu.st).pools
      && gpu.st.images == old(gpu.st).images && gpu.st.commandBuffers == old(gpu.st).commandBuffers
    {
      ghost var s0 := gpu.st;
      gpu.WriteDescriptorSet(sets[k], ImageSampler(views[k], sampler, ShaderReadOnlyOptimal));
      StableTrans(old(gpu.st), s0, gpu.st, Elements(sets), {sets[k]});
      StableGrow(old(gpu.st), gpu.st, Elements(sets) + {sets[k]}, Elements(sets));
      forall j | 0 <= j < |sets| && j != k
        ensures sets[j] != sets[k]
      {
        assert Owns(o, sets[j], InScene(TextureSetItem, j, false));
      }
    }
  }

  /**
   * The texture sampler (Tutorial.cpp:411-432) and the texture descriptor pool sized for one
   * combined-image-sampler set per texture (Tutorial.cpp:434-455), owned as such; every
   * object alive before is as it was.
   */
  method CreateSamplerAndPool(helpers: Helpers, count: nat, ghost o: Owners)
    returns (sampler: Handle, pool: Handle, ghost o1: Owners)
    requires helpers.Ready() && OwnedPresent(o, helpers.gpu.st)
    modifies helpers.gpu
    ensures helpers.Ready() && Stable(old(helpers.gpu.st), helpers.gpu.st, {})
    ensures Keeps(o, o1) && OwnedPresent(o1, helpers.gpu.st)
    ensures IsObject(helpers.gpu.st, sampler, Sampler) && Owns(o1, sampler, InScene(SamplerItem, 0, false))
    ensures pool in helpers.gpu.st.pools && Owns(o1, pool, InScene(TexturePoolItem, 0, false))
    ensures helpers.gpu.st.pools[pool] == DescriptorPool(TexturePoolCapacity(count), PoolCounts(0, 0, 0, 0))
    ensures forall h | h in old(helpers.gpu.st).objects :: h in helpers.gpu.st.objects && helpers.gpu.st.objects[h] == old(helpers.gpu.st).objects[h]
    ensures helpers.gpu.st.buffers == old(helpers.gpu.st).buffers && helpers.gpu.st.images == old(helpers.gpu.st).images
  {
    ghost var s0 := helpers.gpu.st;
    var c := helpers.TransferCommandBuffer;
    sampler := helpers.gpu.CreateObject(Sampler);
    ghost var s1 := helpers.gpu.st;
    ReadyKept(s0, s1, c);
    AdoptOne(o, s0, s1, sampler, InScene(SamplerItem, 0, false));
    o1 := o[sampler := InScene(SamplerItem, 0, false)];
    pool := helpers.gpu.CreateDescriptorPool(TexturePoolCapacity(count));
    ReadyKept(s1, helpers.gpu.st, c);
    AdoptOne(o1, s1, helpers.gpu.st, pool, InScene(TexturePoolItem, 0, false));
    KeepsTrans(o, o1, o1[pool := InScene(TexturePoolItem, 0, false)]);
    o1 := o1[pool := InScene(TexturePoolItem, 0, false)];
    StableTrans(s0, s1, helpers.gpu.st, {}, {});
  }

  /** The texture fields the constructor fills: the textures, their views, the sampler, the texture pool and the texture sets. */
  datatype TextureObjects = TextureObjects(images: seq<AllocatedImage>, views: seq<Handle>, sampler: Handle, pool: Handle,
                                           sets: seq<Handle>)

  function WithTextures(sc: Scene, t: TextureObjects): Scene
  {
    sc.(textures := t.images, textureViews := t.views, textureSampler := t.sampler, textureDescriptorPool := t.pool,
        textureDescriptors := t.sets)
  }

  /**
   * The constructor's two textures (Tutorial.cpp:329-375): the yellow paint in R8G8B8A8_UNORM,
   * then the water mask in R8G8B8A8_SRGB, each holding its loaded texels.  Succeeds exactly
   * when device-local image memory and staging memory exist.
   */
  method CreateTextureImages(helpers: Helpers, yellow: LoadedImage, water: LoadedImage, ghost o: Owners)
    returns (res: Result<seq<AllocatedImage>>, ghost o1: Owners)
    requires helpers.Ready() && OwnedPresent(o, helpers.gpu.st) && Uploadable(yellow) && Uploadable(water)
    modifies helpers.gpu
    ensures helpers.Ready() && Stable(old(helpers.gpu.st), helpers.gpu.st, {helpers.TransferCommandBuffer})
    ensures Keeps(o, o1) && OwnedPresent(o1, helpers.gpu.st)
    ensures res.Success? <==>
      && FirstMemoryType(helpers.gpu.memoryTypes, helpers.gpu.imageMemoryTypeBits, MEMORY_PROPERTY_DEVICE_LOCAL).Some?
      && FirstMemoryType(helpers.gpu.memoryTypes, helpers.gpu.bufferMemoryTypeBits, StagingProperties).Some?
    ensures res.Success? ==>
      var images := res.value;
      && |images| == 2
      && LiveImage(images[0], helpers.gpu.st) && OwnsImage(o1, images[0], InScene(TextureItem, 0, false))
      && LiveImage(images[1], helpers.gpu.st) && OwnsImage(o1, images[1], InScene(TextureItem, 1, false))
      && TextureHolds(helpers.gpu.st, images[0], yellow, R8G8B8A8Unorm)
      && TextureHolds(helpers.gpu.st, images[1], water, R8G8B8A8Srgb)
      && helpers.gpu.st.buffers == old(helpers.gpu.st).buffers
  {
    ghost var s0 := helpers.gpu.st;
    var c := helpers.TransferCommandBuffer;
    var r0;
    r0, o1 := CreateTexture(helpers, yellow, R8G8B8A8Unorm, o, 0);
    if r0.Failure? {
      return Failure(r0.error), o1;
    }
    ghost var s1, oa := helpers.gpu.st, o1;
    var r1;
    r1, o1 := CreateTexture(helpers, water, R8G8B8A8Srgb, o1, 1);
    StableTrans(s0, s1, helpers.gpu.st, {c}, {c});
    KeepsTrans(o, oa, o1);
    // The second texture needs the same memory types as the first.
    assert r1.Success?;
    LiveImageStable(r0.value, s1, helpers.gpu.st, {c});
    assert OwnsImage(oa, r0.value, InScene(TextureItem, 0, false));
    res := Success([r0.value, r1.value]);
  }

  /**
   * What the constructor makes for the textures once they exist (Tutorial.cpp:377-505): a view
   * of each, the sampler, the texture pool and one set per texture, each set written to show
   * its texture's view through the sampler.  The texture fields then satisfy the renderer's
   * texture invariant; images and buffers are as they were.
   */
  method CreateTextureBindings(helpers: Helpers, images: seq<AllocatedImage>, ghost o: Owners, ghost sc: Scene)
    returns (t: TextureObjects, ghost o1: Owners)
    requires helpers.Ready() && OwnedPresent(o, helpers.gpu.st) && |images| == 2
    requires LiveImage(images[0], helpers.gpu.st) && OwnsImage(o, images[0], InScene(TextureItem, 0, false))
    requires LiveImage(images[1], helpers.gpu.st) && OwnsImage(o, images[1], InScene(TextureItem, 1, false))
    modifies helpers.gpu
    ensures helpers.Ready() && Stable(old(helpers.gpu.st), helpers.gpu.st, {})
    ensures Keeps(o, o1) && OwnedPresent(o1, helpers.gpu.st)
    ensures t.images == images && TexturesOk(WithTextures(sc, t), helpers.gpu.st, o1) && |t.views| == 2 && |t.sets| == 2
    ensures helpers.gpu.st.buffers == old(helpers.gpu.st).buffers && helpers.gpu.st.images == old(helpers.gpu.st).images
  {
    ghost var s2 := helpers.gpu.st;
    var c := helpers.TransferCommandBuffer;
    var views;
    views, o1 := CreateTextureViews(helpers, images, o);
    ghost var s3, oc := helpers.gpu.st, o1;
    var sampler, pool;
    sampler, pool, o1 := CreateSamplerAndPool(helpers, |images|, o1);
    ghost var s5, oe := helpers.gpu.st, o1;
    var sets;
    sets, o1 := AllocateTextureSets(helpers, pool, |images|, o1);
    ghost var s6 := helpers.gpu.st;
    WriteTextureSets(helpers.gpu, sets, views, sampler, pool, o1);
    t := TextureObjects(images, views, sampler, pool, sets);
    TexturesAssembled(sc, t, o, oc, oe, o1, s2, s3, s5, s6, helpers.gpu.st);
    assert Kept(s6, helpers.gpu.st, c);
  }

  /**
   * The constructor's texture part (Tutorial.cpp:329-505): the two textures, then their
   * views, sampler, pool and sets.  On success the texture fields satisfy the renderer's
   * texture invariant, the textures hold the loaded texels, and no buffer changed.  Succeeds
   * exactly when device-local image memory and staging memory exist.
   */
  method CreateTextures(helpers: Helpers, yellow: LoadedImage, water: LoadedImage, ghost o: Owners, ghost sc: Scene)
    returns (res: Result<TextureObjects>, ghost o1: Owners)
    requires helpers.Ready() && OwnedPresent(o, helpers.gpu.st) && Uploadable(yellow) && Uploadable(water)
    modifies helpers.gpu
    ensures helpers.Ready() && Stable(old(helpers.gpu.st), helpers.gpu.st, {helpers.TransferCommandBuffer})
    ensures Keeps(o, o1) && OwnedPresent(o1, helpers.gpu.st)
    ensures res.Success? <==>
      && FirstMemoryType(helpers.gpu.memoryTypes, helpers.gpu.imageMemoryTypeBits, MEMORY_PROPERTY_DEVICE_LOCAL).Some?
      && FirstMemoryType(helpers.gpu.memoryTypes, helpers.gpu.bufferMemoryTypeBits, StagingProperties).Some?
    ensures res.Success? ==>
      var t := res.value;
      && TexturesOk(WithTextures(sc, t), helpers.gpu.st, o1) && |t.images| == 2 && |t.views| == 2 && |t.sets| == 2
      && TextureHolds(helpers.gpu.st, t.images[0], yellow, R8G8B8A8Unorm)
      && TextureHolds(helpers.gpu.st, t.images[1], water, R8G8B8A8Srgb)
      && helpers.gpu.st.buffers == old(helpers.gpu.st).buffers
  {
    ghost var s0 := helpers.gpu.st;
    var images;
    images, o1 := CreateTextureImages(helpers, yellow, water, o);
    if images.Failure? {
      return Failure(images.error), o1;
    }
    ghost var s1, oa := helpers.gpu.st, o1;
    var t;
    t, o1 := CreateTextureBindings(helpers, images.value, o1, sc);
    StableTrans(s0, s1, helpers.gpu.st, {helpers.TransferCommandBuffer}, {});
    KeepsTrans(o, oa, o1);
    res := Success(t);
  }

  /** The texture objects made one after another all survive to the end, and the steps as a whole kept every object alive before them. */
  lemma {:induction false} TexturesAssembled(sc: Scene, t: TextureObjects, ob: Owners, oc: Owners, oe: Owners, o1: Owners,
                                             s2: State, s3: State, s5: State, s6: State, s7: State)
    requires |t.images| == 2 && |t.views| == 2 && |t.sets| == 2
    requires LiveImage(t.images[0], s2) && OwnsImage(ob, t.images[0], InScene(TextureItem, 0, false))
    requires LiveImage(t.images[1], s2) && OwnsImage(ob, t.images[1], InScene(TextureItem, 1, false))
    requires Stable(s2, s3, {}) && Keeps(ob, oc)
    requires forall k | 0 <= k < 2 :: IsObject(s3, t.views[k], ImageView) && Owns(oc, t.views[k], InScene(TextureViewItem, k, false))
    requires Stable(s3, s5, {}) && Keeps(oc, oe)
    requires IsObject(s5, t.sampler, Sampler) && Owns(oe, t.sampler, InScene(SamplerItem, 0, false))
    requires t.pool in s5.pools && Owns(oe, t.pool, InScene(TexturePoolItem, 0, false))
    requires Stable(s5, s6, {}) && Keeps(oe, o1) && OwnedPresent(o1, s6)
    requires forall k | 0 <= k < 2 :: Owns(o1, t.sets[k], InScene(TextureSetItem, k, false)) && Unused(s5, t.sets[k])
    requires Stable(s6, s7, Elements(t.sets))
    requires forall k | 0 <= k < 2 ::
      SetHolds(s7, t.sets[k], t.pool, CombinedImageSampler, ImageSampler(t.views[k], t.sampler, ShaderReadOnlyOptimal))
    ensures Stable(s2, s7, {}) && OwnedPresent(o1, s7) && Keeps(ob, o1)
    ensures TexturesOk(WithTextures(sc, t), s7, o1)
  {
    TextureStepsStable(t.sets, s2, s3, s5, s6, s7);
    OwnedPresentStable(o1, s6, s7, Elements(t.sets));
    KeepsChain(ob, oc, oe, o1);
    TexturesLive(sc, t, ob, oc, oe, o1, s2, s3, s5, s7);
  }

  /** The steps after the uploads kept every object alive before them: the sets they wrote were made by them. */
  lemma {:induction false} TextureStepsStable(sets: seq<Handle>, s2: State, s3: State, s5: State, s6: State, s7: State)
    requires |sets| == 2 && Stable(s2, s3, {}) && Stable(s3, s5, {}) && Stable(s5, s6, {})
    requires Stable(s6, s7, Elements(sets)) && Unused(s5, sets[0]) && Unused(s5, sets[1])
    ensures Stable(s2, s7, {}) && Stable(s3, s7, {}) && Stable(s5, s7, {})
  {
    assert sets == [sets[0], sets[1]];
    StableTrans(s5, s6, s7, {}, Elements(sets));
    StableShrink(s5, s7, {}, Elements(sets));
    StableTrans(s3, s5, s7, {}, {});
    StableTrans(s2, s3, s7, {}, {});
  }

  lemma {:induction false} KeepsChain(ob: Owners, oc: Owners, oe: Owners, o1: Owners)
    requires Keeps(ob, oc) && Keeps(oc, oe) && Keeps(oe, o1)
    ensures Keeps(ob, o1) && Keeps(oc, o1)
  {
    KeepsTrans(oc, oe, o1);
    KeepsTrans(ob, oc, o1);
  }

  /** Each texture object, alive when it was made and owned since, is alive and owned at the end. */
  lemma {:induction false} TexturesLive(sc: Scene, t: TextureObjects, ob: Owners, oc: Owners, oe: Owners, o1: Owners,
                                        s2: State, s3: State, s5: State, s7: State)
    requires |t.images| == 2 && |t.views| == 2 && |t.sets| == 2
    requires Keeps(ob, o1) && Keeps(oc, o1) && Keeps(oe, o1)
    requires Stable(s2, s7, {}) && Stable(s3, s7, {}) && Stable(s5, s7, {})
    requires LiveImage(t.images[0], s2) && OwnsImage(ob, t.images[0], InScene(TextureItem, 0, false))
    requires LiveImage(t.images[1], s2) && OwnsImage(ob, t.images[1], InScene(TextureItem, 1, false))
    requires forall k | 0 <= k < 2 :: IsObject(s3, t.views[k], ImageView) && Owns(oc, t.views[k], InScene(TextureViewItem, k, false))
    requires IsObject(s5, t.sampler, Sampler) && Owns(oe, t.sampler, InScene(SamplerItem, 0, false))
    requires t.pool in s5.pools && Owns(oe, t.pool, InScene(TexturePoolItem, 0, false))
    requires forall k | 0 <= k < 2 :: Owns(o1, t.sets[k], InScene(TextureSetItem, k, false))
    requires forall k | 0 <= k < 2 ::
      SetHolds(s7, t.sets[k], t.pool, CombinedImageSampler, ImageSampler(t.views[k], t.sampler, ShaderReadOnlyOptimal))
    ensures TexturesOk(WithTextures(sc, t), s7, o1)
  {
    assert Kept(s5, s7, t.sampler) && Kept(s5, s7, t.pool);
    forall k | 0 <= k < 2
      ensures LiveImage(t.images[k], s7) && IsObject(s7, t.views[k], ImageView)
    {
      LiveImageStable(t.images[k], s2, s7, {});
      assert Kept(s3, s7, t.views[k]);
    }
  }

  // ---------------------------------------------------------------- before the workspace loop

  /**
   * The objects the constructor makes before its workspace loop (Tutorial.cpp:29-38, 40-130,
   * 138-161): the command pool the workspaces' command buffers come from, the render pass,
   * and the descriptor pool sized for exactly the three sets of each of `n` workspaces, with
   * nothing allocated from it yet.  Each is owned by its field.
   */
  method CreateStatics(helpers: Helpers, n: nat, ghost o: Owners)
    returns (commandPool: Handle, renderPass: Handle, descriptorPool: Handle, ghost o1: Owners)
    requires helpers.Ready() && OwnedPresent(o, helpers.gpu.st)
    modifies helpers.gpu
    ensures helpers.Ready() && Stable(old(helpers.gpu.st), helpers.gpu.st, {})
    ensures Keeps(o, o1) && OwnedPresent(o1, helpers.gpu.st)
    ensures IsObject(helpers.gpu.st, commandPool, CommandPool) && Owns(o1, commandPool, InScene(CommandPoolItem, 0, false))
    ensures IsObject(helpers.gpu.st, renderPass, RenderPass) && Owns(o1, renderPass, InScene(RenderPassItem, 0, false))
    ensures descriptorPool in helpers.gpu.st.pools && Owns(o1, descriptorPool, InScene(DescriptorPoolItem, 0, false))
    ensures helpers.gpu.st.pools[descriptorPool] == DescriptorPool(WorkspacePoolCapacity(n), WorkspaceSetsUsed(0))
  {
    ghost var s0 := helpers.gpu.st;
    commandPool := helpers.gpu.CreateCommandPool();
    ReadyKept(s0, helpers.gpu.st, helpers.TransferCommandBuffer);
    AdoptOne(o, s0, helpers.gpu.st, commandPool, InScene(CommandPoolItem, 0, false));
    o1 := o[commandPool := InScene(CommandPoolItem, 0, false)];
    ghost var s1, oa := helpers.gpu.st, o1;
    renderPass := helpers.gpu.CreateObject(RenderPass);
    ReadyKept(s1, helpers.gpu.st, helpers.TransferCommandBuffer);
    AdoptOne(o1, s1, helpers.gpu.st, renderPass, InScene(RenderPassItem, 0, false));
    o1 := o1[renderPass := InScene(RenderPassItem, 0, false)];
    ghost var s2, ob := helpers.gpu.st, o1;
    descriptorPool := helpers.gpu.CreateDescriptorPool(WorkspacePoolCapacity(n));
    ReadyKept(s2, helpers.gpu.st, helpers.TransferCommandBuffer);
    AdoptOne(o1, s2, helpers.gpu.st, descriptorPool, InScene(DescriptorPoolItem, 0, false));
    o1 := o1[descriptorPool := InScene(DescriptorPoolItem, 0, false)];
    KeepsTrans(o, oa, ob);
    KeepsTrans(o, ob, o1);
    StableTrans(s0, s1, s2, {}, {});
    StableTrans(s0, s2, helpers.gpu.st, {}, {});
    assert Kept(s1, s2, commandPool) && Kept(s2, helpers.gpu.st, commandPool) && Kept(s2, helpers.gpu.st, renderPass);
  }

  // ---------------------------------------------------------------- the workspace loop

  /** The object mesh the constructor uploads: the plane's six vertices, then the torus's 1920. */
  function ObjectMesh(vertex: (nat, nat) -> PosNorTexVertex): (r: seq<PosNorTexVertex>)
  {
    PlaneVerticesList() + TorusVerticesList(vertex)
  }

  /**
   * The role of the mesh buffer built by iteration `k` of a loop over `n` workspaces: the
   * last one stays in ObjectVertices, every earlier one is overwritten and leaked.
   */
  function MeshRole(k: nat, n: nat): Role
  {
    if k + 1 == n then InScene(ObjectVerticesItem, 0, false) else InScene(LeakedVerticesItem, k, false)
  }

  /** The transfer pair, the command pool, the render pass and the workspace pool, each owned by its field. */
  ghost predicate Prepared(sc: Scene, s: State, o: Owners)
  {
    && Owns(o, sc.transferPool, InScene(TransferPoolItem, 0, false))
    && Owns(o, sc.transferBuffer, InScene(TransferBufferItem, 0, false))
    && IsObject(s, sc.commandPool, CommandPool) && Owns(o, sc.commandPool, InScene(CommandPoolItem, 0, false))
    && IsObject(s, sc.renderPass, RenderPass) && Owns(o, sc.renderPass, InScene(RenderPassItem, 0, false))
    && sc.descriptorPool in s.pools && Owns(o, sc.descriptorPool, InScene(DescriptorPoolItem, 0, false))
  }

  /**
   * Before the first iteration there is no mesh buffer and nothing leaked; after iteration
   * k the mesh buffer of that iteration holds `mesh` and the k before it are leaked.
   */
  ghost predicate MeshHeld(sc: Scene, n: nat, mesh: seq<Byte>, s: State, o: Owners)
  {
    if sc.workspaces == [] then sc.objectVertices == NoBuffer && sc.leaked == []
    else
      && |sc.leaked| + 1 == |sc.workspaces| && LiveBuffer(sc.objectVertices, s)
      && OwnsBuffer(o, sc.objectVertices, MeshRole(|sc.leaked|, n))
      && s.buffers[sc.objectVertices.handle].usage == ObjectVerticesUsage && Holds(s, sc.objectVertices.handle, mesh)
  }

  /**
   * The invariant of the constructor's loop over `n` workspaces: the workspaces built so far
   * are live and owned, their sets are exactly what the pool has handed out, and the mesh
   * buffers are as MeshHeld says.
   */
  ghost predicate Building(sc: Scene, n: nat, mesh: seq<Byte>, s: State, o: Owners)
  {
    forall p: BuildPart :: BuildingPart(sc, n, mesh, s, o, p)
  }

  /** The parts of the loop's invariant, stated apart so that a proof that only carries the invariant along does not unfold it. */
  datatype BuildPart = PreparedPart | PoolPart | WorkspacesPart | LeakedPart | MeshPart | AlivePart

  ghost predicate BuildingPart(sc: Scene, n: nat, mesh: seq<Byte>, s: State, o: Owners, p: BuildPart)
  {
    match p
    case PreparedPart => |sc.workspaces| <= n && Prepared(sc, s, o)
    case PoolPart => sc.descriptorPool in s.pools && s.pools[sc.descriptorPool] == DescriptorPool(WorkspacePoolCapacity(n), WorkspaceSetsUsed(|sc.workspaces|))
    case WorkspacesPart => WorkspacesOk(sc, s, o)
    case LeakedPart => LeakedOk(sc.leaked, s, o)
    case MeshPart => MeshHeld(sc, n, mesh, s, o)
    case AlivePart => OwnedPresent(o, s)
  }

  lemma {:induction false} BuildingParts(sc: Scene, n: nat, mesh: seq<Byte>, s: State, o: Owners)
    requires Building(sc, n, mesh, s, o)
    ensures |sc.workspaces| <= n && Prepared(sc, s, o)
    ensures sc.descriptorPool in s.pools
    ensures s.pools[sc.descriptorPool] == DescriptorPool(WorkspacePoolCapacity(n), WorkspaceSetsUsed(|sc.workspaces|))
    ensures WorkspacesOk(sc, s, o) && LeakedOk(sc.leaked, s, o) && MeshHeld(sc, n, mesh, s, o) && OwnedPresent(o, s)
  {
    assert BuildingPart(sc, n, mesh, s, o, PreparedPart) && BuildingPart(sc, n, mesh, s, o, PoolPart);
    assert BuildingPart(sc, n, mesh, s, o, WorkspacesPart) && BuildingPart(sc, n, mesh, s, o, LeakedPart);
    assert BuildingPart(sc, n, mesh, s, o, MeshPart) && BuildingPart(sc, n, mesh, s, o, AlivePart);
  }

  lemma {:induction false} BuildingFromParts(sc: Scene, n: nat, mesh: seq<Byte>, s: State, o: Owners)
    requires |sc.workspaces| <= n && Prepared(sc, s, o)
    requires sc.descriptorPool in s.pools
    requires s.pools[sc.descriptorPool] == DescriptorPool(WorkspacePoolCapacity(n), WorkspaceSetsUsed(|sc.workspaces|))
    requires WorkspacesOk(sc, s, o) && LeakedOk(sc.leaked, s, o) && MeshHeld(sc, n, mesh, s, o) && OwnedPresent(o, s)
    ensures Building(sc, n, mesh, s, o)
  {
    forall p: BuildPart
      ensures BuildingPart(sc, n, mesh, s, o, p)
    {
    }
  }

  /**
   * The scene after one more iteration built workspace `w` and mesh buffer `b`: the buffer
   * ObjectVertices held before is overwritten and joins the leaked ones.
   */
  function Grown(sc: Scene, w: Workspace, b: AllocatedBuffer): Scene
  {
    sc.(workspaces := sc.workspaces + [w], objectVertices := b,
        leaked := if sc.objectVertices == NoBuffer then sc.leaked else sc.leaked + [sc.objectVertices])
  }

  lemma {:induction false} WorkspaceOwnedKept(o0: Owners, o1: Owners, w: Workspace, j: nat)
    requires WorkspaceOwned(o0, w, j) && Keeps(o0, o1)
    ensures WorkspaceOwned(o1, w, j)
  {
  }

  /**
   * A step that took away only the transfer command buffer and kept every owner leaves the
   * prepared objects, the workspaces built so far and the leaked buffers as they were.
   */
  lemma {:induction false} BuiltKept(sc: Scene, s0: State, s1: State, o0: Owners, o1: Owners)
    requires Prepared(sc, s0, o0) && WorkspacesOk(sc, s0, o0) && LeakedOk(sc.leaked, s0, o0)
    requires Stable(s0, s1, {sc.transferBuffer}) && Keeps(o0, o1)
    ensures Prepared(sc, s1, o1) && WorkspacesOk(sc, s1, o1) && LeakedOk(sc.leaked, s1, o1)
    ensures s1.pools[sc.descriptorPool].capacity == s0.pools[sc.descriptorPool].capacity
  {
    var gone := {sc.transferBuffer};
    assert OnlyWorkspaceGone(o0, gone);
    assert Kept(s0, s1, sc.commandPool) && Kept(s0, s1, sc.renderPass) && Kept(s0, s1, sc.descriptorPool);
    OtherWorkspacesStable(sc, |sc.workspaces|, o0, s0, s1, gone);
    forall j | 0 <= j < |sc.workspaces|
      ensures WorkspaceOwned(o1, sc.workspaces[j], j)
    {
      WorkspaceOwnedKept(o0, o1, sc.workspaces[j], j);
    }
    LeakedStable(sc.leaked, o0, s0, s1, gone);
    forall k | 0 <= k < |sc.leaked|
      ensures OwnsBuffer(o1, sc.leaked[k], InScene(LeakedVerticesItem, k, false))
    {
      assert OwnsBuffer(o0, sc.leaked[k], InScene(LeakedVerticesItem, k, false));
    }
  }

  /**
   * One iteration of the constructor's loop keeps its invariant: from state `s0` it built
   * workspace `w` (reaching `s1`, with the pool's usage one workspace further), then the mesh
   * buffer `b` (reaching `s2`, the transfer command buffer recorded again).
   */
  lemma {:induction false} BuildingStep(sc: Scene, n: nat, mesh: seq<Byte>, w: Workspace, b: AllocatedBuffer,
                                        s0: State, s1: State, s2: State, o0: Owners, o1: Owners, o2: Owners)
    requires Building(sc, n, mesh, s0, o0) && |sc.workspaces| < n
    requires Stable(s0, s1, {}) && Keeps(o0, o1)
    requires WorkspaceLive(w, s1, sc.commandPool, sc.descriptorPool, sc.worldBytes) && WorkspaceOwned(o1, w, |sc.workspaces|)
    requires sc.descriptorPool in s1.pools
    requires s1.pools[sc.descriptorPool] == DescriptorPool(WorkspacePoolCapacity(n), WorkspaceSetsUsed(|sc.workspaces| + 1))
    requires Stable(s1, s2, {sc.transferBuffer}) && Keeps(o1, o2) && OwnedPresent(o2, s2) && s2.pools == s1.pools
    requires LiveBuffer(b, s2) && OwnsBuffer(o2, b, MeshRole(|sc.workspaces|, n))
    requires s2.buffers[b.handle].usage == ObjectVerticesUsage && Holds(s2, b.handle, mesh)
    ensures Building(Grown(sc, w, b), n, mesh, s2, o2)
  {
    var tb := sc.transferBuffer;
    var i := |sc.workspaces|;
    var sc2 := Grown(sc, w, b);
    BuildingParts(sc, n, mesh, s0, o0);
    StableTrans(s0, s1, s2, {}, {tb});
    KeepsTrans(o0, o1, o2);
    BuiltKept(sc, s0, s2, o0, o2);
    assert o1[tb] == InScene(TransferBufferItem, 0, false);
    WorkspaceStable(w, i, o1, s1, s2, {tb}, sc.commandPool, sc.descriptorPool, sc.worldBytes);
    WorkspaceOwnedKept(o1, o2, w, i);
    assert WorkspacesOk(sc2, s2, o2) by {
      forall j | 0 <= j < |sc2.workspaces|
        ensures WorkspaceLive(sc2.workspaces[j], s2, sc.commandPool, sc.descriptorPool, sc.worldBytes)
        ensures WorkspaceOwned(o2, sc2.workspaces[j], j)
      {
        if j < i {
          assert sc2.workspaces[j] == sc.workspaces[j];
        }
      }
    }
    if sc.workspaces != [] {
      var ov := sc.objectVertices;
      var k := |sc.leaked|;
      assert OwnsBuffer(o0, ov, InScene(LeakedVerticesItem, k, false));
      LiveBufferStable(ov, s0, s2, {tb});
      LeakedGrown(sc.leaked, ov, s2, o2);
    }
    BuildingFromParts(sc2, n, mesh, s2, o2);
  }

  /** Leaking one more live, owned buffer keeps the leaked list sound. */
  lemma {:induction false} LeakedGrown(leaked: seq<AllocatedBuffer>, b: AllocatedBuffer, s: State, o: Owners)
    requires LeakedOk(leaked, s, o) && LiveBuffer(b, s) && OwnsBuffer(o, b, InScene(LeakedVerticesItem, |leaked|, false))
    ensures LeakedOk(leaked + [b], s, o)
  {
    var grown := leaked + [b];
    forall j | 0 <= j < |grown|
      ensures LiveBuffer(grown[j], s) && OwnsBuffer(o, grown[j], InScene(LeakedVerticesItem, j, false))
    {
      if j < |leaked| {
        assert grown[j] == leaked[j];
      }
    }
  }

  /**
   * The device side of one iteration of the constructor's loop (Tutorial.cpp:165-326): the
   * next workspace, then a new mesh buffer holding `vertices`.  Succeeds exactly when staging
   * and device-local buffer memory exist, and then the loop's invariant holds of the scene
   * grown by the workspace and the buffer.
   */
  method BuildIteration(helpers: Helpers, ghost sc: Scene, commandPool: Handle, descriptorPool: Handle, worldBytes: nat,
                        vertices: seq<PosNorTexVertex>, n: nat, ghost o: Owners)
    returns (res: Result<(Workspace, AllocatedBuffer)>, ghost o1: Owners)
    requires helpers.Ready() && sc.transferBuffer == helpers.TransferCommandBuffer && 0 < |vertices|
    requires commandPool == sc.commandPool && descriptorPool == sc.descriptorPool && worldBytes == sc.worldBytes && 0 < worldBytes
    requires Building(sc, n, MeshBytes(vertices), helpers.gpu.st, o) && |sc.workspaces| < n
    modifies helpers.gpu
    ensures helpers.Ready() && Stable(old(helpers.gpu.st), helpers.gpu.st, {helpers.TransferCommandBuffer})
    ensures Keeps(o, o1) && OwnedPresent(o1, helpers.gpu.st)
    ensures res.Success? <==>
      && FirstMemoryType(helpers.gpu.memoryTypes, helpers.gpu.bufferMemoryTypeBits, StagingProperties).Some?
      && FirstMemoryType(helpers.gpu.memoryTypes, helpers.gpu.bufferMemoryTypeBits, MEMORY_PROPERTY_DEVICE_LOCAL).Some?
    ensures res.Success? ==> Building(Grown(sc, res.value.0, res.value.1), n, MeshBytes(vertices), helpers.gpu.st, o1)
  {
    ghost var s0 := helpers.gpu.st;
    ghost var mesh := MeshBytes(vertices);
    var c := helpers.TransferCommandBuffer;
    var k := |sc.workspaces|;
    BuildingParts(sc, n, mesh, s0, o);
    var made;
    made, o1 := CreateWorkspace(helpers, commandPool, descriptorPool, worldBytes, o, k, n);
    if made.Failure? {
      StableGrow(s0, helpers.gpu.st, {}, {c});
      return Failure(made.error), o1;
    }
    ghost var s1, oa := helpers.gpu.st, o1;
    var uploaded;
    uploaded, o1 := UploadMesh(helpers, vertices, o1, MeshRole(k, n));
    // The mesh needs the same memory types as the workspace.
    assert uploaded.Success?;
    BuildingStep(sc, n, mesh, made.value, uploaded.value, s0, s1, helpers.gpu.st, o, oa, o1);
    StableTrans(s0, s1, helpers.gpu.st, {}, {c});
    KeepsTrans(o, oa, o1);
    res := Success((made.value, uploaded.value));
  }

  /**
   * The constructor's loop over `n` workspaces (Tutorial.cpp:163-327), each iteration building
   * the next workspace and uploading `vertices` to a new ObjectVertices buffer, which overwrites
   * the previous iteration's buffer without destroying it.  Returns the workspaces built, the
   * last mesh buffer and the buffers overwritten.  Succeeds exactly when there is no workspace
   * to build or staging and device-local buffer memory exist, and then the loop's invariant
   * holds of all `n` workspaces.
   */
  method BuildWorkspaces(helpers: Helpers, ghost sc: Scene, commandPool: Handle, descriptorPool: Handle, worldBytes: nat,
                         vertices: seq<PosNorTexVertex>, n: nat, ghost o: Owners)
    returns (r: Result<()>, workspaces: seq<Workspace>, objectVertices: AllocatedBuffer, ghost leaked: seq<AllocatedBuffer>,
             ghost o1: Owners)
    requires helpers.Ready() && sc.transferBuffer == helpers.TransferCommandBuffer && (n == 0 || 0 < |vertices|)
    requires commandPool == sc.commandPool && descriptorPool == sc.descriptorPool && worldBytes == sc.worldBytes && 0 < worldBytes
    requires sc.workspaces == [] && sc.objectVertices == NoBuffer && sc.leaked == []
    requires Prepared(sc, helpers.gpu.st, o) && OwnedPresent(o, helpers.gpu.st)
    requires helpers.gpu.st.pools[sc.descriptorPool] == DescriptorPool(WorkspacePoolCapacity(n), WorkspaceSetsUsed(0))
    modifies helpers.gpu
    ensures helpers.Ready() && Stable(old(helpers.gpu.st), helpers.gpu.st, {helpers.TransferCommandBuffer})
    ensures Keeps(o, o1) && OwnedPresent(o1, helpers.gpu.st)
    ensures r.Success? <==>
      || n == 0
      || (&& FirstMemoryType(helpers.gpu.memoryTypes, helpers.gpu.bufferMemoryTypeBits, StagingProperties).Some?
          && FirstMemoryType(helpers.gpu.memoryTypes, helpers.gpu.bufferMemoryTypeBits, MEMORY_PROPERTY_DEVICE_LOCAL).Some?)
    ensures r.Success? ==> |leaked| == if n == 0 then 0 else n - 1
    ensures r.Success? ==>
      && |workspaces| == n
      && Building(sc.(workspaces := workspaces, objectVertices := objectVertices, leaked := leaked), n, MeshBytes(vertices),
                  helpers.gpu.st, o1)
  {
    ghost var s0 := helpers.gpu.st;
    ghost var mesh := MeshBytes(vertices);
    var c := helpers.TransferCommandBuffer;
    workspaces, objectVertices, leaked, o1 := [], NoBuffer, [], o;
    ghost var cur := sc;
    BuildingFromParts(cur, n, mesh, s0, o);
    while |workspaces| < n
      invariant helpers.Ready() && Stable(s0, helpers.gpu.st, {c}) && Keeps(o, o1)
      invariant cur == sc.(workspaces := workspaces, objectVertices := objectVertices, leaked := leaked)
      invariant Building(cur, n, mesh, helpers.gpu.st, o1)
      invariant workspaces != [] ==>
        && FirstMemoryType(helpers.gpu.memoryTypes, helpers.gpu.bufferMemoryTypeBits, StagingProperties).Some?
        && FirstMemoryType(helpers.gpu.memoryTypes, helpers.gpu.bufferMemoryTypeBits, MEMORY_PROPERTY_DEVICE_LOCAL).Some?
      decreases n - |workspaces|
    {
      ghost var sa, oa := helpers.gpu.st, o1;
      var built;
      built, o1 := BuildIteration(helpers, cur, commandPool, descriptorPool, worldBytes, vertices, n, o1);
      StableTrans(s0, sa, helpers.gpu.st, {c}, {c});
      KeepsTrans(o, oa, o1);
      if built.Failure? {
        return Failure(built.error), workspaces, objectVertices, leaked, o1;
      }
      var (w, b) := built.value;
      leaked := if objectVertices == NoBuffer then leaked else leaked + [objectVertices];
      workspaces, objectVertices := workspaces + [w], b;
      cur := Grown(cur, w, b);
    }
    BuildingParts(cur, n, mesh, helpers.gpu.st, o1);
    r := Success(());
  }

  /**
   * After the loop over `n > 0` workspaces and the texture part, the constructor has set up
   * the renderer's whole invariant: the last mesh buffer is ObjectVertices and still holds
   * the mesh.  The texture part kept every buffer, so the mesh is as uploaded.
   */
  lemma {:induction false} Constructed(sc: Scene, n: nat, mesh: seq<Byte>, t: TextureObjects,
                                       s0: State, s1: State, o0: Owners, o1: Owners)
    requires Building(sc, n, mesh, s0, o0) && |sc.workspaces| == n && 0 < n
    requires sc.depthImage == NoImage && sc.depthImageView == NullHandle && sc.framebuffers == []
    requires Stable(s0, s1, {sc.transferBuffer}) && Keeps(o0, o1) && OwnedPresent(o1, s1) && s1.buffers == s0.buffers
    requires TexturesOk(WithTextures(sc, t), s1, o1)
    ensures SceneOk(WithTextures(sc, t), s1, o1) && Holds(s1, sc.objectVertices.handle, mesh)
  {
    var sc1 := WithTextures(sc, t);
    BuildingParts(sc, n, mesh, s0, o0);
    BuiltKept(sc, s0, s1, o0, o1);
    LiveBufferStable(sc.objectVertices, s0, s1, {sc.transferBuffer});
    assert OwnsBuffer(o0, sc.objectVertices, InScene(ObjectVerticesItem, 0, false));
    assert StaticsOk(sc1, s1, o1);
    SceneOkFromParts(sc1, s1, o1);
  }

  /** What the constructor makes on the device besides the depth format. */
  datatype Made = Made(commandPool: Handle, renderPass: Handle, descriptorPool: Handle, workspaces: seq<Workspace>,
                       objectVertices: AllocatedBuffer, textures: TextureObjects)

  /** The scene `sc` with what the constructor made and the mesh buffers it overwrote. */
  function Finished(sc: Scene, m: Made, leaked: seq<AllocatedBuffer>): Scene
  {
    WithTextures(sc.(commandPool := m.commandPool, renderPass := m.renderPass, descriptorPool := m.descriptorPool,
                     workspaces := m.workspaces, objectVertices := m.objectVertices, leaked := leaked), m.textures)
  }

  /**
   * The device work of the constructor once the depth format is chosen (Tutorial.cpp:29-505):
   * the command pool, render pass and descriptor pool, the loop over `n` workspaces uploading
   * `vertices` in each, then the textures.  Succeeds exactly when staging buffer memory and
   * device-local image memory exist and, when there is a workspace to build, device-local
   * buffer memory; then there are `n` workspaces and two textures holding the two images,
   * and with at least one workspace the renderer's device invariant holds of the scene made
   * and ObjectVertices holds the mesh.
   */
  method Construct(helpers: Helpers, ghost sc: Scene, worldBytes: nat, vertices: seq<PosNorTexVertex>, n: nat,
                   yellow: LoadedImage, water: LoadedImage)
    returns (r: Result<Made>, ghost leaked: seq<AllocatedBuffer>, ghost o: Owners)
    requires helpers.Ready() && (n == 0 || 0 < |vertices|) && Uploadable(yellow) && Uploadable(water)
    requires sc.transferPool == helpers.TransferCommandPool && sc.transferBuffer == helpers.TransferCommandBuffer
    requires sc.worldBytes == worldBytes && 0 < worldBytes
    requires sc.workspaces == [] && sc.objectVertices == NoBuffer && sc.leaked == []
    requires sc.depthImage == NoImage && sc.depthImageView == NullHandle && sc.framebuffers == []
    modifies helpers.gpu
    ensures helpers.Ready()
    ensures r.Success? <==>
      && FirstMemoryType(helpers.gpu.memoryTypes, helpers.gpu.bufferMemoryTypeBits, StagingProperties).Some?
      && FirstMemoryType(helpers.gpu.memoryTypes, helpers.gpu.imageMemoryTypeBits, MEMORY_PROPERTY_DEVICE_LOCAL).Some?
      && (0 < n ==> FirstMemoryType(helpers.gpu.memoryTypes, helpers.gpu.bufferMemoryTypeBits, MEMORY_PROPERTY_DEVICE_LOCAL).Some?)
    ensures r.Success? ==>
      var m := r.value;
      && |m.workspaces| == n && |m.textures.images| == 2 && |m.textures.sets| == 2
      && TextureHolds(helpers.gpu.st, m.textures.images[0], yellow, R8G8B8A8Unorm)
      && TextureHolds(helpers.gpu.st, m.textures.images[1], water, R8G8B8A8Srgb)
    ensures r.Success? ==> |leaked| == if n == 0 then 0 else n - 1
    ensures r.Success? && 0 < n ==>
      && SceneOk(Finished(sc, r.value, leaked), helpers.gpu.st, o)
      && Holds(helpers.gpu.st, r.value.objectVertices.handle, MeshBytes(vertices))
  {
    ghost var o0 := map[helpers.TransferCommandPool := InScene(TransferPoolItem, 0, false),
                        helpers.TransferCommandBuffer := InScene(TransferBufferItem, 0, false)];
    var cp, rp, dp;
    ghost var o1;
    cp, rp, dp, o1 := CreateStatics(helpers, n, o0);
    ghost var sc1 := sc.(commandPool := cp, renderPass := rp, descriptorPool := dp);
    var built, ws, ov;
    ghost var o2;
    built, ws, ov, leaked, o2 := BuildWorkspaces(helpers, sc1, cp, dp, worldBytes, vertices, n, o1);
    if built.Failure? {
      return Failure(built.error), leaked, o2;
    }
    ghost var sc2 := sc1.(workspaces := ws, objectVertices := ov, leaked := leaked);
    ghost var s2 := helpers.gpu.st;
    var made;
    made, o := CreateTextures(helpers, yellow, water, o2, sc2);
    if made.Failure? {
      return Failure(made.error), leaked, o;
    }
    var m := Made(cp, rp, dp, ws, ov, made.value);
    assert Finished(sc, m, leaked) == WithTextures(sc2, made.value);
    if 0 < n {
      Constructed(sc2, n, MeshBytes(vertices), made.value, s2, helpers.gpu.st, o2, o);
    }
    r := Success(m);
  }
}
