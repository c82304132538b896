/**
 * What the Tutorial holds on the device, and the invariant tying its fields to the device
 * state.  A ghost map from handles to roles records which field owns each handle; since a
 * map gives each handle one role, two fields never hold the same handle, and a handle
 * that goes away with one field cannot be one another field still needs.
 */
module TutorialScene {
  import opened Vulkan
  import opened Device
  import opened Helpers
  import opened TutorialTypes

  // ---------------------------------------------------------------- roles

  /** The handle-holding fields of a Workspace. */
  datatype Slot =
    | CommandBufferSlot
    | LinesSrcSlot | LinesSlot
    | CameraSrcSlot | CameraSlot | CameraSetSlot
    | WorldSrcSlot | WorldSlot | WorldSetSlot
    | TransformsSrcSlot | TransformsSlot | TransformsSetSlot

  /** The handle-holding fields of the Tutorial outside its workspaces (and the transfer pair it relies on). */
  datatype Item =
    | TransferPoolItem | TransferBufferItem
    | CommandPoolItem | RenderPassItem | DescriptorPoolItem
    | ObjectVerticesItem
    | TextureItem | TextureViewItem | SamplerItem | TexturePoolItem | TextureSetItem
    | DepthImageItem | DepthViewItem | FramebufferItem
    | LeakedVerticesItem

  /** Which field holds a handle; `memory` marks the allocation behind a buffer or image. */
  datatype Role =
    | InWorkspace(index: nat, slot: Slot, memory: bool)
    | InScene(item: Item, index: nat, memory: bool)

  type Owners = map<Handle, Role>

  ghost predicate Owns(o: Owners, h: Handle, r: Role)
  {
    h in o && o[h] == r
  }

  /** A held buffer's handle and its memory are both owned by the field. */
  ghost predicate OwnsBuffer(o: Owners, b: AllocatedBuffer, r: Role)
  {
    b.handle == NullHandle || (Owns(o, b.handle, r) && Owns(o, b.allocation.handle, r.(memory := true)))
  }

  ghost predicate OwnsImage(o: Owners, i: AllocatedImage, r: Role)
  {
    i.handle == NullHandle || (Owns(o, i.handle, r) && Owns(o, i.allocation.handle, r.(memory := true)))
  }

  /** `h` is alive in `s`, whatever kind of object it names. */
  ghost predicate Present(s: State, h: Handle)
  {
    h in s.memory || h in s.buffers || h in s.images || h in s.commandBuffers
    || h in s.pools || h in s.descriptorSets || h in s.objects
  }

  /** Every owned handle is alive, so a handle the device hands out now is not owned. */
  ghost predicate OwnedPresent(o: Owners, s: State)
  {
    forall h | h in o :: Present(s, h)
  }

  lemma {:induction false} FreshNotOwned(o: Owners, s: State, h: Handle)
    requires OwnedPresent(o, s) && Unused(s, h)
    ensures h !in o
  {
  }

  /** Owned handles stay alive across a step that only took away handles that are not owned or are still alive. */
  lemma {:induction false} OwnedPresentStable(o: Owners, s0: State, s1: State, gone: set<Handle>)
    requires OwnedPresent(o, s0) && Stable(s0, s1, gone)
    requires forall h | h in gone && h in o :: Present(s1, h)
    ensures OwnedPresent(o, s1)
  {
    forall h | h in o
      ensures Present(s1, h)
    {
      if h !in gone {
        assert Kept(s0, s1, h);
      }
    }
  }

  /** The maps of the device state a handle can live in. */
  datatype Home = MemoryHome | BufferHome | ImageHome | CommandBufferHome | PoolHome | SetHome | ObjectHome

  /** The map the handle of role `r` lives in: memory for the allocation behind a buffer or image. */
  function HomeOf(r: Role): Home
  {
    match r
    case InWorkspace(_, slot, memory) =>
      if slot == CommandBufferSlot then CommandBufferHome
      else if slot in {CameraSetSlot, WorldSetSlot, TransformsSetSlot} then SetHome
      else if memory then MemoryHome else BufferHome
    case InScene(item, _, memory) =>
      if item in {TransferPoolItem, CommandPoolItem, RenderPassItem, TextureViewItem, SamplerItem, DepthViewItem, FramebufferItem}
      then ObjectHome
      else if item == TransferBufferItem then CommandBufferHome
      else if item in {DescriptorPoolItem, TexturePoolItem} then PoolHome
      else if item == TextureSetItem then SetHome
      else if memory then MemoryHome
      else if item in {ObjectVerticesItem, LeakedVerticesItem} then BufferHome else ImageHome
  }

  ghost predicate LivesIn(s: State, h: Handle, home: Home)
  {
    match home
    case MemoryHome => h in s.memory
    case BufferHome => h in s.buffers
    case ImageHome => h in s.images
    case CommandBufferHome => h in s.commandBuffers
    case PoolHome => h in s.pools
    case SetHome => h in s.descriptorSets
    case ObjectHome => h in s.objects
  }

  /** The handle `h` of role `r` is gone from the map it lived in. */
  ghost predicate Released(s: State, h: Handle, r: Role)
  {
    !LivesIn(s, h, HomeOf(r))
  }

  /** No map of `s1` has a handle `s0` did not have: a step that only destroys. */
  ghost predicate Shrunk(s0: State, s1: State)
  {
    && s1.memory.Keys <= s0.memory.Keys && s1.buffers.Keys <= s0.buffers.Keys && s1.images.Keys <= s0.images.Keys
    && s1.commandBuffers.Keys <= s0.commandBuffers.Keys && s1.pools.Keys <= s0.pools.Keys
    && s1.descriptorSets.Keys <= s0.descriptorSets.Keys && s1.objects.Keys <= s0.objects.Keys
  }

  /** `s1` is `s0` with some handles taken away: every entry it still has is as it was. */
  ghost predicate Removed(s0: State, s1: State)
  {
    && Shrunk(s0, s1)
    && (forall h | h in s1.memory :: s1.memory[h] == s0.memory[h])
    && (forall h | h in s1.buffers :: s1.buffers[h] == s0.buffers[h])
    && (forall h | h in s1.images :: s1.images[h] == s0.images[h])
    && (forall h | h in s1.commandBuffers :: s1.commandBuffers[h] == s0.commandBuffers[h])
    && (forall h | h in s1.pools :: s1.pools[h] == s0.pools[h])
    && (forall h | h in s1.descriptorSets :: s1.descriptorSets[h] == s0.descriptorSets[h])
    && (forall h | h in s1.objects :: s1.objects[h] == s0.objects[h])
  }

  lemma {:induction false} RemovedTrans(s0: State, s1: State, s2: State)
    requires Removed(s0, s1) && Removed(s1, s2)
    ensures Removed(s0, s2)
  {
  }

  lemma {:induction false} ShrunkTrans(s0: State, s1: State, s2: State)
    requires Shrunk(s0, s1) && Shrunk(s1, s2)
    ensures Shrunk(s0, s2)
  {
  }

  // ---------------------------------------------------------------- buffer contents

  /** Buffer `h` exists in both states with the same bytes. */
  ghost predicate DataKept(s0: State, s1: State, h: Handle)
  {
    h in s0.buffers ==> h in s1.buffers && s1.buffers[h].data == s0.buffers[h].data
  }

  /** Between `s0` and `s1` only the buffers in `touched` changed their bytes. */
  ghost predicate DataStable(s0: State, s1: State, touched: set<Handle>)
  {
    forall h {:trigger DataKept(s0, s1, h)} | h !in touched :: DataKept(s0, s1, h)
  }

  lemma {:induction false} DataStableTrans(s0: State, s1: State, s2: State, t1: set<Handle>, t2: set<Handle>)
    requires DataStable(s0, s1, t1) && DataStable(s1, s2, t2)
    ensures DataStable(s0, s2, t1 + t2)
  {
    forall h | h !in t1 + t2
      ensures DataKept(s0, s2, h)
    {
      assert DataKept(s0, s1, h) && DataKept(s1, s2, h);
    }
  }

  /** The first |bytes| bytes of buffer `h` are `bytes`. */
  ghost predicate Holds(s: State, h: Handle, bytes: seq<Byte>)
  {
    h in s.buffers && |bytes| <= |s.buffers[h].data| && s.buffers[h].data[..|bytes|] == bytes
  }

  lemma {:induction false} HoldsKept(s0: State, s1: State, h: Handle, bytes: seq<Byte>, touched: set<Handle>)
    requires Holds(s0, h, bytes) && DataStable(s0, s1, touched) && h !in touched
    ensures Holds(s1, h, bytes)
  {
    assert DataKept(s0, s1, h);
  }

  // ---------------------------------------------------------------- transfers seen from outside

  /** A finished buffer transfer left every object but the transfer command buffer as it was, bytes included but for `dst`. */
  lemma {:induction false} BufferUploadedStable(s: State, b: AllocatedBuffer, t: nat, data: seq<Byte>, dst: Handle, c: Handle)
    requires dst in s.buffers && c in s.commandBuffers && |data| <= |s.buffers[dst].data|
    ensures Stable(s, BufferUploaded(s, b, t, data, dst, c), {c})
    ensures DataStable(s, BufferUploaded(s, b, t, data, dst, c), {dst})
    ensures Holds(BufferUploaded(s, b, t, data, dst, c), dst, data)
  {
    var s1 := BufferUploaded(s, b, t, data, dst, c);
    forall h | h !in {c}
      ensures Kept(s, s1, h)
    {
    }
    forall h | h !in {dst}
      ensures DataKept(s, s1, h)
    {
    }
  }

  lemma {:induction false} ImageUploadedStable(s: State, b: AllocatedBuffer, t: nat, data: seq<Byte>, img: Handle, c: Handle)
    requires img in s.images && c in s.commandBuffers
    ensures Stable(s, ImageUploaded(s, b, t, data, img, c), {c})
  {
    var s1 := ImageUploaded(s, b, t, data, img, c);
    forall h | h !in {c}
      ensures Kept(s, s1, h)
    {
    }
  }

  // ---------------------------------------------------------------- the workspace invariant

  /**
   * A streamed pair (lines or transforms): not yet allocated, or a mapped staging buffer
   * usable as a transfer source and a device buffer of the same size with `dstUsage`.
   */
  ghost predicate StreamPair(src: AllocatedBuffer, dst: AllocatedBuffer, dstUsage: Flags, s: State)
  {
    (src == NoBuffer && dst == NoBuffer)
    || (&& LiveBuffer(src, s) && LiveBuffer(dst, s) && src.size == dst.size && src.allocation.mapped != NullPtr
        && s.buffers[src.handle].usage == BUFFER_USAGE_TRANSFER_SRC && s.buffers[dst.handle].usage == dstUsage)
  }

  /** A fixed-size pair (camera or world) of `size` bytes each. */
  ghost predicate FixedPair(src: AllocatedBuffer, dst: AllocatedBuffer, size: nat, dstUsage: Flags, s: State)
  {
    && LiveBuffer(src, s) && LiveBuffer(dst, s) && src.size == size && dst.size == size && src.allocation.mapped != NullPtr
    && s.buffers[src.handle].usage == BUFFER_USAGE_TRANSFER_SRC && s.buffers[dst.handle].usage == dstUsage
  }

  ghost predicate SetHolds(s: State, d: Handle, pool: Handle, t: DescriptorType, b: DescriptorBinding)
  {
    d in s.descriptorSets && s.descriptorSets[d] == DescriptorSet(pool, t, b)
  }

  const LinesUsage: Flags := BUFFER_USAGE_VERTEX_BUFFER | BUFFER_USAGE_TRANSFER_DST
  const UniformUsage: Flags := BUFFER_USAGE_UNIFORM_BUFFER | BUFFER_USAGE_TRANSFER_DST
  const TransformsUsage: Flags := BUFFER_USAGE_STORAGE_BUFFER | BUFFER_USAGE_TRANSFER_DST
  const ObjectVerticesUsage: Flags := BUFFER_USAGE_VERTEX_BUFFER | BUFFER_USAGE_TRANSFER_DST

  /** What the transforms set points at: nothing until the transforms pair is first allocated. */
  function TransformsBinding(w: Workspace): DescriptorBinding
  {
    if w.transforms == NoBuffer then Unwritten else BufferRange(w.transforms.handle, 0, w.transforms.size)
  }

  /**
   * A workspace's buffers and sets: its buffer pairs are as above; its camera and world sets
   * point at the whole device-side camera and world buffers and its transforms set at the
   * transforms buffer.
   */
  ghost predicate WorkspaceBuffers(w: Workspace, s: State, descriptorPool: Handle, worldBytes: nat)
  {
    && StreamPair(w.linesVerticesSrc, w.linesVertices, LinesUsage, s)
    && FixedPair(w.cameraSrc, w.camera, CameraBytes, UniformUsage, s)
    && FixedPair(w.worldSrc, w.world, worldBytes, UniformUsage, s)
    && StreamPair(w.transformsSrc, w.transforms, TransformsUsage, s)
    && SetHolds(s, w.cameraDescriptors, descriptorPool, UniformBuffer, BufferRange(w.camera.handle, 0, w.camera.size))
    && SetHolds(s, w.worldDescriptors, descriptorPool, UniformBuffer, BufferRange(w.world.handle, 0, w.world.size))
    && SetHolds(s, w.transformDescriptors, descriptorPool, StorageBuffer, TransformsBinding(w))
  }

  /** A workspace between frames: its command buffer comes from the command pool and is not recording. */
  ghost predicate WorkspaceLive(w: Workspace, s: State, commandPool: Handle, descriptorPool: Handle, worldBytes: nat)
  {
    && w.commandBuffer in s.commandBuffers && s.commandBuffers[w.commandBuffer].pool == commandPool
    && s.commandBuffers[w.commandBuffer].phase != Recording
    && WorkspaceBuffers(w, s, descriptorPool, worldBytes)
  }

  ghost predicate WorkspaceOwned(o: Owners, w: Workspace, j: nat)
  {
    && Owns(o, w.commandBuffer, InWorkspace(j, CommandBufferSlot, false))
    && OwnsBuffer(o, w.linesVerticesSrc, InWorkspace(j, LinesSrcSlot, false))
    && OwnsBuffer(o, w.linesVertices, InWorkspace(j, LinesSlot, false))
    && OwnsBuffer(o, w.cameraSrc, InWorkspace(j, CameraSrcSlot, false))
    && OwnsBuffer(o, w.camera, InWorkspace(j, CameraSlot, false))
    && Owns(o, w.cameraDescriptors, InWorkspace(j, CameraSetSlot, false))
    && OwnsBuffer(o, w.worldSrc, InWorkspace(j, WorldSrcSlot, false))
    && OwnsBuffer(o, w.world, InWorkspace(j, WorldSlot, false))
    && Owns(o, w.worldDescriptors, InWorkspace(j, WorldSetSlot, false))
    && OwnsBuffer(o, w.transformsSrc, InWorkspace(j, TransformsSrcSlot, false))
    && OwnsBuffer(o, w.transforms, InWorkspace(j, TransformsSlot, false))
    && Owns(o, w.transformDescriptors, InWorkspace(j, TransformsSetSlot, false))
  }

  /** `h` is owned by workspace `j`. */
  ghost predicate OfWorkspace(o: Owners, h: Handle, j: nat)
  {
    h in o && o[h].InWorkspace? && o[h].index == j
  }

  lemma {:induction false} StreamPairStable(src: AllocatedBuffer, dst: AllocatedBuffer, u: Flags, s0: State, s1: State, gone: set<Handle>)
    requires StreamPair(src, dst, u, s0) && Stable(s0, s1, gone)
    requires src != NoBuffer ==>
      src.handle !in gone && src.allocation.handle !in gone && dst.handle !in gone && dst.allocation.handle !in gone
    ensures StreamPair(src, dst, u, s1)
  {
    if src != NoBuffer {
      LiveBufferStable(src, s0, s1, gone);
      LiveBufferStable(dst, s0, s1, gone);
      assert Kept(s0, s1, src.handle) && Kept(s0, s1, dst.handle);
    }
  }

  lemma {:induction false} FixedPairStable(src: AllocatedBuffer, dst: AllocatedBuffer, n: nat, u: Flags, s0: State, s1: State, gone: set<Handle>)
    requires FixedPair(src, dst, n, u, s0) && Stable(s0, s1, gone)
    requires src.handle !in gone && src.allocation.handle !in gone && dst.handle !in gone && dst.allocation.handle !in gone
    ensures FixedPair(src, dst, n, u, s1)
  {
    LiveBufferStable(src, s0, s1, gone);
    LiveBufferStable(dst, s0, s1, gone);
    assert Kept(s0, s1, src.handle) && Kept(s0, s1, dst.handle);
  }

  /** A step that took away nothing workspace `j` owns leaves it live. */
  lemma {:induction false} WorkspaceStable(w: Workspace, j: nat, o: Owners, s0: State, s1: State, gone: set<Handle>,
                                           cp: Handle, dp: Handle, worldBytes: nat)
    requires WorkspaceLive(w, s0, cp, dp, worldBytes) && WorkspaceOwned(o, w, j) && Stable(s0, s1, gone)
    requires forall h | h in gone :: !OfWorkspace(o, h, j)
    ensures WorkspaceLive(w, s1, cp, dp, worldBytes)
  {
    assert Kept(s0, s1, w.commandBuffer) && Kept(s0, s1, w.cameraDescriptors) && Kept(s0, s1, w.worldDescriptors)
      && Kept(s0, s1, w.transformDescriptors);
    if w.linesVerticesSrc != NoBuffer {
      OwnedBufferNotGone(o, w.linesVerticesSrc, InWorkspace(j, LinesSrcSlot, false), gone);
      OwnedBufferNotGone(o, w.linesVertices, InWorkspace(j, LinesSlot, false), gone);
    }
    StreamPairStable(w.linesVerticesSrc, w.linesVertices, LinesUsage, s0, s1, gone);
    OwnedBufferNotGone(o, w.cameraSrc, InWorkspace(j, CameraSrcSlot, false), gone);
    OwnedBufferNotGone(o, w.camera, InWorkspace(j, CameraSlot, false), gone);
    FixedPairStable(w.cameraSrc, w.camera, CameraBytes, UniformUsage, s0, s1, gone);
    OwnedBufferNotGone(o, w.worldSrc, InWorkspace(j, WorldSrcSlot, false), gone);
    OwnedBufferNotGone(o, w.world, InWorkspace(j, WorldSlot, false), gone);
    FixedPairStable(w.worldSrc, w.world, worldBytes, UniformUsage, s0, s1, gone);
    if w.transformsSrc != NoBuffer {
      OwnedBufferNotGone(o, w.transformsSrc, InWorkspace(j, TransformsSrcSlot, false), gone);
      OwnedBufferNotGone(o, w.transforms, InWorkspace(j, TransformsSlot, false), gone);
    }
    StreamPairStable(w.transformsSrc, w.transforms, TransformsUsage, s0, s1, gone);
  }

  /** A held buffer of workspace `r.index` survives a step that took away nothing of that workspace. */
  lemma {:induction false} OwnedBufferNotGone(o: Owners, b: AllocatedBuffer, r: Role, gone: set<Handle>)
    requires OwnsBuffer(o, b, r) && r.InWorkspace? && b.handle != NullHandle
    requires forall h | h in gone :: !OfWorkspace(o, h, r.index)
    ensures b.handle !in gone && b.allocation.handle !in gone
  {
    assert OfWorkspace(o, b.handle, r.index) && OfWorkspace(o, b.allocation.handle, r.index);
  }

  /** The handles workspace `w` holds (null ones included). */
  function WorkspaceHandles(w: Workspace): set<Handle>
  {
    {w.commandBuffer, w.cameraDescriptors, w.worldDescriptors, w.transformDescriptors,
     w.linesVerticesSrc.handle, w.linesVerticesSrc.allocation.handle, w.linesVertices.handle, w.linesVertices.allocation.handle,
     w.cameraSrc.handle, w.cameraSrc.allocation.handle, w.camera.handle, w.camera.allocation.handle,
     w.worldSrc.handle, w.worldSrc.allocation.handle, w.world.handle, w.world.allocation.handle,
     w.transformsSrc.handle, w.transformsSrc.allocation.handle, w.transforms.handle, w.transforms.allocation.handle}
  }

  // ---------------------------------------------------------------- the whole scene

  /** A snapshot of the Tutorial's device-facing fields. */
  datatype Scene = Scene(
    transferPool: Handle, transferBuffer: Handle,
    commandPool: Handle, renderPass: Handle, descriptorPool: Handle,
    workspaces: seq<Workspace>,
    objectVertices: AllocatedBuffer,
    textures: seq<AllocatedImage>, textureViews: seq<Handle>, textureSampler: Handle,
    textureDescriptorPool: Handle, textureDescriptors: seq<Handle>,
    depthImage: AllocatedImage, depthImageView: Handle, framebuffers: seq<Handle>,
    worldBytes: nat, leaked: seq<AllocatedBuffer>)

  /** The handles of a sequence, as a set. */
  function Elements(hs: seq<Handle>): set<Handle>
  {
    set k | 0 <= k < |hs| :: hs[k]
  }

  ghost predicate IsObject(s: State, h: Handle, k: ObjectKind)
  {
    h in s.objects && s.objects[h] == k
  }

  /**
   * The swapchain-dependent part: either none (no depth image, no view, no framebuffers)
   * or a live depth image, its view, and one live framebuffer per swapchain image.
   */
  ghost predicate SwapchainOk(sc: Scene, s: State, o: Owners)
  {
    if sc.depthImage == NoImage then sc.depthImageView == NullHandle && sc.framebuffers == []
    else
      && LiveImage(sc.depthImage, s) && OwnsImage(o, sc.depthImage, InScene(DepthImageItem, 0, false))
      && IsObject(s, sc.depthImageView, ImageView) && Owns(o, sc.depthImageView, InScene(DepthViewItem, 0, false))
      && (forall k | 0 <= k < |sc.framebuffers| ::
            IsObject(s, sc.framebuffers[k], Framebuffer) && Owns(o, sc.framebuffers[k], InScene(FramebufferItem, k, false)))
  }

  /** The textures, their views, the sampler and the texture sets, each set showing its texture through the sampler. */
  ghost predicate TexturesOk(sc: Scene, s: State, o: Owners)
  {
    && |sc.textureViews| == |sc.textures| && |sc.textureDescriptors| == |sc.textures|
    && IsObject(s, sc.textureSampler, Sampler) && Owns(o, sc.textureSampler, InScene(SamplerItem, 0, false))
    && sc.textureDescriptorPool in s.pools && Owns(o, sc.textureDescriptorPool, InScene(TexturePoolItem, 0, false))
    && (forall k | 0 <= k < |sc.textures| ::
          && LiveImage(sc.textures[k], s) && OwnsImage(o, sc.textures[k], InScene(TextureItem, k, false))
          && IsObject(s, sc.textureViews[k], ImageView) && Owns(o, sc.textureViews[k], InScene(TextureViewItem, k, false))
          && SetHolds(s, sc.textureDescriptors[k], sc.textureDescriptorPool, CombinedImageSampler,
                      ImageSampler(sc.textureViews[k], sc.textureSampler, ShaderReadOnlyOptimal))
          && Owns(o, sc.textureDescriptors[k], InScene(TextureSetItem, k, false)))
  }

  /** Everything outside the workspaces. */
  ghost predicate StaticsOk(sc: Scene, s: State, o: Owners)
  {
    && Owns(o, sc.transferPool, InScene(TransferPoolItem, 0, false))
    && Owns(o, sc.transferBuffer, InScene(TransferBufferItem, 0, false))
    && IsObject(s, sc.commandPool, CommandPool) && Owns(o, sc.commandPool, InScene(CommandPoolItem, 0, false))
    && IsObject(s, sc.renderPass, RenderPass) && Owns(o, sc.renderPass, InScene(RenderPassItem, 0, false))
    && sc.descriptorPool in s.pools && Owns(o, sc.descriptorPool, InScene(DescriptorPoolItem, 0, false))
    && s.pools[sc.descriptorPool].capacity == WorkspacePoolCapacity(|sc.workspaces|)
    && LiveBuffer(sc.objectVertices, s) && OwnsBuffer(o, sc.objectVertices, InScene(ObjectVerticesItem, 0, false))
    && s.buffers[sc.objectVertices.handle].usage == ObjectVerticesUsage
    && TexturesOk(sc, s, o)
    && SwapchainOk(sc, s, o)
    && LeakedOk(sc.leaked, s, o)
  }

  /** The vertex buffers the construction overwrote without destroying: still alive, held by no field. */
  ghost predicate LeakedOk(leaked: seq<AllocatedBuffer>, s: State, o: Owners)
  {
    forall k | 0 <= k < |leaked| :: LiveBuffer(leaked[k], s) && OwnsBuffer(o, leaked[k], InScene(LeakedVerticesItem, k, false))
  }

  ghost predicate WorkspacesOk(sc: Scene, s: State, o: Owners)
  {
    forall j | 0 <= j < |sc.workspaces| ::
      WorkspaceLive(sc.workspaces[j], s, sc.commandPool, sc.descriptorPool, sc.worldBytes) && WorkspaceOwned(o, sc.workspaces[j], j)
  }

  /** The three parts of the Tutorial's invariant on the device. */
  datatype ScenePart = Statics | Workspaces | OwnedAlive

  ghost predicate ScenePartOk(sc: Scene, s: State, o: Owners, p: ScenePart)
  {
    match p
    case Statics => StaticsOk(sc, s, o)
    case Workspaces => WorkspacesOk(sc, s, o)
    case OwnedAlive => OwnedPresent(o, s)
  }

  /**
   * The Tutorial's invariant on the device: every part holds.  Stated over the parts, so that a
   * proof that only carries the invariant along does not unfold it, and one that needs a part names it.
   */
  ghost predicate SceneOk(sc: Scene, s: State, o: Owners)
  {
    forall p: ScenePart :: ScenePartOk(sc, s, o, p)
  }

  lemma {:induction false} SceneOkParts(sc: Scene, s: State, o: Owners)
    requires SceneOk(sc, s, o)
    ensures StaticsOk(sc, s, o) && WorkspacesOk(sc, s, o) && OwnedPresent(o, s)
  {
    assert ScenePartOk(sc, s, o, Statics) && ScenePartOk(sc, s, o, Workspaces) && ScenePartOk(sc, s, o, OwnedAlive);
  }

  /** What a frame on workspace `i` needs of the invariant. */
  lemma {:induction false} SceneWorkspace(sc: Scene, s: State, o: Owners, i: nat)
    requires SceneOk(sc, s, o) && i < |sc.workspaces|
    ensures WorkspaceLive(sc.workspaces[i], s, sc.commandPool, sc.descriptorPool, sc.worldBytes)
    ensures WorkspaceOwned(o, sc.workspaces[i], i) && OwnedPresent(o, s)
  {
    assert ScenePartOk(sc, s, o, Workspaces) && ScenePartOk(sc, s, o, OwnedAlive);
  }

  lemma {:induction false} SceneOkFromParts(sc: Scene, s: State, o: Owners)
    requires StaticsOk(sc, s, o) && WorkspacesOk(sc, s, o) && OwnedPresent(o, s)
    ensures SceneOk(sc, s, o)
  {
    forall p: ScenePart
      ensures ScenePartOk(sc, s, o, p)
    {
    }
  }

  /** The handles a step took away are owned by workspaces, by the transfer command buffer's role, or by nobody. */
  ghost predicate OnlyWorkspaceGone(o: Owners, gone: set<Handle>)
  {
    forall h | h in gone && h in o :: o[h].InWorkspace? || o[h] == InScene(TransferBufferItem, 0, false)
  }

  lemma {:induction false} TexturesStable(sc: Scene, o: Owners, s0: State, s1: State, gone: set<Handle>)
    requires TexturesOk(sc, s0, o) && Stable(s0, s1, gone) && OnlyWorkspaceGone(o, gone)
    ensures TexturesOk(sc, s1, o)
  {
    assert Kept(s0, s1, sc.textureSampler) && Kept(s0, s1, sc.textureDescriptorPool);
    forall k | 0 <= k < |sc.textures|
      ensures LiveImage(sc.textures[k], s1) && IsObject(s1, sc.textureViews[k], ImageView)
      ensures SetHolds(s1, sc.textureDescriptors[k], sc.textureDescriptorPool, CombinedImageSampler,
                       ImageSampler(sc.textureViews[k], sc.textureSampler, ShaderReadOnlyOptimal))
    {
      LiveImageStable(sc.textures[k], s0, s1, gone);
      assert Kept(s0, s1, sc.textureViews[k]) && Kept(s0, s1, sc.textureDescriptors[k]);
    }
  }

  lemma {:induction false} SwapchainStable(sc: Scene, o: Owners, s0: State, s1: State, gone: set<Handle>)
    requires SwapchainOk(sc, s0, o) && Stable(s0, s1, gone) && OnlyWorkspaceGone(o, gone)
    ensures SwapchainOk(sc, s1, o)
  {
    if sc.depthImage != NoImage {
      LiveImageStable(sc.depthImage, s0, s1, gone);
      assert Kept(s0, s1, sc.depthImageView);
      forall k | 0 <= k < |sc.framebuffers|
        ensures IsObject(s1, sc.framebuffers[k], Framebuffer)
      {
        assert Kept(s0, s1, sc.framebuffers[k]);
      }
    }
  }

  lemma {:induction false} LeakedStable(leaked: seq<AllocatedBuffer>, o: Owners, s0: State, s1: State, gone: set<Handle>)
    requires LeakedOk(leaked, s0, o) && Stable(s0, s1, gone) && OnlyWorkspaceGone(o, gone)
    ensures LeakedOk(leaked, s1, o)
  {
    forall k | 0 <= k < |leaked|
      ensures LiveBuffer(leaked[k], s1)
    {
      LiveBufferStable(leaked[k], s0, s1, gone);
    }
  }

  /** A step that took away only handles owned by workspaces (or by nobody) leaves everything outside the workspaces intact. */
  lemma {:induction false} StaticsStable(sc: Scene, o: Owners, s0: State, s1: State, gone: set<Handle>)
    requires StaticsOk(sc, s0, o) && Stable(s0, s1, gone) && OnlyWorkspaceGone(o, gone)
    ensures StaticsOk(sc, s1, o)
  {
    assert Kept(s0, s1, sc.commandPool) && Kept(s0, s1, sc.renderPass) && Kept(s0, s1, sc.descriptorPool);
    LiveBufferStable(sc.objectVertices, s0, s1, gone);
    assert Kept(s0, s1, sc.objectVertices.handle);
    TexturesStable(sc, o, s0, s1, gone);
    SwapchainStable(sc, o, s0, s1, gone);
    LeakedStable(sc.leaked, o, s0, s1, gone);
  }

  /** The same for every workspace but `i`, when the step took away only handles of workspace `i` (or of nobody). */
  lemma {:induction false} OtherWorkspacesStable(sc: Scene, i: nat, o: Owners, s0: State, s1: State, gone: set<Handle>)
    requires WorkspacesOk(sc, s0, o) && Stable(s0, s1, gone)
    requires forall h | h in gone && h in o :: OfWorkspace(o, h, i) || o[h] == InScene(TransferBufferItem, 0, false)
    ensures forall j | 0 <= j < |sc.workspaces| && j != i ::
      WorkspaceLive(sc.workspaces[j], s1, sc.commandPool, sc.descriptorPool, sc.worldBytes)
  {
    forall j | 0 <= j < |sc.workspaces| && j != i
      ensures WorkspaceLive(sc.workspaces[j], s1, sc.commandPool, sc.descriptorPool, sc.worldBytes)
    {
      WorkspaceStable(sc.workspaces[j], j, o, s0, s1, gone, sc.commandPool, sc.descriptorPool, sc.worldBytes);
    }
  }

  // ---------------------------------------------------------------- changing the owners of one workspace

  /** `o1` agrees with `o0` on every handle `o0` does not give to workspace `i`. */
  ghost predicate AgreeOutside(o0: Owners, o1: Owners, i: nat)
  {
    forall h | h in o0 && !OfWorkspace(o0, h, i) :: h in o1 && o1[h] == o0[h]
  }

  lemma {:induction false} StaticsOwnedMoved(sc: Scene, s: State, o0: Owners, o1: Owners, i: nat)
    requires StaticsOk(sc, s, o0) && AgreeOutside(o0, o1, i)
    ensures StaticsOk(sc, s, o1)
  {
    assert forall h, r | Owns(o0, h, r) && r.InScene? :: Owns(o1, h, r);
  }

  lemma {:induction false} WorkspaceOwnedMoved(o0: Owners, o1: Owners, w: Workspace, j: nat, i: nat)
    requires WorkspaceOwned(o0, w, j) && AgreeOutside(o0, o1, i) && j != i
    ensures WorkspaceOwned(o1, w, j)
  {
    assert forall h, r | Owns(o0, h, r) && r.InWorkspace? && r.index == j :: Owns(o1, h, r);
  }

  /** The statics survive a step of workspace `i` that replaced it by `w`. */
  lemma {:induction false} ReplacedStatics(sc: Scene, i: nat, w: Workspace, o0: Owners, o1: Owners, s0: State, s1: State,
                                           gone: set<Handle>)
    requires i < |sc.workspaces| && StaticsOk(sc, s0, o0) && Stable(s0, s1, gone)
    requires forall h | h in gone && h in o0 :: OfWorkspace(o0, h, i) || o0[h] == InScene(TransferBufferItem, 0, false)
    requires AgreeOutside(o0, o1, i)
    ensures StaticsOk(sc.(workspaces := sc.workspaces[i := w]), s1, o1)
  {
    StaticsStable(sc, o0, s0, s1, gone);
    StaticsOwnedMoved(sc, s1, o0, o1, i);
  }

  /** The other workspaces survive a step of workspace `i` that replaced it by the live `w`. */
  lemma {:induction false} ReplacedWorkspaces(sc: Scene, i: nat, w: Workspace, o0: Owners, o1: Owners, s0: State, s1: State,
                                              gone: set<Handle>)
    requires i < |sc.workspaces| && WorkspacesOk(sc, s0, o0) && Stable(s0, s1, gone)
    requires forall h | h in gone && h in o0 :: OfWorkspace(o0, h, i) || o0[h] == InScene(TransferBufferItem, 0, false)
    requires AgreeOutside(o0, o1, i)
    requires WorkspaceLive(w, s1, sc.commandPool, sc.descriptorPool, sc.worldBytes) && WorkspaceOwned(o1, w, i)
    ensures WorkspacesOk(sc.(workspaces := sc.workspaces[i := w]), s1, o1)
  {
    var sc1 := sc.(workspaces := sc.workspaces[i := w]);
    OtherWorkspacesStable(sc, i, o0, s0, s1, gone);
    forall j | 0 <= j < |sc1.workspaces|
      ensures WorkspaceLive(sc1.workspaces[j], s1, sc1.commandPool, sc1.descriptorPool, sc1.worldBytes)
      ensures WorkspaceOwned(o1, sc1.workspaces[j], j)
    {
      if j != i {
        WorkspaceOwnedMoved(o0, o1, sc.workspaces[j], j, i);
      }
    }
  }

  /**
   * Re-establishing the scene after a step that replaced workspace `i` by `w`: the statics
   * and the other workspaces are framed by the step, `w` is live and owned afresh.
   */
  lemma {:induction false} ReplaceWorkspace(sc: Scene, i: nat, w: Workspace, o0: Owners, o1: Owners, s0: State, s1: State,
                                            gone: set<Handle>)
    requires i < |sc.workspaces| && SceneOk(sc, s0, o0) && Stable(s0, s1, gone)
    requires forall h | h in gone && h in o0 :: OfWorkspace(o0, h, i) || o0[h] == InScene(TransferBufferItem, 0, false)
    requires AgreeOutside(o0, o1, i) && OwnedPresent(o1, s1)
    requires WorkspaceLive(w, s1, sc.commandPool, sc.descriptorPool, sc.worldBytes) && WorkspaceOwned(o1, w, i)
    ensures SceneOk(sc.(workspaces := sc.workspaces[i := w]), s1, o1)
  {
    SceneOkParts(sc, s0, o0);
    ReplacedStatics(sc, i, w, o0, o1, s0, s1, gone);
    ReplacedWorkspaces(sc, i, w, o0, o1, s0, s1, gone);
    SceneOkFromParts(sc.(workspaces := sc.workspaces[i := w]), s1, o1);
  }

  // ---------------------------------------------------------------- one frame's steps

  /** Every owned handle a step took away belongs to workspace `i`. */
  ghost predicate InWorkspaceOnly(o: Owners, gone: set<Handle>, i: nat)
  {
    forall h | h in gone && h in o :: OfWorkspace(o, h, i)
  }

  lemma {:induction false} AgreeTrans(o0: Owners, o1: Owners, o2: Owners, i: nat)
    requires AgreeOutside(o0, o1, i) && AgreeOutside(o1, o2, i)
    ensures AgreeOutside(o0, o2, i)
  {
    forall h | h in o0 && !OfWorkspace(o0, h, i)
      ensures h in o2 && o2[h] == o0[h]
    {
      assert !OfWorkspace(o1, h, i);
    }
  }

  /** Two steps of workspace `i`, the second under the owners the first left, together took away only handles of `i`. */
  lemma {:induction false} GoneCompose(o0: Owners, o1: Owners, g1: set<Handle>, g2: set<Handle>, i: nat)
    requires InWorkspaceOnly(o0, g1, i) && InWorkspaceOnly(o1, g2, i) && AgreeOutside(o0, o1, i)
    ensures InWorkspaceOnly(o0, g1 + g2, i)
  {
    assert forall h | h in o0 && !OfWorkspace(o0, h, i) :: h in o1 && !OfWorkspace(o1, h, i);
  }

  /** The handles a buffer pair holds, memory included. */
  function PairHandles(src: AllocatedBuffer, dst: AllocatedBuffer): set<Handle>
  {
    {src.handle, src.allocation.handle, dst.handle, dst.allocation.handle}
  }

  /**
   * The owners after the pair (`src`, `dst`) in slots `srcSlot`, `dstSlot` of workspace `i`
   * was replaced by (`src1`, `dst1`): the old handles lose their roles, the new ones take them.
   */
  ghost function PairRehomed(o: Owners, src: AllocatedBuffer, dst: AllocatedBuffer, src1: AllocatedBuffer, dst1: AllocatedBuffer,
                             i: nat, srcSlot: Slot, dstSlot: Slot): Owners
  {
    if src1 == src && dst1 == dst then o
    else (o - PairHandles(src, dst))[src1.handle := InWorkspace(i, srcSlot, false)][src1.allocation.handle := InWorkspace(i, srcSlot, true)]
                                    [dst1.handle := InWorkspace(i, dstSlot, false)][dst1.allocation.handle := InWorkspace(i, dstSlot, true)]
  }

  /** The four handles of a pair, memory included, are pairwise distinct. */
  predicate Apart(src: AllocatedBuffer, dst: AllocatedBuffer)
  {
    && src.handle != src.allocation.handle && src.handle != dst.handle && src.handle != dst.allocation.handle
    && src.allocation.handle != dst.handle && src.allocation.handle != dst.allocation.handle
    && dst.handle != dst.allocation.handle
  }

  /** Four distinct handles none of which `o` owns. */
  ghost predicate FreshPair(o: Owners, src: AllocatedBuffer, dst: AllocatedBuffer)
  {
    src.handle !in o && src.allocation.handle !in o && dst.handle !in o && dst.allocation.handle !in o && Apart(src, dst)
  }

  /**
   * Replacing a pair of workspace `i` by a fresh one changes no role outside workspace `i`
   * and no other slot of `i`, and gives the new pair the old pair's slots.
   */
  lemma {:induction false} PairRehomedOwners(o: Owners, src: AllocatedBuffer, dst: AllocatedBuffer, src1: AllocatedBuffer,
                                             dst1: AllocatedBuffer, i: nat, srcSlot: Slot, dstSlot: Slot)
    requires srcSlot != dstSlot && NullHandle !in o
    requires (src == NoBuffer && dst == NoBuffer) || (src.handle != NullHandle && dst.handle != NullHandle)
    requires OwnsBuffer(o, src, InWorkspace(i, srcSlot, false)) && OwnsBuffer(o, dst, InWorkspace(i, dstSlot, false))
    requires (src1 == src && dst1 == dst) || (src1.handle != NullHandle && dst1.handle != NullHandle && FreshPair(o - PairHandles(src, dst), src1, dst1))
    ensures var o1 := PairRehomed(o, src, dst, src1, dst1, i, srcSlot, dstSlot);
      && AgreeOutside(o, o1, i)
      && OwnsBuffer(o1, src1, InWorkspace(i, srcSlot, false)) && OwnsBuffer(o1, dst1, InWorkspace(i, dstSlot, false))
      && (forall h | h in o && o[h].InWorkspace? && o[h].slot != srcSlot && o[h].slot != dstSlot :: h in o1 && o1[h] == o[h])
      && (forall h | h in o1 && h !in o :: h in PairHandles(src1, dst1))
  {
    var o1 := PairRehomed(o, src, dst, src1, dst1, i, srcSlot, dstSlot);
    if !(src1 == src && dst1 == dst) {
      forall h | h in o && h in PairHandles(src, dst)
        ensures OfWorkspace(o, h, i) && (o[h].slot == srcSlot || o[h].slot == dstSlot)
      {
      }
      forall h | h in o && h !in PairHandles(src, dst)
        ensures h in o1 && o1[h] == o[h]
      {
      }
    }
  }

  /** Removing handles of workspace `i` and adding unowned ones keeps every owned handle alive when the step kept all others. */
  lemma {:induction false} RehomedPresent(o: Owners, o1: Owners, s0: State, s1: State, gone: set<Handle>, added: set<Handle>)
    requires OwnedPresent(o, s0) && Stable(s0, s1, gone)
    requires forall h | h in o1 :: (h in o && h !in gone) || h in added
    requires forall h | h in added :: Present(s1, h)
    ensures OwnedPresent(o1, s1)
  {
    forall h | h in o1
      ensures Present(s1, h)
    {
      if h !in added {
        assert Kept(s0, s1, h);
      }
    }
  }

  /** Workspace buffers whose handles a step did not take away stay as they were. */
  lemma {:induction false} WorkspaceBuffersStable(w: Workspace, s0: State, s1: State, gone: set<Handle>, dp: Handle, worldBytes: nat)
    requires WorkspaceBuffers(w, s0, dp, worldBytes) && Stable(s0, s1, gone)
    requires w.linesVerticesSrc != NoBuffer ==> PairHandles(w.linesVerticesSrc, w.linesVertices) !! gone
    requires PairHandles(w.cameraSrc, w.camera) !! gone && PairHandles(w.worldSrc, w.world) !! gone
    requires w.transformsSrc != NoBuffer ==> PairHandles(w.transformsSrc, w.transforms) !! gone
    requires w.cameraDescriptors !in gone && w.worldDescriptors !in gone && w.transformDescriptors !in gone
    ensures WorkspaceBuffers(w, s1, dp, worldBytes)
  {
    assert Kept(s0, s1, w.cameraDescriptors) && Kept(s0, s1, w.worldDescriptors) && Kept(s0, s1, w.transformDescriptors);
    StreamPairStable(w.linesVerticesSrc, w.linesVertices, LinesUsage, s0, s1, gone);
    FixedPairStable(w.cameraSrc, w.camera, CameraBytes, UniformUsage, s0, s1, gone);
    FixedPairStable(w.worldSrc, w.world, worldBytes, UniformUsage, s0, s1, gone);
    StreamPairStable(w.transformsSrc, w.transforms, TransformsUsage, s0, s1, gone);
  }

  // ---------------------------------------------------------------- what one frame's copies leave behind

  /** `c` copies `bytes`, held at the front of a transfer source, to the front of a transfer destination with room for them. */
  ghost predicate CopyReady(s: State, c: Cmd, bytes: seq<Byte>)
  {
    && c.CopyBuffer? && c.srcOffset == 0 && c.dstOffset == 0 && c.size == |bytes|
    && c.src in s.buffers && c.dst in s.buffers
    && HasFlags(s.buffers[c.src].usage, BUFFER_USAGE_TRANSFER_SRC) && HasFlags(s.buffers[c.dst].usage, BUFFER_USAGE_TRANSFER_DST)
    && |bytes| <= |s.buffers[c.dst].data|
    && Holds(s, c.src, bytes)
  }

  lemma {:induction false} CopyEffect(s: State, c: Cmd, bytes: seq<Byte>)
    requires CopyReady(s, c, bytes)
    ensures Holds(RunCmd(c, s), c.dst, bytes) && DataStable(s, RunCmd(c, s), {c.dst}) && SameShape(s, RunCmd(c, s))
  {
    var s1 := RunCmd(c, s);
    CopyBufferSameShape(s, c.src, c.dst, 0, 0, c.size);
    assert s.buffers[c.src].data[0..c.size] == bytes;
    forall h | h !in {c.dst}
      ensures DataKept(s, s1, h)
    {
    }
  }

  /** The buffers `cmds` copy into. */
  function CopyTargets(cmds: seq<Cmd>): set<Handle>
  {
    set k | 0 <= k < |cmds| && cmds[k].CopyBuffer? :: cmds[k].dst
  }

  /** A copy stays ready across steps that change only data outside its source and keep every buffer's shape. */
  lemma {:induction false} CopyReadyKept(s0: State, s1: State, c: Cmd, bytes: seq<Byte>, touched: set<Handle>)
    requires CopyReady(s0, c, bytes) && DataStable(s0, s1, touched) && SameShape(s0, s1) && c.src !in touched
    ensures CopyReady(s1, c, bytes)
  {
    assert DataKept(s0, s1, c.src);
  }

  lemma {:induction false} CopyTargetsCons(cmds: seq<Cmd>)
    requires cmds != [] && cmds[0].CopyBuffer?
    ensures CopyTargets(cmds) == {cmds[0].dst} + CopyTargets(cmds[1..])
  {
    var rest := cmds[1..];
    forall h | h in CopyTargets(cmds)
      ensures h in {cmds[0].dst} + CopyTargets(rest)
    {
      var k :| 0 <= k < |cmds| && cmds[k].CopyBuffer? && cmds[k].dst == h;
      if k > 0 {
        assert rest[k - 1] == cmds[k];
      }
    }
    forall h | h in CopyTargets(rest)
      ensures h in CopyTargets(cmds)
    {
      var k :| 0 <= k < |rest| && rest[k].CopyBuffer? && rest[k].dst == h;
      assert cmds[k + 1] == rest[k];
    }
  }

  /**
   * Copies into distinct buffers, none of which is also a source, each copy `k` bringing
   * `payload[k]`: afterwards each destination holds its payload and no other buffer changed.
   */
  lemma {:induction false} CopiesEffect(cmds: seq<Cmd>, payload: seq<seq<Byte>>, s: State)
    requires |cmds| == |payload| && forall k | 0 <= k < |cmds| :: cmds[k].CopyBuffer?
    requires forall k | 0 <= k < |cmds| :: CopyReady(s, cmds[k], payload[k])
    requires forall k, m | 0 <= k < |cmds| && 0 <= m < |cmds| :: cmds[k].dst != cmds[m].src
    requires forall k, m | 0 <= k < m < |cmds| :: cmds[k].dst != cmds[m].dst
    ensures forall k | 0 <= k < |cmds| :: Holds(RunCmds(cmds, s), cmds[k].dst, payload[k])
    ensures DataStable(s, RunCmds(cmds, s), CopyTargets(cmds)) && SameShape(s, RunCmds(cmds, s))
    decreases |cmds|
  {
    if cmds != [] {
      var s1 := RunCmd(cmds[0], s);
      CopyEffect(s, cmds[0], payload[0]);
      var rest := cmds[1..];
      forall k | 0 <= k < |rest|
        ensures CopyReady(s1, rest[k], payload[1..][k])
      {
        assert rest[k] == cmds[k + 1];
        CopyReadyKept(s, s1, rest[k], payload[1..][k], {cmds[0].dst});
      }
      CopiesEffect(rest, payload[1..], s1);
      var s2 := RunCmds(rest, s1);
      assert s2 == RunCmds(cmds, s);
      forall k | 0 <= k < |rest|
        ensures rest[k].dst != cmds[0].dst
      {
        assert rest[k] == cmds[k + 1];
      }
      assert cmds[0].dst !in CopyTargets(rest);
      assert DataKept(s1, s2, cmds[0].dst);
      forall k | 0 <= k < |cmds|
        ensures Holds(s2, cmds[k].dst, payload[k])
      {
        if k > 0 {
          assert cmds[k] == rest[k - 1];
        }
      }
      DataStableTrans(s, s1, s2, {cmds[0].dst}, CopyTargets(rest));
      CopyTargetsCons(cmds);
      SameShapeTrans(s, s1, s2);
    }
  }

  /**
   * Copies between buffers of different slots of one workspace neither overlap nor feed one
   * another, so each destination ends up holding what its source held.
   */
  lemma {:induction false} CopiesHold(cmds: seq<Cmd>, payload: seq<seq<Byte>>, s: State, o: Owners, i: nat,
                                      srcSlots: seq<Slot>, dstSlots: seq<Slot>)
    requires |payload| == |cmds| && |srcSlots| == |cmds| && |dstSlots| == |cmds|
    requires forall k | 0 <= k < |cmds| :: cmds[k].CopyBuffer? && CopyReady(s, cmds[k], payload[k])
    requires forall k | 0 <= k < |cmds| ::
      Owns(o, cmds[k].src, InWorkspace(i, srcSlots[k], false)) && Owns(o, cmds[k].dst, InWorkspace(i, dstSlots[k], false))
    requires forall k, m | 0 <= k < |cmds| && 0 <= m < |cmds| :: dstSlots[k] != srcSlots[m]
    requires forall k, m | 0 <= k < m < |cmds| :: dstSlots[k] != dstSlots[m]
    ensures forall k | 0 <= k < |cmds| :: Holds(RunCmds(cmds, s), cmds[k].dst, payload[k])
  {
    CopiesEffect(cmds, payload, s);
  }

  /** One frame's copies when the lines and the transforms are both copied. */
  lemma {:induction false} UploadAllHold(w: Workspace, lines: seq<Byte>, camera: seq<Byte>, world: seq<Byte>, transforms: seq<Byte>, s: State, o: Owners, i: nat)
    requires WorkspaceOwned(o, w, i) && NullHandle !in s.buffers
    requires CopyReady(s, CopyBuffer(w.linesVerticesSrc.handle, w.linesVertices.handle, 0, 0, |lines|), lines)
    requires CopyReady(s, CopyBuffer(w.cameraSrc.handle, w.camera.handle, 0, 0, w.cameraSrc.size), camera)
    requires CopyReady(s, CopyBuffer(w.worldSrc.handle, w.world.handle, 0, 0, w.worldSrc.size), world)
    requires CopyReady(s, CopyBuffer(w.transformsSrc.handle, w.transforms.handle, 0, 0, |transforms|), transforms)
    ensures var s1 := RunCmds([CopyBuffer(w.linesVerticesSrc.handle, w.linesVertices.handle, 0, 0, |lines|), CopyBuffer(w.cameraSrc.handle, w.camera.handle, 0, 0, w.cameraSrc.size), CopyBuffer(w.worldSrc.handle, w.world.handle, 0, 0, w.worldSrc.size), CopyBuffer(w.transformsSrc.handle, w.transforms.handle, 0, 0, |transforms|)], s); Holds(s1, w.linesVertices.handle, lines) && Holds(s1, w.camera.handle, camera) && Holds(s1, w.world.handle, world) && Holds(s1, w.transforms.handle, transforms)
  {
    var cmds := [CopyBuffer(w.linesVerticesSrc.handle, w.linesVertices.handle, 0, 0, |lines|), CopyBuffer(w.cameraSrc.handle, w.camera.handle, 0, 0, w.cameraSrc.size), CopyBuffer(w.worldSrc.handle, w.world.handle, 0, 0, w.worldSrc.size), CopyBuffer(w.transformsSrc.handle, w.transforms.handle, 0, 0, |transforms|)];
    var payload := [lines, camera, world, transforms];
    var s1 := RunCmds(cmds, s);
    CopiesHold(cmds, payload, s, o, i, [LinesSrcSlot, CameraSrcSlot, WorldSrcSlot, TransformsSrcSlot], [LinesSlot, CameraSlot, WorldSlot, TransformsSlot]);
    assert Holds(s1, cmds[0].dst, payload[0]) && Holds(s1, cmds[1].dst, payload[1]);
    assert Holds(s1, cmds[2].dst, payload[2]) && Holds(s1, cmds[3].dst, payload[3]);
  }

  /** One frame's copies when the lines are copied and the transforms are not. */
  lemma {:induction false} UploadLinesHold(w: Workspace, lines: seq<Byte>, camera: seq<Byte>, world: seq<Byte>, s: State, o: Owners, i: nat)
    requires WorkspaceOwned(o, w, i) && NullHandle !in s.buffers
    requires CopyReady(s, CopyBuffer(w.linesVerticesSrc.handle, w.linesVertices.handle, 0, 0, |lines|), lines)
    requires CopyReady(s, CopyBuffer(w.cameraSrc.handle, w.camera.handle, 0, 0, w.cameraSrc.size), camera)
    requires CopyReady(s, CopyBuffer(w.worldSrc.handle, w.world.handle, 0, 0, w.worldSrc.size), world)
    ensures var s1 := RunCmds([CopyBuffer(w.linesVerticesSrc.handle, w.linesVertices.handle, 0, 0, |lines|), CopyBuffer(w.cameraSrc.handle, w.camera.handle, 0, 0, w.cameraSrc.size), CopyBuffer(w.worldSrc.handle, w.world.handle, 0, 0, w.worldSrc.size)], s); Holds(s1, w.linesVertices.handle, lines) && Holds(s1, w.camera.handle, camera) && Holds(s1, w.world.handle, world)
  {
    var cmds := [CopyBuffer(w.linesVerticesSrc.handle, w.linesVertices.handle, 0, 0, |lines|), CopyBuffer(w.cameraSrc.handle, w.camera.handle, 0, 0, w.cameraSrc.size), CopyBuffer(w.worldSrc.handle, w.world.handle, 0, 0, w.worldSrc.size)];
    var payload := [lines, camera, world];
    var s1 := RunCmds(cmds, s);
    CopiesHold(cmds, payload, s, o, i, [LinesSrcSlot, CameraSrcSlot, WorldSrcSlot], [LinesSlot, CameraSlot, WorldSlot]);
    assert Holds(s1, cmds[0].dst, payload[0]) && Holds(s1, cmds[1].dst, payload[1]);
    assert Holds(s1, cmds[2].dst, payload[2]);
  }

  /** One frame's copies when the transforms are copied and the lines are not. */
  lemma {:induction false} UploadTransformsHold(w: Workspace, camera: seq<Byte>, world: seq<Byte>, transforms: seq<Byte>, s: State, o: Owners, i: nat)
    requires WorkspaceOwned(o, w, i) && NullHandle !in s.buffers
    requires CopyReady(s, CopyBuffer(w.cameraSrc.handle, w.camera.handle, 0, 0, w.cameraSrc.size), camera)
    requires CopyReady(s, CopyBuffer(w.worldSrc.handle, w.world.handle, 0, 0, w.worldSrc.size), world)
    requires CopyReady(s, CopyBuffer(w.transformsSrc.handle, w.transforms.handle, 0, 0, |transforms|), transforms)
    ensures var s1 := RunCmds([CopyBuffer(w.cameraSrc.handle, w.camera.handle, 0, 0, w.cameraSrc.size), CopyBuffer(w.worldSrc.handle, w.world.handle, 0, 0, w.worldSrc.size), CopyBuffer(w.transformsSrc.handle, w.transforms.handle, 0, 0, |transforms|)], s); Holds(s1, w.camera.handle, camera) && Holds(s1, w.world.handle, world) && Holds(s1, w.transforms.handle, transforms)
  {
    var cmds := [CopyBuffer(w.cameraSrc.handle, w.camera.handle, 0, 0, w.cameraSrc.size), CopyBuffer(w.worldSrc.handle, w.world.handle, 0, 0, w.worldSrc.size), CopyBuffer(w.transformsSrc.handle, w.transforms.handle, 0, 0, |transforms|)];
    var payload := [camera, world, transforms];
    var s1 := RunCmds(cmds, s);
    CopiesHold(cmds, payload, s, o, i, [CameraSrcSlot, WorldSrcSlot, TransformsSrcSlot], [CameraSlot, WorldSlot, TransformsSlot]);
    assert Holds(s1, cmds[0].dst, payload[0]) && Holds(s1, cmds[1].dst, payload[1]);
    assert Holds(s1, cmds[2].dst, payload[2]);
  }

  /** One frame's copies when only the camera and world records are copied. */
  lemma {:induction false} UploadFixedHold(w: Workspace, camera: seq<Byte>, world: seq<Byte>, s: State, o: Owners, i: nat)
    requires WorkspaceOwned(o, w, i) && NullHandle !in s.buffers
    requires CopyReady(s, CopyBuffer(w.cameraSrc.handle, w.camera.handle, 0, 0, w.cameraSrc.size), camera)
    requires CopyReady(s, CopyBuffer(w.worldSrc.handle, w.world.handle, 0, 0, w.worldSrc.size), world)
    ensures var s1 := RunCmds([CopyBuffer(w.cameraSrc.handle, w.camera.handle, 0, 0, w.cameraSrc.size), CopyBuffer(w.worldSrc.handle, w.world.handle, 0, 0, w.worldSrc.size)], s); Holds(s1, w.camera.handle, camera) && Holds(s1, w.world.handle, world)
  {
    var cmds := [CopyBuffer(w.cameraSrc.handle, w.camera.handle, 0, 0, w.cameraSrc.size), CopyBuffer(w.worldSrc.handle, w.world.handle, 0, 0, w.worldSrc.size)];
    var payload := [camera, world];
    var s1 := RunCmds(cmds, s);
    CopiesHold(cmds, payload, s, o, i, [CameraSrcSlot, WorldSrcSlot], [CameraSlot, WorldSlot]);
    assert Holds(s1, cmds[0].dst, payload[0]) && Holds(s1, cmds[1].dst, payload[1]);
  }

  /**
   * The copies one frame records: when each staging buffer holds its bytes, every
   * device-side buffer the frame copies into ends up holding what its staging buffer held.
   */
  lemma {:induction false} UploadEffect(w: Workspace, lines: seq<Byte>, camera: seq<Byte>, world: seq<Byte>,
                                        transforms: seq<Byte>, copyTransforms: bool, s: State, o: Owners, i: nat)
    requires WorkspaceOwned(o, w, i) && NullHandle !in s.buffers
    requires |lines| > 0 ==> CopyReady(s, CopyBuffer(w.linesVerticesSrc.handle, w.linesVertices.handle, 0, 0, |lines|), lines)
    requires CopyReady(s, CopyBuffer(w.cameraSrc.handle, w.camera.handle, 0, 0, w.cameraSrc.size), camera)
    requires CopyReady(s, CopyBuffer(w.worldSrc.handle, w.world.handle, 0, 0, w.worldSrc.size), world)
    requires copyTransforms ==>
      CopyReady(s, CopyBuffer(w.transformsSrc.handle, w.transforms.handle, 0, 0, |transforms|), transforms)
    ensures var s1 := RunCmds(UploadCmds(w, |lines|, |transforms|, copyTransforms), s);
      && (|lines| > 0 ==> Holds(s1, w.linesVertices.handle, lines))
      && Holds(s1, w.camera.handle, camera) && Holds(s1, w.world.handle, world)
      && (copyTransforms ==> Holds(s1, w.transforms.handle, transforms))
  {
    var cmds := UploadCmds(w, |lines|, |transforms|, copyTransforms);
    if |lines| > 0 && copyTransforms {
      assert cmds == [CopyBuffer(w.linesVerticesSrc.handle, w.linesVertices.handle, 0, 0, |lines|), CopyBuffer(w.cameraSrc.handle, w.camera.handle, 0, 0, w.cameraSrc.size), CopyBuffer(w.worldSrc.handle, w.world.handle, 0, 0, w.worldSrc.size), CopyBuffer(w.transformsSrc.handle, w.transforms.handle, 0, 0, |transforms|)];
      UploadAllHold(w, lines, camera, world, transforms, s, o, i);
    } else if |lines| > 0 {
      assert cmds == [CopyBuffer(w.linesVerticesSrc.handle, w.linesVertices.handle, 0, 0, |lines|), CopyBuffer(w.cameraSrc.handle, w.camera.handle, 0, 0, w.cameraSrc.size), CopyBuffer(w.worldSrc.handle, w.world.handle, 0, 0, w.worldSrc.size)];
      UploadLinesHold(w, lines, camera, world, s, o, i);
    } else if copyTransforms {
      assert cmds == [CopyBuffer(w.cameraSrc.handle, w.camera.handle, 0, 0, w.cameraSrc.size), CopyBuffer(w.worldSrc.handle, w.world.handle, 0, 0, w.worldSrc.size), CopyBuffer(w.transformsSrc.handle, w.transforms.handle, 0, 0, |transforms|)];
      UploadTransformsHold(w, camera, world, transforms, s, o, i);
    } else {
      assert cmds == [CopyBuffer(w.cameraSrc.handle, w.camera.handle, 0, 0, w.cameraSrc.size), CopyBuffer(w.worldSrc.handle, w.world.handle, 0, 0, w.worldSrc.size)];
      UploadFixedHold(w, camera, world, s, o, i);
    }
  }
}
