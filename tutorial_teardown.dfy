/**
 * Taking the Tutorial apart (Tutorial::~Tutorial and destroy_framebuffers): every handle the
 * renderer's fields hold has a role, and the destructor releases the roles in stages, in the
 * order the source destroys them.  A stage releases exactly its own roles and leaves every
 * later one as it was.
 */
module TutorialTeardown {
  import opened Vulkan
  import opened Device
  import opened Helpers
  import opened TutorialTypes
  import opened TutorialScene

  // ---------------------------------------------------------------- the handle of each role

  /** The buffer's handle or, for `memory`, its allocation's; none for an empty buffer. */
  function BufferPart(b: AllocatedBuffer, memory: bool): Handle
  {
    if b.handle == NullHandle then NullHandle else if memory then b.allocation.handle else b.handle
  }

  function ImagePart(i: AllocatedImage, memory: bool): Handle
  {
    if i.handle == NullHandle then NullHandle else if memory then i.allocation.handle else i.handle
  }

  /** A plain handle has no memory role. */
  function Plain(h: Handle, memory: bool): Handle
  {
    if memory then NullHandle else h
  }

  function SlotHandle(w: Workspace, slot: Slot, memory: bool): Handle
  {
    match slot
    case CommandBufferSlot => Plain(w.commandBuffer, memory)
    case LinesSrcSlot => BufferPart(w.linesVerticesSrc, memory)
    case LinesSlot => BufferPart(w.linesVertices, memory)
    case CameraSrcSlot => BufferPart(w.cameraSrc, memory)
    case CameraSlot => BufferPart(w.camera, memory)
    case CameraSetSlot => Plain(w.cameraDescriptors, memory)
    case WorldSrcSlot => BufferPart(w.worldSrc, memory)
    case WorldSlot => BufferPart(w.world, memory)
    case WorldSetSlot => Plain(w.worldDescriptors, memory)
    case TransformsSrcSlot => BufferPart(w.transformsSrc, memory)
    case TransformsSlot => BufferPart(w.transforms, memory)
    case TransformsSetSlot => Plain(w.transformDescriptors, memory)
  }

  /** Entry `k` of a list of plain handles. */
  function Entry(hs: seq<Handle>, k: nat, memory: bool): Handle
  {
    if k < |hs| then Plain(hs[k], memory) else NullHandle
  }

  /** A field holding one plain handle fills the role with index 0. */
  function Single(h: Handle, k: nat, memory: bool): Handle
  {
    if k == 0 then Plain(h, memory) else NullHandle
  }

  /** The handle the field of role `r` holds in `sc`, or the null handle when it holds none. */
  function RoleHandle(sc: Scene, r: Role): Handle
  {
    match r
    case InWorkspace(j, slot, memory) =>
      if j < |sc.workspaces| then SlotHandle(sc.workspaces[j], slot, memory) else NullHandle
    case InScene(item, k, memory) =>
      match item
      case TransferPoolItem => Single(sc.transferPool, k, memory)
      case TransferBufferItem => Single(sc.transferBuffer, k, memory)
      case CommandPoolItem => Single(sc.commandPool, k, memory)
      case RenderPassItem => Single(sc.renderPass, k, memory)
      case DescriptorPoolItem => Single(sc.descriptorPool, k, memory)
      case ObjectVerticesItem => if k == 0 then BufferPart(sc.objectVertices, memory) else NullHandle
      case TextureItem => if k < |sc.textures| then ImagePart(sc.textures[k], memory) else NullHandle
      case TextureViewItem => Entry(sc.textureViews, k, memory)
      case SamplerItem => Single(sc.textureSampler, k, memory)
      case TexturePoolItem => Single(sc.textureDescriptorPool, k, memory)
      case TextureSetItem => Entry(sc.textureDescriptors, k, memory)
      case DepthImageItem => if k == 0 then ImagePart(sc.depthImage, memory) else NullHandle
      case DepthViewItem => Single(sc.depthImageView, k, memory)
      case FramebufferItem => Entry(sc.framebuffers, k, memory)
      case LeakedVerticesItem => if k < |sc.leaked| then BufferPart(sc.leaked[k], memory) else NullHandle
  }

  lemma {:induction false} WorkspaceRoleOwned(w: Workspace, j: nat, o: Owners, s: State, cp: Handle, dp: Handle, worldBytes: nat,
                                              slot: Slot, memory: bool)
    requires WorkspaceLive(w, s, cp, dp, worldBytes) && WorkspaceOwned(o, w, j) && SlotHandle(w, slot, memory) != NullHandle
    ensures Owns(o, SlotHandle(w, slot, memory), InWorkspace(j, slot, memory))
  {
  }

  /** Every role the scene fills is owned under that role, so two roles never share a handle. */
  lemma {:induction false} RoleOwned(sc: Scene, s: State, o: Owners, r: Role)
    requires SceneOk(sc, s, o) && RoleHandle(sc, r) != NullHandle
    ensures Owns(o, RoleHandle(sc, r), r)
  {
    SceneOkParts(sc, s, o);
    match r
    case InWorkspace(j, slot, memory) =>
      assert WorkspaceLive(sc.workspaces[j], s, sc.commandPool, sc.descriptorPool, sc.worldBytes);
      assert WorkspaceOwned(o, sc.workspaces[j], j);
      WorkspaceRoleOwned(sc.workspaces[j], j, o, s, sc.commandPool, sc.descriptorPool, sc.worldBytes, slot, memory);
    case InScene(item, k, memory) =>
      if item == TextureItem {
        assert OwnsImage(o, sc.textures[k], InScene(TextureItem, k, false));
      } else if item == LeakedVerticesItem {
        assert OwnsBuffer(o, sc.leaked[k], InScene(LeakedVerticesItem, k, false));
      }
  }

  lemma {:induction false} RolesApart(sc: Scene, s: State, o: Owners, r1: Role, r2: Role)
    requires SceneOk(sc, s, o) && RoleHandle(sc, r1) != NullHandle && RoleHandle(sc, r1) == RoleHandle(sc, r2)
    ensures r1 == r2
  {
    RoleOwned(sc, s, o, r1);
    RoleOwned(sc, s, o, r2);
  }

  /** The roles the destructor leaves alone: the helpers' transfer pool and buffer, and the leaked vertex buffers. */
  predicate Retained(r: Role)
  {
    r.InScene? && r.item in {TransferPoolItem, TransferBufferItem, LeakedVerticesItem}
  }

  // ---------------------------------------------------------------- destroying lists of handles

  /** No handle appears twice. */
  predicate Distinct(hs: seq<Handle>)
  {
    forall j, k | 0 <= j < k < |hs| :: hs[j] != hs[k]
  }

  /** One destroy call per handle, in list order. */
  function DestroyCalls(kind: ObjectKind, hs: seq<Handle>): (r: seq<Call>)
    ensures |r| == |hs| && forall k | 0 <= k < |hs| :: r[k] == VkDestroyObject(kind, hs[k])
  {
    if hs == [] then [] else DestroyCalls(kind, hs[..|hs| - 1]) + [VkDestroyObject(kind, hs[|hs| - 1])]
  }

  lemma {:induction false} ElementsSnoc(hs: seq<Handle>, k: nat)
    requires k < |hs|
    ensures Elements(hs[..k + 1]) == Elements(hs[..k]) + {hs[k]}
    ensures hs[k] !in Elements(hs[..k]) <== Distinct(hs)
  {
    assert hs[..k + 1] == hs[..k] + [hs[k]];
  }

  lemma {:induction false} DestroyCallsSnoc(kind: ObjectKind, hs: seq<Handle>, k: nat)
    requires k < |hs|
    ensures DestroyCalls(kind, hs[..k + 1]) == DestroyCalls(kind, hs[..k]) + [VkDestroyObject(kind, hs[k])]
  {
    assert hs[..k + 1][..k] == hs[..k];
  }

  lemma {:induction false} MinusSnoc<V>(m: map<Handle, V>, a: set<Handle>, x: Handle)
    ensures m - a - {x} == m - (a + {x})
  {
  }

  lemma {:induction false} AppendAssoc<T>(a: seq<T>, b: seq<T>, c: seq<T>)
    ensures a + b + c == a + (b + c)
  {
  }

  lemma {:induction false} AppendAssoc4<T>(a: seq<T>, b: seq<T>, c: seq<T>, d: seq<T>)
    ensures a + b + c + d == a + (b + c + d)
  {
    AppendAssoc(a, b, c);
    AppendAssoc(a, b + c, d);
  }

  lemma {:induction false} MinusUnion<V>(m: map<Handle, V>, a: set<Handle>, b: set<Handle>)
    ensures m - a - b == m - (a + b)
  {
  }

  /** One more object destroyed: the object loop's account of the device after `k + 1` handles. */
  lemma {:induction false} ObjectsStep(kind: ObjectKind, hs: seq<Handle>, k: nat, s0: State, s: State, s1: State)
    requires k < |hs|
    requires s == s0.(objects := s0.objects - Elements(hs[..k]), calls := s0.calls + DestroyCalls(kind, hs[..k]))
    requires s1 == s.(objects := s.objects - {hs[k]}, calls := s.calls + [VkDestroyObject(kind, hs[k])])
    ensures s1 == s0.(objects := s0.objects - Elements(hs[..k + 1]), calls := s0.calls + DestroyCalls(kind, hs[..k + 1]))
  {
    ElementsSnoc(hs, k);
    DestroyCallsSnoc(kind, hs, k);
    MinusSnoc(s0.objects, Elements(hs[..k]), hs[k]);
    AppendAssoc(s0.calls, DestroyCalls(kind, hs[..k]), [VkDestroyObject(kind, hs[k])]);
  }

  /** Destroys every object of `hs` (views, framebuffers), front to back. */
  method DestroyObjects(gpu: Gpu, kind: ObjectKind, hs: seq<Handle>)
    requires gpu.Valid() && kind != CommandPool && Distinct(hs)
    requires forall k | 0 <= k < |hs| :: IsObject(gpu.st, hs[k], kind)
    modifies gpu
    ensures gpu.Valid()
    ensures gpu.st == old(gpu.st).(objects := old(gpu.st).objects - Elements(hs), calls := old(gpu.st).calls + DestroyCalls(kind, hs))
  {
    ghost var s0 := gpu.st;
    var k := 0;
    while k < |hs|
      invariant k <= |hs| && gpu.Valid()
      invariant gpu.st == s0.(objects := s0.objects - Elements(hs[..k]), calls := s0.calls + DestroyCalls(kind, hs[..k]))
    {
      ghost var s := gpu.st;
      ElementsSnoc(hs, k);
      assert IsObject(s0, hs[k], kind);
      assert IsObject(s, hs[k], kind);
      gpu.DestroyObject(kind, hs[k]);
      ObjectsStep(kind, hs, k, s0, s, gpu.st);
      k := k + 1;
    }
    assert hs[..k] == hs;
  }

  function ImageHandles(images: seq<AllocatedImage>): set<Handle>
  {
    set k | 0 <= k < |images| :: images[k].handle
  }

  function ImageMemory(images: seq<AllocatedImage>): set<Handle>
  {
    set k | 0 <= k < |images| :: images[k].allocation.handle
  }

  function DestroyImagesCalls(images: seq<AllocatedImage>): seq<Call>
  {
    if images == [] then [] else DestroyImagesCalls(images[..|images| - 1]) + DestroyImageCalls(images[|images| - 1])
  }

  lemma {:induction false} ImagesSnoc(images: seq<AllocatedImage>, k: nat)
    requires k < |images|
    ensures ImageHandles(images[..k + 1]) == ImageHandles(images[..k]) + {images[k].handle}
    ensures ImageMemory(images[..k + 1]) == ImageMemory(images[..k]) + {images[k].allocation.handle}
    ensures DestroyImagesCalls(images[..k + 1]) == DestroyImagesCalls(images[..k]) + DestroyImageCalls(images[k])
  {
    assert images[..k + 1] == images[..k] + [images[k]];
    assert images[..k + 1][..k] == images[..k];
  }

  /** One more image destroyed: the image loop's account of the device after `k + 1` images. */
  lemma {:induction false} ImagesStep(images: seq<AllocatedImage>, k: nat, s0: State, s: State, s1: State)
    requires k < |images|
    requires s.images == s0.images - ImageHandles(images[..k]) && s.memory == s0.memory - ImageMemory(images[..k])
    requires s.calls == s0.calls + DestroyImagesCalls(images[..k])
    requires s1.images == s.images - {images[k].handle} && s1.memory == s.memory - {images[k].allocation.handle}
    requires s1.calls == s.calls + DestroyImageCalls(images[k])
    ensures s1.images == s0.images - ImageHandles(images[..k + 1]) && s1.memory == s0.memory - ImageMemory(images[..k + 1])
    ensures s1.calls == s0.calls + DestroyImagesCalls(images[..k + 1])
  {
    ImagesSnoc(images, k);
    MinusSnoc(s0.images, ImageHandles(images[..k]), images[k].handle);
    MinusSnoc(s0.memory, ImageMemory(images[..k]), images[k].allocation.handle);
    AppendAssoc(s0.calls, DestroyImagesCalls(images[..k]), DestroyImageCalls(images[k]));
  }

  /** An image not yet reached by the loop below can still be destroyed. */
  lemma {:induction false} ImageStillLive(images: seq<AllocatedImage>, k: nat, s0: State, s: State)
    requires k < |images| && LiveImage(images[k], s0)
    requires forall j | 0 <= j < k :: images[j].handle != images[k].handle && images[j].allocation.handle != images[k].allocation.handle
    requires s.images == s0.images - ImageHandles(images[..k]) && s.memory == s0.memory - ImageMemory(images[..k])
    ensures images[k].handle in s.images && Freeable(images[k].allocation, s)
  {
  }

  /** Destroys every image of `images` and frees its memory, front to back. */
  method DestroyImages(helpers: Helpers, images: seq<AllocatedImage>)
    requires helpers.Valid()
    requires forall k | 0 <= k < |images| :: LiveImage(images[k], helpers.gpu.st)
    requires forall j, k | 0 <= j < k < |images| ::
      images[j].handle != images[k].handle && images[j].allocation.handle != images[k].allocation.handle
    modifies helpers.gpu
    ensures helpers.Valid()
    ensures helpers.gpu.st == old(helpers.gpu.st).(images := old(helpers.gpu.st).images - ImageHandles(images),
                                                   memory := old(helpers.gpu.st).memory - ImageMemory(images),
                                                   calls := old(helpers.gpu.st).calls + DestroyImagesCalls(images))
  {
    ghost var s0 := helpers.gpu.st;
    var k := 0;
    while k < |images|
      invariant k <= |images| && helpers.Valid()
      invariant helpers.gpu.st.images == s0.images - ImageHandles(images[..k])
      invariant helpers.gpu.st.memory == s0.memory - ImageMemory(images[..k])
      invariant helpers.gpu.st.calls == s0.calls + DestroyImagesCalls(images[..k])
      invariant helpers.gpu.st == s0.(images := helpers.gpu.st.images, memory := helpers.gpu.st.memory, calls := helpers.gpu.st.calls)
    {
      ghost var s := helpers.gpu.st;
      ImageStillLive(images, k, s0, s);
      var _ := helpers.DestroyImage(images[k]);
      ImagesStep(images, k, s0, s, helpers.gpu.st);
      k := k + 1;
    }
    assert images[..k] == images;
  }

  // ---------------------------------------------------------------- a workspace's buffers

  /** The buffer fields of a workspace, in the order the destructor visits them. */
  function WorkspaceBufferList(w: Workspace): seq<AllocatedBuffer>
  {
    [w.linesVerticesSrc, w.linesVertices, w.cameraSrc, w.camera, w.worldSrc, w.world, w.transformsSrc, w.transforms]
  }

  /** The slot of each entry of `WorkspaceBufferList`. */
  const BufferSlots: seq<Slot> :=
    [LinesSrcSlot, LinesSlot, CameraSrcSlot, CameraSlot, WorldSrcSlot, WorldSlot, TransformsSrcSlot, TransformsSlot]

  /** The handles of the buffers of `bs` that hold one. */
  function HeldHandles(bs: seq<AllocatedBuffer>): set<Handle>
  {
    set k | 0 <= k < |bs| && bs[k].handle != NullHandle :: bs[k].handle
  }

  /** The memory behind the buffers of `bs` that hold one. */
  function HeldMemory(bs: seq<AllocatedBuffer>): set<Handle>
  {
    set k | 0 <= k < |bs| && bs[k].handle != NullHandle :: bs[k].allocation.handle
  }

  /** The calls destroying the held buffers of `bs`, front to back; an empty buffer is skipped. */
  function DestroyHeldCalls(bs: seq<AllocatedBuffer>): seq<Call>
  {
    if bs == [] then []
    else DestroyHeldCalls(bs[..|bs| - 1])
         + (if bs[|bs| - 1].handle == NullHandle then [] else DestroyBufferCalls(bs[|bs| - 1]))
  }

  lemma {:induction false} HeldSnoc(bs: seq<AllocatedBuffer>, k: nat)
    requires k < |bs|
    ensures bs[k].handle == NullHandle ==>
      && HeldHandles(bs[..k + 1]) == HeldHandles(bs[..k]) && HeldMemory(bs[..k + 1]) == HeldMemory(bs[..k])
      && DestroyHeldCalls(bs[..k + 1]) == DestroyHeldCalls(bs[..k])
    ensures bs[k].handle != NullHandle ==>
      && HeldHandles(bs[..k + 1]) == HeldHandles(bs[..k]) + {bs[k].handle}
      && HeldMemory(bs[..k + 1]) == HeldMemory(bs[..k]) + {bs[k].allocation.handle}
      && DestroyHeldCalls(bs[..k + 1]) == DestroyHeldCalls(bs[..k]) + DestroyBufferCalls(bs[k])
  {
    assert bs[..k + 1] == bs[..k] + [bs[k]];
    assert bs[..k + 1][..k] == bs[..k];
  }

  /** Two held buffers of `bs` share neither their handle nor their memory. */
  predicate HeldApart(bs: seq<AllocatedBuffer>)
  {
    forall j, k | 0 <= j < k < |bs| && bs[j].handle != NullHandle && bs[k].handle != NullHandle ::
      bs[j].handle != bs[k].handle && bs[j].allocation.handle != bs[k].allocation.handle
  }

  lemma {:induction false} HeldFresh(bs: seq<AllocatedBuffer>, k: nat)
    requires k < |bs| && HeldApart(bs) && bs[k].handle != NullHandle
    ensures bs[k].handle !in HeldHandles(bs[..k]) && bs[k].allocation.handle !in HeldMemory(bs[..k])
  {
  }

  /** A held buffer not yet reached by the loop below can still be destroyed. */
  lemma {:induction false} HeldStillLive(bs: seq<AllocatedBuffer>, k: nat, s0: State, s: State)
    requires k < |bs| && HeldApart(bs) && bs[k].handle != NullHandle && LiveBuffer(bs[k], s0)
    requires s.buffers == s0.buffers - HeldHandles(bs[..k]) && s.memory == s0.memory - HeldMemory(bs[..k])
    ensures bs[k].handle in s.buffers && Freeable(bs[k].allocation, s)
  {
    HeldFresh(bs, k);
  }

  /** One more held buffer destroyed: the loop's account of the device after `k + 1` entries. */
  lemma {:induction false} HeldStep(bs: seq<AllocatedBuffer>, k: nat, s0: State, s: State, s1: State)
    requires k < |bs| && bs[k].handle != NullHandle
    requires s.buffers == s0.buffers - HeldHandles(bs[..k]) && s.memory == s0.memory - HeldMemory(bs[..k])
    requires s.calls == s0.calls + DestroyHeldCalls(bs[..k])
    requires s1.buffers == s.buffers - {bs[k].handle} && s1.memory == s.memory - {bs[k].allocation.handle}
    requires s1.calls == s.calls + DestroyBufferCalls(bs[k])
    ensures s1.buffers == s0.buffers - HeldHandles(bs[..k + 1]) && s1.memory == s0.memory - HeldMemory(bs[..k + 1])
    ensures s1.calls == s0.calls + DestroyHeldCalls(bs[..k + 1])
  {
    HeldSnoc(bs, k);
    MinusSnoc(s0.buffers, HeldHandles(bs[..k]), bs[k].handle);
    MinusSnoc(s0.memory, HeldMemory(bs[..k]), bs[k].allocation.handle);
    AppendAssoc(s0.calls, DestroyHeldCalls(bs[..k]), DestroyBufferCalls(bs[k]));
  }

  /** Destroys every held buffer of `bs` and frees its memory, front to back. */
  method DestroyHeldBuffers(helpers: Helpers, bs: seq<AllocatedBuffer>)
    requires helpers.Valid() && HeldApart(bs)
    requires forall k | 0 <= k < |bs| && bs[k].handle != NullHandle :: LiveBuffer(bs[k], helpers.gpu.st)
    modifies helpers.gpu
    ensures helpers.Valid()
    ensures helpers.gpu.st == old(helpers.gpu.st).(buffers := old(helpers.gpu.st).buffers - HeldHandles(bs),
                                                   memory := old(helpers.gpu.st).memory - HeldMemory(bs),
                                                   calls := old(helpers.gpu.st).calls + DestroyHeldCalls(bs))
  {
    ghost var s0 := helpers.gpu.st;
    var k := 0;
    while k < |bs|
      invariant k <= |bs| && helpers.Valid()
      invariant helpers.gpu.st.buffers == s0.buffers - HeldHandles(bs[..k])
      invariant helpers.gpu.st.memory == s0.memory - HeldMemory(bs[..k])
      invariant helpers.gpu.st.calls == s0.calls + DestroyHeldCalls(bs[..k])
      invariant helpers.gpu.st == s0.(buffers := helpers.gpu.st.buffers, memory := helpers.gpu.st.memory, calls := helpers.gpu.st.calls)
    {
      if bs[k].handle != NullHandle {
        ghost var s := helpers.gpu.st;
        HeldStillLive(bs, k, s0, s);
        var _ := helpers.DestroyBuffer(bs[k]);
        HeldStep(bs, k, s0, s, helpers.gpu.st);
      } else {
        HeldSnoc(bs, k);
      }
      k := k + 1;
    }
    assert bs[..k] == bs;
  }

  /** Each buffer of a workspace owned as its slot of workspace `j`. */
  lemma {:induction false} BufferListOwned(o: Owners, w: Workspace, j: nat)
    requires WorkspaceOwned(o, w, j)
    ensures forall k | 0 <= k < 8 :: OwnsBuffer(o, WorkspaceBufferList(w)[k], InWorkspace(j, BufferSlots[k], false))
  {
    forall k | 0 <= k < 8
      ensures OwnsBuffer(o, WorkspaceBufferList(w)[k], InWorkspace(j, BufferSlots[k], false))
    {
      if k == 0 {} else if k == 1 {} else if k == 2 {} else if k == 3 {}
      else if k == 4 {} else if k == 5 {} else if k == 6 {} else {}
    }
  }

  /** The buffers a workspace owns are apart, and each of their handles belongs to that workspace. */
  lemma {:induction false} WorkspaceHeld(o: Owners, w: Workspace, j: nat)
    requires WorkspaceOwned(o, w, j)
    ensures HeldApart(WorkspaceBufferList(w))
    ensures forall h | h in HeldHandles(WorkspaceBufferList(w)) :: OfWorkspace(o, h, j)
    ensures forall h | h in HeldMemory(WorkspaceBufferList(w)) :: OfWorkspace(o, h, j)
  {
    var bs := WorkspaceBufferList(w);
    BufferListOwned(o, w, j);
    assert |bs| == 8;
    forall a, b | 0 <= a < b < 8 && bs[a].handle != NullHandle && bs[b].handle != NullHandle
      ensures bs[a].handle != bs[b].handle && bs[a].allocation.handle != bs[b].allocation.handle
    {
      assert BufferSlots[a] != BufferSlots[b];
    }
  }

  // ---------------------------------------------------------------- the workspaces

  /** The handle as a set: empty when it is null. */
  function NonNull(c: Handle): set<Handle>
  {
    if c == NullHandle then {} else {c}
  }

  /** The calls taking one workspace apart: its command buffer goes back to the pool, then its buffers go. */
  function WorkspaceCalls(w: Workspace): seq<Call>
  {
    (if w.commandBuffer == NullHandle then [] else [VkFreeCommandBuffer(w.commandBuffer)])
    + DestroyHeldCalls(WorkspaceBufferList(w))
  }

  /**
   * One pass of the destructor's workspace loop (Tutorial.cpp:550-591): the command buffer is
   * freed and each of the eight buffers destroyed, each only when its handle is not null.  The
   * descriptor sets stay; they go with the descriptor pool.
   */
  method DestroyWorkspace(helpers: Helpers, commandPool: Handle, w: Workspace)
    requires helpers.Valid() && HeldApart(WorkspaceBufferList(w))
    requires w.commandBuffer != NullHandle ==>
      && w.commandBuffer in helpers.gpu.st.commandBuffers && helpers.gpu.st.commandBuffers[w.commandBuffer].pool == commandPool
      && w.commandBuffer != helpers.TransferCommandBuffer
    requires forall k | 0 <= k < 8 && WorkspaceBufferList(w)[k].handle != NullHandle ::
      LiveBuffer(WorkspaceBufferList(w)[k], helpers.gpu.st)
    modifies helpers.gpu
    ensures helpers.Valid()
    ensures helpers.gpu.st == old(helpers.gpu.st).(commandBuffers := old(helpers.gpu.st).commandBuffers - NonNull(w.commandBuffer),
                                                   buffers := old(helpers.gpu.st).buffers - HeldHandles(WorkspaceBufferList(w)),
                                                   memory := old(helpers.gpu.st).memory - HeldMemory(WorkspaceBufferList(w)),
                                                   calls := old(helpers.gpu.st).calls + WorkspaceCalls(w))
  {
    if w.commandBuffer != NullHandle {
      helpers.gpu.FreeCommandBuffer(commandPool, w.commandBuffer);
    }
    DestroyHeldBuffers(helpers, WorkspaceBufferList(w));
  }

  function WorkspacesCommandBuffers(ws: seq<Workspace>): set<Handle>
  {
    if ws == [] then {} else WorkspacesCommandBuffers(ws[..|ws| - 1]) + NonNull(ws[|ws| - 1].commandBuffer)
  }

  function WorkspacesBuffers(ws: seq<Workspace>): set<Handle>
  {
    if ws == [] then {} else WorkspacesBuffers(ws[..|ws| - 1]) + HeldHandles(WorkspaceBufferList(ws[|ws| - 1]))
  }

  function WorkspacesMemory(ws: seq<Workspace>): set<Handle>
  {
    if ws == [] then {} else WorkspacesMemory(ws[..|ws| - 1]) + HeldMemory(WorkspaceBufferList(ws[|ws| - 1]))
  }

  function WorkspacesCalls(ws: seq<Workspace>): seq<Call>
  {
    if ws == [] then [] else WorkspacesCalls(ws[..|ws| - 1]) + WorkspaceCalls(ws[|ws| - 1])
  }

  lemma {:induction false} WorkspacesSnoc(ws: seq<Workspace>, j: nat)
    requires j < |ws|
    ensures WorkspacesCommandBuffers(ws[..j + 1]) == WorkspacesCommandBuffers(ws[..j]) + NonNull(ws[j].commandBuffer)
    ensures WorkspacesBuffers(ws[..j + 1]) == WorkspacesBuffers(ws[..j]) + HeldHandles(WorkspaceBufferList(ws[j]))
    ensures WorkspacesMemory(ws[..j + 1]) == WorkspacesMemory(ws[..j]) + HeldMemory(WorkspaceBufferList(ws[j]))
    ensures WorkspacesCalls(ws[..j + 1]) == WorkspacesCalls(ws[..j]) + WorkspaceCalls(ws[j])
  {
    assert ws[..j + 1][..j] == ws[..j];
  }

  /** Everything the first `|ws|` workspaces hold belongs to one of them. */
  lemma {:induction false} WorkspacesOwned(o: Owners, ws: seq<Workspace>)
    requires forall j | 0 <= j < |ws| :: WorkspaceOwned(o, ws[j], j)
    ensures forall h | h in WorkspacesCommandBuffers(ws) :: h in o && o[h].InWorkspace? && o[h].index < |ws|
    ensures forall h | h in WorkspacesBuffers(ws) :: h in o && o[h].InWorkspace? && o[h].index < |ws|
    ensures forall h | h in WorkspacesMemory(ws) :: h in o && o[h].InWorkspace? && o[h].index < |ws|
  {
    if ws != [] {
      var n := |ws| - 1;
      WorkspacesOwned(o, ws[..n]);
      WorkspaceHeld(o, ws[n], n);
    }
  }

  /** What the workspace loop needs of workspace `j` once the ones before it are gone. */
  ghost predicate WorkspaceTearable(w: Workspace, s: State, commandPool: Handle)
  {
    && (w.commandBuffer != NullHandle ==>
          w.commandBuffer in s.commandBuffers && s.commandBuffers[w.commandBuffer].pool == commandPool)
    && (forall k | 0 <= k < 8 && WorkspaceBufferList(w)[k].handle != NullHandle :: LiveBuffer(WorkspaceBufferList(w)[k], s))
  }

  /** Taking workspaces before `j` apart leaves workspace `j` as it was. */
  lemma {:induction false} WorkspaceStillTearable(ws: seq<Workspace>, j: nat, o: Owners, s0: State, s: State, commandPool: Handle)
    requires j < |ws| && forall i | 0 <= i < |ws| :: WorkspaceOwned(o, ws[i], i)
    requires WorkspaceTearable(ws[j], s0, commandPool)
    requires s.commandBuffers == s0.commandBuffers - WorkspacesCommandBuffers(ws[..j])
    requires s.buffers == s0.buffers - WorkspacesBuffers(ws[..j]) && s.memory == s0.memory - WorkspacesMemory(ws[..j])
    ensures WorkspaceTearable(ws[j], s, commandPool) && HeldApart(WorkspaceBufferList(ws[j]))
  {
    var w := ws[j];
    var bs := WorkspaceBufferList(w);
    assert ws[..j] == ws[..j];
    WorkspacesOwned(o, ws[..j]);
    WorkspaceHeld(o, w, j);
    assert forall i | 0 <= i < j :: ws[..j][i] == ws[i];
    assert w.commandBuffer != NullHandle ==> OfWorkspace(o, w.commandBuffer, j);
    forall k | 0 <= k < 8 && bs[k].handle != NullHandle
      ensures LiveBuffer(bs[k], s)
    {
      assert LiveBuffer(bs[k], s0);
      assert bs[k].handle in HeldHandles(bs) && bs[k].allocation.handle in HeldMemory(bs);
    }
  }

  lemma {:induction false} WorkspacesStep(ws: seq<Workspace>, j: nat, s0: State, s1: State, s2: State)
    requires j < |ws|
    requires s1.commandBuffers == s0.commandBuffers - WorkspacesCommandBuffers(ws[..j])
    requires s1.buffers == s0.buffers - WorkspacesBuffers(ws[..j]) && s1.memory == s0.memory - WorkspacesMemory(ws[..j])
    requires s1.calls == s0.calls + WorkspacesCalls(ws[..j])
    requires s2.commandBuffers == s1.commandBuffers - NonNull(ws[j].commandBuffer)
    requires s2.buffers == s1.buffers - HeldHandles(WorkspaceBufferList(ws[j]))
    requires s2.memory == s1.memory - HeldMemory(WorkspaceBufferList(ws[j]))
    requires s2.calls == s1.calls + WorkspaceCalls(ws[j])
    ensures s2.commandBuffers == s0.commandBuffers - WorkspacesCommandBuffers(ws[..j + 1])
    ensures s2.buffers == s0.buffers - WorkspacesBuffers(ws[..j + 1]) && s2.memory == s0.memory - WorkspacesMemory(ws[..j + 1])
    ensures s2.calls == s0.calls + WorkspacesCalls(ws[..j + 1])
  {
    WorkspacesSnoc(ws, j);
    var a, b, c := WorkspacesCommandBuffers(ws[..j]), WorkspacesBuffers(ws[..j]), WorkspacesMemory(ws[..j]);
    MinusUnion(s0.commandBuffers, a, NonNull(ws[j].commandBuffer));
    MinusUnion(s0.buffers, b, HeldHandles(WorkspaceBufferList(ws[j])));
    MinusUnion(s0.memory, c, HeldMemory(WorkspaceBufferList(ws[j])));
    AppendAssoc(s0.calls, WorkspacesCalls(ws[..j]), WorkspaceCalls(ws[j]));
  }

  /** The destructor's workspace loop: every workspace taken apart, front to back. */
  method DestroyWorkspaces(helpers: Helpers, commandPool: Handle, ws: seq<Workspace>, ghost o: Owners)
    requires helpers.Valid()
    requires forall j | 0 <= j < |ws| :: WorkspaceOwned(o, ws[j], j)
    requires forall j | 0 <= j < |ws| :: ws[j].commandBuffer != helpers.TransferCommandBuffer
    requires forall j | 0 <= j < |ws| :: WorkspaceTearable(ws[j], helpers.gpu.st, commandPool)
    modifies helpers.gpu
    ensures helpers.Valid()
    ensures helpers.gpu.st == old(helpers.gpu.st).(commandBuffers := old(helpers.gpu.st).commandBuffers - WorkspacesCommandBuffers(ws),
                                                   buffers := old(helpers.gpu.st).buffers - WorkspacesBuffers(ws),
                                                   memory := old(helpers.gpu.st).memory - WorkspacesMemory(ws),
                                                   calls := old(helpers.gpu.st).calls + WorkspacesCalls(ws))
  {
    ghost var s0 := helpers.gpu.st;
    var j := 0;
    while j < |ws|
      invariant j <= |ws| && helpers.Valid()
      invariant helpers.gpu.st.commandBuffers == s0.commandBuffers - WorkspacesCommandBuffers(ws[..j])
      invariant helpers.gpu.st.buffers == s0.buffers - WorkspacesBuffers(ws[..j])
      invariant helpers.gpu.st.memory == s0.memory - WorkspacesMemory(ws[..j])
      invariant helpers.gpu.st.calls == s0.calls + WorkspacesCalls(ws[..j])
      invariant helpers.gpu.st == s0.(commandBuffers := helpers.gpu.st.commandBuffers, buffers := helpers.gpu.st.buffers,
                                      memory := helpers.gpu.st.memory, calls := helpers.gpu.st.calls)
    {
      ghost var s1 := helpers.gpu.st;
      WorkspaceStillTearable(ws, j, o, s0, s1, commandPool);
      DestroyWorkspace(helpers, commandPool, ws[j]);
      WorkspacesStep(ws, j, s0, s1, helpers.gpu.st);
      j := j + 1;
    }
    assert ws[..j] == ws;
  }

  // ---------------------------------------------------------------- the destructor, stage by stage

  /** The descriptor sets that outlive the destruction of every pool in `ps`. */
  function SetsOutsideAll(sets: map<Handle, DescriptorSet>, ps: set<Handle>): map<Handle, DescriptorSet>
  {
    map d | d in sets && sets[d].pool !in ps :: sets[d]
  }

  /** The command buffers that outlive the destruction of every pool in `ps`. */
  function CommandBuffersOutsideAll(buffers: map<Handle, CommandBuffer>, ps: set<Handle>): map<Handle, CommandBuffer>
  {
    map c | c in buffers && buffers[c].pool !in ps :: buffers[c]
  }

  /** The call destroying the descriptor pool `p`, when it is not null. */
  function PoolCalls(p: Handle): seq<Call>
  {
    if p == NullHandle then [] else [VkDestroyDescriptorPool(p)]
  }

  /** The call destroying object `h` of `kind`, when it is not null. */
  function ObjectCalls(kind: ObjectKind, h: Handle): seq<Call>
  {
    if h == NullHandle then [] else [VkDestroyObject(kind, h)]
  }

  /** The calls of destroy_framebuffers: the framebuffers in order, the depth view, the depth image. */
  function FramebuffersCalls(framebuffers: seq<Handle>, view: Handle, depth: AllocatedImage): seq<Call>
  {
    DestroyCalls(Framebuffer, framebuffers) + [VkDestroyObject(ImageView, view)] + DestroyImageCalls(depth)
  }

  /** The calls of destroy_framebuffers, when there is a depth image. */
  function SwapchainCalls(sc: Scene): seq<Call>
  {
    if sc.depthImage.handle == NullHandle then [] else FramebuffersCalls(sc.framebuffers, sc.depthImageView, sc.depthImage)
  }

  /** The objects destroy_framebuffers destroys, when there is a depth image. */
  function SwapchainObjects(sc: Scene): set<Handle>
  {
    if sc.depthImage.handle != NullHandle then Elements(sc.framebuffers) + {sc.depthImageView} else {}
  }

  /** The memory of the depth image, when there is one. */
  function DepthMemory(sc: Scene): set<Handle>
  {
    if sc.depthImage.handle == NullHandle then {} else {sc.depthImage.allocation.handle}
  }

  /*
   * The device after each stage of ~Tutorial (Tutorial.cpp:507-621), for the scene `sc` it
   * started from in `s0`.  A stage the source guards by a null test removes nothing and makes
   * no call when its handle is null.
   */

  function Waited(s0: State): State
  {
    s0.(calls := s0.calls + [VkDeviceWaitIdle])
  }

  /** The texture pool, and with it the texture sets. */
  function TexturePoolDestroyed(s0: State, sc: Scene): State
  {
    var s := Waited(s0);
    var p := sc.textureDescriptorPool;
    s.(pools := s.pools - NonNull(p), descriptorSets := SetsOutsideAll(s.descriptorSets, NonNull(p)), calls := s.calls + PoolCalls(p))
  }

  function SamplerDestroyed(s0: State, sc: Scene): State
  {
    var s := TexturePoolDestroyed(s0, sc);
    s.(objects := s.objects - NonNull(sc.textureSampler), calls := s.calls + ObjectCalls(Sampler, sc.textureSampler))
  }

  function ViewsDestroyed(s0: State, sc: Scene): State
  {
    var s := SamplerDestroyed(s0, sc);
    s.(objects := s.objects - Elements(sc.textureViews), calls := s.calls + DestroyCalls(ImageView, sc.textureViews))
  }

  function TexturesDestroyed(s0: State, sc: Scene): State
  {
    var s := ViewsDestroyed(s0, sc);
    s.(images := s.images - ImageHandles(sc.textures), memory := s.memory - ImageMemory(sc.textures),
       calls := s.calls + DestroyImagesCalls(sc.textures))
  }

  /** ObjectVertices is destroyed unconditionally. */
  function ObjectVerticesDestroyed(s0: State, sc: Scene): State
  {
    var s := TexturesDestroyed(s0, sc);
    var b := sc.objectVertices;
    s.(buffers := s.buffers - {b.handle}, memory := s.memory - {b.allocation.handle}, calls := s.calls + DestroyBufferCalls(b))
  }

  function SwapchainDestroyed(s0: State, sc: Scene): State
  {
    var s := ObjectVerticesDestroyed(s0, sc);
    s.(objects := s.objects - SwapchainObjects(sc), images := s.images - NonNull(sc.depthImage.handle),
       memory := s.memory - DepthMemory(sc), calls := s.calls + SwapchainCalls(sc))
  }

  function WorkspacesDestroyed(s0: State, sc: Scene): State
  {
    var s := SwapchainDestroyed(s0, sc);
    var ws := sc.workspaces;
    s.(commandBuffers := s.commandBuffers - WorkspacesCommandBuffers(ws), buffers := s.buffers - WorkspacesBuffers(ws),
       memory := s.memory - WorkspacesMemory(ws), calls := s.calls + WorkspacesCalls(ws))
  }

  /** The descriptor pool, and with it the workspaces' sets. */
  function DescriptorPoolDestroyed(s0: State, sc: Scene): State
  {
    var s := WorkspacesDestroyed(s0, sc);
    var p := sc.descriptorPool;
    s.(pools := s.pools - NonNull(p), descriptorSets := SetsOutsideAll(s.descriptorSets, NonNull(p)), calls := s.calls + PoolCalls(p))
  }

  /** The command pool, and with it every command buffer still allocated from it. */
  function CommandPoolDestroyed(s0: State, sc: Scene): State
  {
    var s := DescriptorPoolDestroyed(s0, sc);
    var p := sc.commandPool;
    s.(objects := s.objects - NonNull(p), commandBuffers := CommandBuffersOutsideAll(s.commandBuffers, NonNull(p)),
       calls := s.calls + ObjectCalls(CommandPool, p))
  }

  /** The device once ~Tutorial has run: the render pass is the last to go. */
  function TornDown(s0: State, sc: Scene): State
  {
    var s := CommandPoolDestroyed(s0, sc);
    s.(objects := s.objects - NonNull(sc.renderPass), calls := s.calls + ObjectCalls(RenderPass, sc.renderPass))
  }

  /** No map of the device has the null handle as a key (the device never hands it out). */
  ghost predicate NullFree(s: State)
  {
    !Present(s, NullHandle)
  }

  /** The helpers' transfer pool and command buffer, alive as the helpers need them. */
  ghost predicate TransferLive(s: State, sc: Scene)
  {
    && IsObject(s, sc.transferPool, CommandPool)
    && sc.transferBuffer in s.commandBuffers && s.commandBuffers[sc.transferBuffer].pool == sc.transferPool
  }

  // ---------------------------------------------------------------- what each stage finds

  lemma {:induction false} ReadyForTexturePool(sc: Scene, s0: State, o: Owners)
    requires SceneOk(sc, s0, o)
    ensures sc.textureDescriptorPool in s0.pools && IsObject(TexturePoolDestroyed(s0, sc), sc.textureSampler, Sampler)
  {
    SceneOkParts(sc, s0, o);
  }

  lemma {:induction false} ReadyForViews(sc: Scene, s0: State, o: Owners)
    requires SceneOk(sc, s0, o)
    ensures Distinct(sc.textureViews)
    ensures forall k | 0 <= k < |sc.textureViews| :: IsObject(SamplerDestroyed(s0, sc), sc.textureViews[k], ImageView)
  {
    SceneOkParts(sc, s0, o);
    var s := SamplerDestroyed(s0, sc);
    forall k | 0 <= k < |sc.textureViews|
      ensures IsObject(s, sc.textureViews[k], ImageView)
    {
      assert IsObject(s0, sc.textureViews[k], ImageView);
    }
  }

  lemma {:induction false} ReadyForTextures(sc: Scene, s0: State, o: Owners)
    requires SceneOk(sc, s0, o)
    ensures forall k | 0 <= k < |sc.textures| :: LiveImage(sc.textures[k], ViewsDestroyed(s0, sc))
    ensures forall j, k | 0 <= j < k < |sc.textures| ::
      sc.textures[j].handle != sc.textures[k].handle && sc.textures[j].allocation.handle != sc.textures[k].allocation.handle
  {
    SceneOkParts(sc, s0, o);
    forall j, k | 0 <= j < k < |sc.textures|
      ensures sc.textures[j].handle != sc.textures[k].handle && sc.textures[j].allocation.handle != sc.textures[k].allocation.handle
    {
      assert OwnsImage(o, sc.textures[j], InScene(TextureItem, j, false));
      assert OwnsImage(o, sc.textures[k], InScene(TextureItem, k, false));
    }
  }

  lemma {:induction false} ReadyForObjectVertices(sc: Scene, s0: State, o: Owners)
    requires SceneOk(sc, s0, o)
    ensures var s := TexturesDestroyed(s0, sc);
      sc.objectVertices.handle in s.buffers && Freeable(sc.objectVertices.allocation, s)
  {
    SceneOkParts(sc, s0, o);
    forall k | 0 <= k < |sc.textures|
      ensures sc.textures[k].allocation.handle != sc.objectVertices.allocation.handle
    {
      assert OwnsImage(o, sc.textures[k], InScene(TextureItem, k, false));
    }
  }

  /** The objects, images and memory the first six stages leave, each in one step from `s0`. */
  lemma {:induction false} ObjectVerticesDestroyedMaps(s0: State, sc: Scene)
    ensures var s := ObjectVerticesDestroyed(s0, sc);
      && s.objects == s0.objects - (NonNull(sc.textureSampler) + Elements(sc.textureViews))
      && s.images == s0.images - ImageHandles(sc.textures)
      && s.memory == s0.memory - (ImageMemory(sc.textures) + {sc.objectVertices.allocation.handle})
  {
    MinusUnion(s0.objects, NonNull(sc.textureSampler), Elements(sc.textureViews));
    MinusUnion(s0.memory, ImageMemory(sc.textures), {sc.objectVertices.allocation.handle});
  }

  /** The swapchain's handles are none of those the destructor releases before them. */
  lemma {:induction false} SwapchainApart(sc: Scene, s0: State, o: Owners)
    requires SceneOk(sc, s0, o) && sc.depthImage.handle != NullHandle
    ensures sc.depthImage.handle !in ImageHandles(sc.textures)
    ensures sc.depthImage.allocation.handle !in ImageMemory(sc.textures) + {sc.objectVertices.allocation.handle}
    ensures sc.depthImageView !in NonNull(sc.textureSampler) + Elements(sc.textureViews)
    ensures forall k | 0 <= k < |sc.framebuffers| :: sc.framebuffers[k] !in NonNull(sc.textureSampler) + Elements(sc.textureViews)
  {
    SceneOkParts(sc, s0, o);
    forall k | 0 <= k < |sc.textures|
      ensures sc.textures[k].handle != sc.depthImage.handle && sc.textures[k].allocation.handle != sc.depthImage.allocation.handle
      ensures sc.textureViews[k] != sc.depthImageView
      ensures forall j | 0 <= j < |sc.framebuffers| :: sc.textureViews[k] != sc.framebuffers[j]
    {
      assert OwnsImage(o, sc.textures[k], InScene(TextureItem, k, false));
      assert Owns(o, sc.textureViews[k], InScene(TextureViewItem, k, false));
    }
  }

  lemma {:induction false} ReadyForSwapchain(sc: Scene, s0: State, o: Owners)
    requires SceneOk(sc, s0, o) && sc.depthImage.handle != NullHandle
    ensures var s := ObjectVerticesDestroyed(s0, sc);
      && Distinct(sc.framebuffers) && (forall k | 0 <= k < |sc.framebuffers| :: IsObject(s, sc.framebuffers[k], Framebuffer))
      && IsObject(s, sc.depthImageView, ImageView) && sc.depthImageView !in Elements(sc.framebuffers)
      && LiveImage(sc.depthImage, s)
  {
    SceneOkParts(sc, s0, o);
    ObjectVerticesDestroyedMaps(s0, sc);
    SwapchainApart(sc, s0, o);
    var s := ObjectVerticesDestroyed(s0, sc);
    forall k | 0 <= k < |sc.framebuffers|
      ensures IsObject(s, sc.framebuffers[k], Framebuffer)
    {
      assert IsObject(s0, sc.framebuffers[k], Framebuffer);
    }
  }

  /** Each held buffer of a live workspace is live. */
  lemma {:induction false} BufferListLive(w: Workspace, s: State, cp: Handle, dp: Handle, worldBytes: nat)
    requires WorkspaceLive(w, s, cp, dp, worldBytes)
    ensures forall k | 0 <= k < 8 && WorkspaceBufferList(w)[k].handle != NullHandle :: LiveBuffer(WorkspaceBufferList(w)[k], s)
  {
    forall k | 0 <= k < 8 && WorkspaceBufferList(w)[k].handle != NullHandle
      ensures LiveBuffer(WorkspaceBufferList(w)[k], s)
    {
      if k == 0 {} else if k == 1 {} else if k == 2 {} else if k == 3 {}
      else if k == 4 {} else if k == 5 {} else if k == 6 {} else {}
    }
  }

  /** The memory freed before the workspace loop. */
  function EarlyMemory(sc: Scene): set<Handle>
  {
    ImageMemory(sc.textures) + {sc.objectVertices.allocation.handle} + DepthMemory(sc)
  }

  lemma {:induction false} SwapchainDestroyedMaps(s0: State, sc: Scene)
    ensures var s := SwapchainDestroyed(s0, sc);
      && s.buffers == s0.buffers - {sc.objectVertices.handle} && s.commandBuffers == s0.commandBuffers
      && s.memory == s0.memory - EarlyMemory(sc)
  {
    var s5 := TexturesDestroyed(s0, sc);
    var s6 := ObjectVerticesDestroyed(s0, sc);
    var s7 := SwapchainDestroyed(s0, sc);
    assert s5.memory == s0.memory - ImageMemory(sc.textures);
    assert s6.memory == s5.memory - {sc.objectVertices.allocation.handle};
    assert s7.memory == s6.memory - DepthMemory(sc);
    MinusUnion(s0.memory, ImageMemory(sc.textures), {sc.objectVertices.allocation.handle});
    MinusUnion(s0.memory, ImageMemory(sc.textures) + {sc.objectVertices.allocation.handle}, DepthMemory(sc));
  }

  /** What the destructor frees before the workspace loop belongs to no workspace. */
  lemma {:induction false} EarlyNotWorkspace(sc: Scene, s0: State, o: Owners)
    requires SceneOk(sc, s0, o)
    ensures forall h | h in EarlyMemory(sc) + {sc.objectVertices.handle} :: h in o && o[h].InScene?
  {
    SceneOkParts(sc, s0, o);
    forall h | h in EarlyMemory(sc) + {sc.objectVertices.handle}
      ensures h in o && o[h].InScene?
    {
      if h in ImageMemory(sc.textures) {
        var k :| 0 <= k < |sc.textures| && sc.textures[k].allocation.handle == h;
        assert OwnsImage(o, sc.textures[k], InScene(TextureItem, k, false));
      }
    }
  }

  /** A workspace outlives a step that took away only buffers and memory of the scene's own fields. */
  lemma {:induction false} WorkspaceOutlives(w: Workspace, j: nat, o: Owners, s0: State, s: State, cp: Handle, dp: Handle,
                                             worldBytes: nat, goneBuffers: set<Handle>, goneMemory: set<Handle>)
    requires WorkspaceLive(w, s0, cp, dp, worldBytes) && WorkspaceOwned(o, w, j)
    requires forall h | h in goneBuffers + goneMemory :: h in o && o[h].InScene?
    requires s.buffers == s0.buffers - goneBuffers && s.memory == s0.memory - goneMemory
    requires s.commandBuffers == s0.commandBuffers
    ensures WorkspaceTearable(w, s, cp)
  {
    var bs := WorkspaceBufferList(w);
    BufferListLive(w, s0, cp, dp, worldBytes);
    BufferListOwned(o, w, j);
    forall k | 0 <= k < 8 && bs[k].handle != NullHandle
      ensures LiveBuffer(bs[k], s)
    {
      assert OfWorkspace(o, bs[k].handle, j) && OfWorkspace(o, bs[k].allocation.handle, j);
    }
  }

  lemma {:induction false} ReadyForWorkspace(sc: Scene, s0: State, o: Owners, j: nat)
    requires SceneOk(sc, s0, o) && j < |sc.workspaces|
    ensures var w := sc.workspaces[j];
      && WorkspaceOwned(o, w, j) && w.commandBuffer != sc.transferBuffer
      && WorkspaceTearable(w, SwapchainDestroyed(s0, sc), sc.commandPool)
  {
    SceneWorkspace(sc, s0, o, j);
    assert sc.transferBuffer in o && o[sc.transferBuffer].InScene? by {
      SceneOkParts(sc, s0, o);
    }
    SwapchainDestroyedMaps(s0, sc);
    EarlyNotWorkspace(sc, s0, o);
    WorkspaceOutlives(sc.workspaces[j], j, o, s0, SwapchainDestroyed(s0, sc), sc.commandPool, sc.descriptorPool, sc.worldBytes,
                      {sc.objectVertices.handle}, EarlyMemory(sc));
  }

  lemma {:induction false} ReadyForWorkspaces(sc: Scene, s0: State, o: Owners)
    requires SceneOk(sc, s0, o)
    ensures forall j | 0 <= j < |sc.workspaces| ::
      && WorkspaceOwned(o, sc.workspaces[j], j) && sc.workspaces[j].commandBuffer != sc.transferBuffer
      && WorkspaceTearable(sc.workspaces[j], SwapchainDestroyed(s0, sc), sc.commandPool)
  {
    forall j | 0 <= j < |sc.workspaces|
      ensures && WorkspaceOwned(o, sc.workspaces[j], j) && sc.workspaces[j].commandBuffer != sc.transferBuffer
              && WorkspaceTearable(sc.workspaces[j], SwapchainDestroyed(s0, sc), sc.commandPool)
    {
      ReadyForWorkspace(sc, s0, o, j);
    }
  }

  /** The objects the destructor removes before the command pool: samplers, views and framebuffers only. */
  lemma {:induction false} EarlyObjectsNotPools(sc: Scene, s0: State, o: Owners)
    requires SceneOk(sc, s0, o)
    ensures forall h | h in NonNull(sc.textureSampler) + Elements(sc.textureViews) + SwapchainObjects(sc) ::
      h in s0.objects && s0.objects[h] in {Sampler, ImageView, Framebuffer}
  {
    SceneOkParts(sc, s0, o);
    forall h | h in NonNull(sc.textureSampler) + Elements(sc.textureViews) + SwapchainObjects(sc)
      ensures h in s0.objects && s0.objects[h] in {Sampler, ImageView, Framebuffer}
    {
      if h in Elements(sc.textureViews) {
        var k :| 0 <= k < |sc.textureViews| && sc.textureViews[k] == h;
        assert IsObject(s0, sc.textureViews[k], ImageView);
      } else if h in Elements(sc.framebuffers) && sc.depthImage.handle != NullHandle {
        var k :| 0 <= k < |sc.framebuffers| && sc.framebuffers[k] == h;
        assert IsObject(s0, sc.framebuffers[k], Framebuffer);
      }
    }
  }

  lemma {:induction false} DescriptorPoolDestroyedObjects(s0: State, sc: Scene)
    ensures DescriptorPoolDestroyed(s0, sc).objects
         == s0.objects - (NonNull(sc.textureSampler) + Elements(sc.textureViews) + SwapchainObjects(sc))
  {
    var s3 := SamplerDestroyed(s0, sc);
    var s4 := ViewsDestroyed(s0, sc);
    var s7 := SwapchainDestroyed(s0, sc);
    assert s3.objects == s0.objects - NonNull(sc.textureSampler);
    assert s4.objects == s3.objects - Elements(sc.textureViews);
    assert s7.objects == s4.objects - SwapchainObjects(sc);
    MinusUnion(s0.objects, NonNull(sc.textureSampler), Elements(sc.textureViews));
    MinusUnion(s0.objects, NonNull(sc.textureSampler) + Elements(sc.textureViews), SwapchainObjects(sc));
  }

  /** Before the descriptor pool, the texture pool is the only pool the destructor has destroyed. */
  lemma {:induction false} WorkspacesDestroyedPools(s0: State, sc: Scene)
    ensures WorkspacesDestroyed(s0, sc).pools == s0.pools - NonNull(sc.textureDescriptorPool)
  {
    assert TexturePoolDestroyed(s0, sc).pools == s0.pools - NonNull(sc.textureDescriptorPool);
  }

  lemma {:induction false} ReadyForDescriptorPool(sc: Scene, s0: State, o: Owners)
    requires SceneOk(sc, s0, o)
    ensures sc.descriptorPool in WorkspacesDestroyed(s0, sc).pools
  {
    SceneOkParts(sc, s0, o);
    assert sc.descriptorPool != sc.textureDescriptorPool;
    WorkspacesDestroyedPools(s0, sc);
  }

  /** The command pool and the render pass of a live scene. */
  lemma {:induction false} PassAndPoolLive(sc: Scene, s0: State, o: Owners)
    requires SceneOk(sc, s0, o)
    ensures IsObject(s0, sc.commandPool, CommandPool) && IsObject(s0, sc.renderPass, RenderPass)
  {
    SceneOkParts(sc, s0, o);
  }

  lemma {:induction false} ReadyForCommandPool(sc: Scene, s0: State, o: Owners)
    requires SceneOk(sc, s0, o)
    ensures IsObject(DescriptorPoolDestroyed(s0, sc), sc.commandPool, CommandPool)
  {
    PassAndPoolLive(sc, s0, o);
    EarlyObjectsNotPools(sc, s0, o);
    DescriptorPoolDestroyedObjects(s0, sc);
  }

  /** The fields the destructor tests against null before destroying are never null on a live scene. */
  lemma {:induction false} SceneNonNull(sc: Scene, s0: State, o: Owners, next: nat)
    requires SceneOk(sc, s0, o) && HandlesBelow(s0, next)
    ensures sc.textureDescriptorPool != NullHandle && sc.textureSampler != NullHandle
    ensures sc.descriptorPool != NullHandle && sc.commandPool != NullHandle && sc.renderPass != NullHandle
  {
    SceneOkParts(sc, s0, o);
  }

  /** The helpers' transfer pair is none of the handles the destructor releases. */
  lemma {:induction false} TransferApart(sc: Scene, s0: State, o: Owners)
    requires SceneOk(sc, s0, o)
    ensures sc.transferPool !in NonNull(sc.textureSampler) + Elements(sc.textureViews) + SwapchainObjects(sc)
    ensures sc.transferPool != sc.commandPool && sc.transferPool != sc.renderPass
    ensures sc.transferBuffer !in WorkspacesCommandBuffers(sc.workspaces)
  {
    SceneOkParts(sc, s0, o);
    WorkspacesOwned(o, sc.workspaces);
    forall k | 0 <= k < |sc.textureViews|
      ensures sc.textureViews[k] != sc.transferPool
    {
      assert Owns(o, sc.textureViews[k], InScene(TextureViewItem, k, false));
    }
    forall k | 0 <= k < |sc.framebuffers| && sc.depthImage.handle != NullHandle
      ensures sc.framebuffers[k] != sc.transferPool
    {
      assert Owns(o, sc.framebuffers[k], InScene(FramebufferItem, k, false));
    }
  }

  /** The transfer pair the helpers rely on outlives the opening stages of the destructor. */
  lemma {:induction false} TransferSurvivesOpening(sc: Scene, s0: State, o: Owners)
    requires SceneOk(sc, s0, o) && TransferLive(s0, sc)
    ensures TransferLive(Waited(s0), sc) && TransferLive(TexturePoolDestroyed(s0, sc), sc)
    ensures TransferLive(SamplerDestroyed(s0, sc), sc) && TransferLive(ViewsDestroyed(s0, sc), sc)
  {
    TransferApart(sc, s0, o);
  }

  /** The objects the destructor removes before the command pool. */
  function EarlyObjects(sc: Scene): set<Handle>
  {
    NonNull(sc.textureSampler) + Elements(sc.textureViews) + SwapchainObjects(sc)
  }

  /** The objects left once the destructor has run, in one step from `s0`. */
  lemma {:induction false} TornDownObjects(s0: State, sc: Scene)
    ensures TornDown(s0, sc).objects == s0.objects - (EarlyObjects(sc) + NonNull(sc.commandPool) + NonNull(sc.renderPass))
  {
    var s9 := DescriptorPoolDestroyed(s0, sc);
    var s10 := CommandPoolDestroyed(s0, sc);
    DescriptorPoolDestroyedObjects(s0, sc);
    assert s10.objects == s9.objects - NonNull(sc.commandPool);
    assert TornDown(s0, sc).objects == s10.objects - NonNull(sc.renderPass);
    MinusUnion(s0.objects, EarlyObjects(sc), NonNull(sc.commandPool));
    MinusUnion(s0.objects, EarlyObjects(sc) + NonNull(sc.commandPool), NonNull(sc.renderPass));
  }

  /** The command buffers left once the destructor has run: none of a workspace, none of the command pool. */
  lemma {:induction false} TornDownCommandBuffers(s0: State, sc: Scene)
    ensures CommandPoolDestroyed(s0, sc).commandBuffers
         == CommandBuffersOutsideAll(s0.commandBuffers - WorkspacesCommandBuffers(sc.workspaces), NonNull(sc.commandPool))
    ensures TornDown(s0, sc).commandBuffers == CommandPoolDestroyed(s0, sc).commandBuffers
  {
    SwapchainDestroyedMaps(s0, sc);
    assert DescriptorPoolDestroyed(s0, sc).commandBuffers == WorkspacesDestroyed(s0, sc).commandBuffers;
  }

  /** The buffers and memory left once the destructor has run, in one step from `s0`. */
  lemma {:induction false} TornDownBuffers(s0: State, sc: Scene)
    ensures TornDown(s0, sc).buffers == s0.buffers - ({sc.objectVertices.handle} + WorkspacesBuffers(sc.workspaces))
    ensures TornDown(s0, sc).memory == s0.memory - (EarlyMemory(sc) + WorkspacesMemory(sc.workspaces))
  {
    var s7 := SwapchainDestroyed(s0, sc);
    var s8 := WorkspacesDestroyed(s0, sc);
    SwapchainDestroyedMaps(s0, sc);
    assert s8.buffers == s7.buffers - WorkspacesBuffers(sc.workspaces);
    assert s8.memory == s7.memory - WorkspacesMemory(sc.workspaces);
    assert TornDown(s0, sc).buffers == s8.buffers && TornDown(s0, sc).memory == s8.memory;
    MinusUnion(s0.buffers, {sc.objectVertices.handle}, WorkspacesBuffers(sc.workspaces));
    MinusUnion(s0.memory, EarlyMemory(sc), WorkspacesMemory(sc.workspaces));
  }

  /**
   * The mesh buffers the constructor's loop overwrote outlive the destructor: ~Tutorial frees
   * ObjectVertices and the workspaces' buffers only, so each leaked buffer and its memory are
   * still on the device once it has run.
   */
  lemma {:induction false} LeakedSurvive(sc: Scene, s0: State, o: Owners, k: nat)
    requires SceneOk(sc, s0, o) && k < |sc.leaked|
    ensures sc.leaked[k].handle in TornDown(s0, sc).buffers
    ensures sc.leaked[k].allocation.handle in TornDown(s0, sc).memory
  {
    assert ScenePartOk(sc, s0, o, Statics) && ScenePartOk(sc, s0, o, Workspaces);
    LeakedApart(sc, o, k);
    TornDownBuffers(s0, sc);
  }

  /** A leaked buffer and its memory are owned apart from everything the destructor frees. */
  lemma {:induction false} LeakedApart(sc: Scene, o: Owners, k: nat)
    requires k < |sc.leaked| && sc.leaked[k].handle != NullHandle
    requires OwnsBuffer(o, sc.leaked[k], InScene(LeakedVerticesItem, k, false))
    requires sc.objectVertices.handle != NullHandle && OwnsBuffer(o, sc.objectVertices, InScene(ObjectVerticesItem, 0, false))
    requires forall j | 0 <= j < |sc.textures| ::
      sc.textures[j].handle != NullHandle && OwnsImage(o, sc.textures[j], InScene(TextureItem, j, false))
    requires sc.depthImage != NoImage ==> OwnsImage(o, sc.depthImage, InScene(DepthImageItem, 0, false))
    requires forall j | 0 <= j < |sc.workspaces| :: WorkspaceOwned(o, sc.workspaces[j], j)
    ensures sc.leaked[k].handle !in {sc.objectVertices.handle} + WorkspacesBuffers(sc.workspaces)
    ensures sc.leaked[k].allocation.handle !in EarlyMemory(sc) + WorkspacesMemory(sc.workspaces)
  {
    WorkspacesOwned(o, sc.workspaces);
  }

  /** The images, pools and descriptor sets left once the destructor has run, in one step from `s0`. */
  lemma {:induction false} TornDownImagesAndPools(s0: State, sc: Scene)
    ensures TornDown(s0, sc).images == s0.images - (ImageHandles(sc.textures) + NonNull(sc.depthImage.handle))
    ensures TornDown(s0, sc).pools == s0.pools - (NonNull(sc.textureDescriptorPool) + NonNull(sc.descriptorPool))
    ensures TornDown(s0, sc).descriptorSets
         == SetsOutsideAll(SetsOutsideAll(s0.descriptorSets, NonNull(sc.textureDescriptorPool)), NonNull(sc.descriptorPool))
  {
    ObjectVerticesDestroyedMaps(s0, sc);
    var s8 := WorkspacesDestroyed(s0, sc);
    assert s8.images == ObjectVerticesDestroyed(s0, sc).images - NonNull(sc.depthImage.handle);
    WorkspacesDestroyedPools(s0, sc);
    assert s8.descriptorSets == SetsOutsideAll(s0.descriptorSets, NonNull(sc.textureDescriptorPool));
    assert TornDown(s0, sc).images == s8.images;
    assert TornDown(s0, sc).pools == s8.pools - NonNull(sc.descriptorPool);
    assert TornDown(s0, sc).descriptorSets == SetsOutsideAll(s8.descriptorSets, NonNull(sc.descriptorPool));
    MinusUnion(s0.images, ImageHandles(sc.textures), NonNull(sc.depthImage.handle));
    MinusUnion(s0.pools, NonNull(sc.textureDescriptorPool), NonNull(sc.descriptorPool));
  }

  /** The transfer pair the helpers rely on outlives the swapchain and the workspaces' descriptor pool. */
  lemma {:induction false} TransferSurvivesMiddle(sc: Scene, s0: State, o: Owners)
    requires SceneOk(sc, s0, o) && TransferLive(s0, sc)
    ensures TransferLive(SwapchainDestroyed(s0, sc), sc) && TransferLive(DescriptorPoolDestroyed(s0, sc), sc)
  {
    TransferApart(sc, s0, o);
    SwapchainDestroyedMaps(s0, sc);
    DescriptorPoolDestroyedObjects(s0, sc);
  }

  /** The transfer pair the helpers rely on outlives the command pool and the render pass. */
  lemma {:induction false} TransferSurvivesClosing(sc: Scene, s0: State, o: Owners)
    requires SceneOk(sc, s0, o) && TransferLive(s0, sc)
    ensures TransferLive(CommandPoolDestroyed(s0, sc), sc) && TransferLive(TornDown(s0, sc), sc)
  {
    TransferApart(sc, s0, o);
    TornDownObjects(s0, sc);
    TornDownCommandBuffers(s0, sc);
  }

  lemma {:induction false} ReadyForRenderPass(sc: Scene, s0: State, o: Owners)
    requires SceneOk(sc, s0, o)
    ensures IsObject(CommandPoolDestroyed(s0, sc), sc.renderPass, RenderPass)
  {
    PassAndPoolLive(sc, s0, o);
    EarlyObjectsNotPools(sc, s0, o);
    DescriptorPoolDestroyedObjects(s0, sc);
    assert CommandPoolDestroyed(s0, sc).objects == DescriptorPoolDestroyed(s0, sc).objects - NonNull(sc.commandPool);
  }

  /** Without a depth image there is no depth view and no framebuffer either. */
  lemma {:induction false} NoSwapchain(sc: Scene, s0: State, o: Owners)
    requires SceneOk(sc, s0, o) && sc.depthImage.handle == NullHandle
    ensures sc.depthImage == NoImage && sc.depthImageView == NullHandle && sc.framebuffers == []
  {
    SceneOkParts(sc, s0, o);
  }

  /** Destroying one pool is destroying the pools of the one-element set. */
  lemma {:induction false} OutsideOne(buffers: map<Handle, CommandBuffer>, sets: map<Handle, DescriptorSet>, p: Handle)
    ensures CommandBuffersOutsideAll(buffers, {p}) == CommandBuffersOutside(buffers, p)
    ensures SetsOutsideAll(sets, {p}) == SetsOutside(sets, p)
  {
    assert CommandBuffersOutsideAll(buffers, {p}).Keys == CommandBuffersOutside(buffers, p).Keys;
    assert SetsOutsideAll(sets, {p}).Keys == SetsOutside(sets, p).Keys;
  }

  // ---------------------------------------------------------------- the destructor's phases

  /**
   * Part way through ~Tutorial: the helpers are usable on a device in state `s`, and the
   * destructor started from the live scene `sc` in `s0` with the helpers' transfer pair alive.
   */
  ghost predicate Tearing(helpers: Helpers, s: State, sc: Scene, s0: State, o: Owners)
    reads helpers, helpers.gpu
  {
    && helpers.Valid() && helpers.gpu.st == s && SceneOk(sc, s0, o) && TransferLive(s0, sc)
    && helpers.TransferCommandPool == sc.transferPool && helpers.TransferCommandBuffer == sc.transferBuffer
  }

  /**
   * The opening of ~Tutorial (Tutorial.cpp:507-535): wait for the device, then the texture pool
   * (and with it the texture sets), the sampler and the texture views, each null test of the
   * source kept.
   */
  method ReleaseTextureViews(helpers: Helpers, texturePool: Handle, sampler: Handle, views: seq<Handle>,
                             ghost sc: Scene, ghost s0: State, ghost o: Owners)
    requires Tearing(helpers, s0, sc, s0, o)
    requires sc.(textureDescriptorPool := texturePool, textureSampler := sampler, textureViews := views) == sc
    modifies helpers.gpu
    ensures Tearing(helpers, ViewsDestroyed(s0, sc), sc, s0, o)
  {
    var gpu := helpers.gpu;
    TransferSurvivesOpening(sc, s0, o);
    ReadyForTexturePool(sc, s0, o);
    gpu.DeviceWaitIdle();
    if texturePool != NullHandle {
      gpu.DestroyDescriptorPool(texturePool);
      OutsideOne(s0.commandBuffers, s0.descriptorSets, texturePool);
    }
    assert gpu.st == TexturePoolDestroyed(s0, sc);
    if sampler != NullHandle {
      gpu.DestroyObject(Sampler, sampler);
    }
    assert gpu.st == SamplerDestroyed(s0, sc);
    ReadyForViews(sc, s0, o);
    DestroyObjects(gpu, ImageView, views);
  }

  /**
   * Then (Tutorial.cpp:537-543) the textures and the object vertices, which are destroyed
   * unconditionally and left empty.
   */
  method ReleaseTextureImages(helpers: Helpers, textures: seq<AllocatedImage>, objectVertices: AllocatedBuffer,
                              ghost sc: Scene, ghost s0: State, ghost o: Owners) returns (emptied: AllocatedBuffer)
    requires Tearing(helpers, ViewsDestroyed(s0, sc), sc, s0, o)
    requires sc.(textures := textures, objectVertices := objectVertices) == sc
    modifies helpers.gpu
    ensures Tearing(helpers, ObjectVerticesDestroyed(s0, sc), sc, s0, o) && emptied == NoBuffer
  {
    ReadyForTextures(sc, s0, o);
    DestroyImages(helpers, textures);
    assert helpers.gpu.st == TexturesDestroyed(s0, sc);
    ReadyForObjectVertices(sc, s0, o);
    emptied := helpers.DestroyBuffer(objectVertices);
  }

  /**
   * The close of ~Tutorial (Tutorial.cpp:550-621): each workspace's command buffer and buffers,
   * then the descriptor pool (and with it the workspaces' sets), the command pool and the render
   * pass, each behind the source's null test.
   */
  method ReleaseFrameResources(helpers: Helpers, commandPool: Handle, descriptorPool: Handle, renderPass: Handle,
                               workspaces: seq<Workspace>, ghost sc: Scene, ghost s0: State, ghost o: Owners)
    requires Tearing(helpers, SwapchainDestroyed(s0, sc), sc, s0, o)
    requires sc.(commandPool := commandPool, descriptorPool := descriptorPool, renderPass := renderPass,
                 workspaces := workspaces) == sc
    modifies helpers.gpu
    ensures Tearing(helpers, TornDown(s0, sc), sc, s0, o)
  {
    var gpu := helpers.gpu;
    TransferSurvivesMiddle(sc, s0, o);
    TransferSurvivesClosing(sc, s0, o);
    ReadyForWorkspaces(sc, s0, o);
    DestroyWorkspaces(helpers, commandPool, workspaces, o);
    assert gpu.st == WorkspacesDestroyed(s0, sc);
    ReadyForDescriptorPool(sc, s0, o);
    if descriptorPool != NullHandle {
      gpu.DestroyDescriptorPool(descriptorPool);
      OutsideOne(s0.commandBuffers, WorkspacesDestroyed(s0, sc).descriptorSets, descriptorPool);
    }
    assert gpu.st == DescriptorPoolDestroyed(s0, sc);
    ReadyForCommandPool(sc, s0, o);
    if commandPool != NullHandle {
      gpu.DestroyCommandPool(commandPool);
      OutsideOne(DescriptorPoolDestroyed(s0, sc).commandBuffers, map[], commandPool);
    }
    assert gpu.st == CommandPoolDestroyed(s0, sc);
    ReadyForRenderPass(sc, s0, o);
    if renderPass != NullHandle {
      gpu.DestroyObject(RenderPass, renderPass);
    }
  }
}
