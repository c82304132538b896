/**
 * One frame of the renderer (Tutorial::render), step by step: the workspace's command
 * buffer is reset and begun; the streamed pairs are reallocated when too small; each
 * staging buffer is written by the host and a copy into its device-side partner recorded;
 * then the barrier, the render pass, the end of recording and the submission.  The steps
 * act on the device alone: the Tutorial's fields are passed in and the new workspace
 * comes back.
 */
module TutorialFrame {
  import opened Vulkan
  import opened Device
  import opened Helpers
  import opened TutorialTypes
  import opened TutorialScene

  // ---------------------------------------------------------------- the workspace during a frame

  /** Workspace `i` part-way through a frame: its buffers and sets as between frames, its command buffer recording. */
  ghost predicate InFrame(w: Workspace, o: Owners, i: nat, s: State, dp: Handle, worldBytes: nat)
  {
    && WorkspaceBuffers(w, s, dp, worldBytes) && WorkspaceOwned(o, w, i) && OwnedPresent(o, s) && NullHandle !in o
    && w.commandBuffer in s.commandBuffers && s.commandBuffers[w.commandBuffer].phase == Recording
  }

  /** Every handle in `gone` is null or held by one of the `slots` of workspace `i`. */
  ghost predicate GoneFrom(o: Owners, gone: set<Handle>, i: nat, slots: set<Slot>)
  {
    forall h | h in gone :: h == NullHandle || (OfWorkspace(o, h, i) && o[h].slot in slots)
  }

  /** The device never hands out the null handle, so no field owns it. */
  lemma {:induction false} NullNotOwned(o: Owners, s: State, next: nat)
    requires OwnedPresent(o, s) && HandlesBelow(s, next)
    ensures NullHandle !in o
  {
  }

  /** A buffer held in a slot outside `slots` survives a step that took away only handles of `slots`. */
  lemma {:induction false} HeldBufferKept(o: Owners, b: AllocatedBuffer, i: nat, slot: Slot, gone: set<Handle>, slots: set<Slot>,
                                          s0: State, s1: State)
    requires OwnsBuffer(o, b, InWorkspace(i, slot, false)) && slot !in slots && GoneFrom(o, gone, i, slots)
    requires LiveBuffer(b, s0) && Stable(s0, s1, gone)
    ensures LiveBuffer(b, s1) && Kept(s0, s1, b.handle)
  {
    assert b.handle !in gone && b.allocation.handle !in gone;
    LiveBufferStable(b, s0, s1, gone);
  }

  /** The camera and world pairs and sets survive a step that took away nothing of theirs. */
  lemma {:induction false} FixedPartKept(w: Workspace, o: Owners, i: nat, s0: State, s1: State, gone: set<Handle>,
                                         slots: set<Slot>, dp: Handle, worldBytes: nat)
    requires WorkspaceBuffers(w, s0, dp, worldBytes) && WorkspaceOwned(o, w, i) && Stable(s0, s1, gone)
    requires GoneFrom(o, gone, i, slots) && NullHandle !in o
    requires slots !! {CameraSrcSlot, CameraSlot, CameraSetSlot, WorldSrcSlot, WorldSlot, WorldSetSlot}
    ensures FixedPair(w.cameraSrc, w.camera, CameraBytes, UniformUsage, s1)
    ensures FixedPair(w.worldSrc, w.world, worldBytes, UniformUsage, s1)
    ensures SetHolds(s1, w.cameraDescriptors, dp, UniformBuffer, BufferRange(w.camera.handle, 0, w.camera.size))
    ensures SetHolds(s1, w.worldDescriptors, dp, UniformBuffer, BufferRange(w.world.handle, 0, w.world.size))
  {
    HeldBufferKept(o, w.cameraSrc, i, CameraSrcSlot, gone, slots, s0, s1);
    HeldBufferKept(o, w.camera, i, CameraSlot, gone, slots, s0, s1);
    HeldBufferKept(o, w.worldSrc, i, WorldSrcSlot, gone, slots, s0, s1);
    HeldBufferKept(o, w.world, i, WorldSlot, gone, slots, s0, s1);
    assert w.cameraDescriptors !in gone && w.worldDescriptors !in gone;
    assert Kept(s0, s1, w.cameraDescriptors) && Kept(s0, s1, w.worldDescriptors);
  }

  /** The lines pair survives a step that took away nothing of it. */
  lemma {:induction false} LinesPartKept(w: Workspace, o: Owners, i: nat, s0: State, s1: State, gone: set<Handle>,
                                         slots: set<Slot>, dp: Handle, worldBytes: nat)
    requires WorkspaceBuffers(w, s0, dp, worldBytes) && WorkspaceOwned(o, w, i) && Stable(s0, s1, gone)
    requires GoneFrom(o, gone, i, slots) && slots !! {LinesSrcSlot, LinesSlot}
    ensures StreamPair(w.linesVerticesSrc, w.linesVertices, LinesUsage, s1)
  {
    if w.linesVerticesSrc != NoBuffer {
      HeldBufferKept(o, w.linesVerticesSrc, i, LinesSrcSlot, gone, slots, s0, s1);
      HeldBufferKept(o, w.linesVertices, i, LinesSlot, gone, slots, s0, s1);
    }
  }

  /** The transforms pair and set survive a step that took away nothing of theirs. */
  lemma {:induction false} TransformsPartKept(w: Workspace, o: Owners, i: nat, s0: State, s1: State, gone: set<Handle>,
                                              slots: set<Slot>, dp: Handle, worldBytes: nat)
    requires WorkspaceBuffers(w, s0, dp, worldBytes) && WorkspaceOwned(o, w, i) && Stable(s0, s1, gone)
    requires GoneFrom(o, gone, i, slots) && NullHandle !in o && slots !! {TransformsSrcSlot, TransformsSlot, TransformsSetSlot}
    ensures StreamPair(w.transformsSrc, w.transforms, TransformsUsage, s1)
    ensures SetHolds(s1, w.transformDescriptors, dp, StorageBuffer, TransformsBinding(w))
  {
    if w.transformsSrc != NoBuffer {
      HeldBufferKept(o, w.transformsSrc, i, TransformsSrcSlot, gone, slots, s0, s1);
      HeldBufferKept(o, w.transforms, i, TransformsSlot, gone, slots, s0, s1);
    }
    assert w.transformDescriptors !in gone;
    assert Kept(s0, s1, w.transformDescriptors);
  }

  /** A step that took away nothing but the command buffer, and left it alive, keeps the workspace's buffers, sets and owned handles. */
  lemma {:induction false} WorkspaceKept(w: Workspace, o: Owners, i: nat, s0: State, s1: State, dp: Handle, worldBytes: nat)
    requires WorkspaceBuffers(w, s0, dp, worldBytes) && WorkspaceOwned(o, w, i) && OwnedPresent(o, s0) && NullHandle !in o
    requires Stable(s0, s1, {w.commandBuffer}) && w.commandBuffer in s1.commandBuffers
    ensures WorkspaceBuffers(w, s1, dp, worldBytes) && OwnedPresent(o, s1)
  {
    var gone := {w.commandBuffer};
    var slots := {CommandBufferSlot};
    assert GoneFrom(o, gone, i, slots);
    FixedPartKept(w, o, i, s0, s1, gone, slots, dp, worldBytes);
    LinesPartKept(w, o, i, s0, s1, gone, slots, dp, worldBytes);
    TransformsPartKept(w, o, i, s0, s1, gone, slots, dp, worldBytes);
    OwnedPresentStable(o, s0, s1, gone);
  }

  /** A step that took away nothing but the command buffer, left it recording and kept the owned handles alive. */
  lemma {:induction false} InFrameKept(w: Workspace, o: Owners, i: nat, s0: State, s1: State, dp: Handle, worldBytes: nat)
    requires InFrame(w, o, i, s0, dp, worldBytes) && Stable(s0, s1, {w.commandBuffer})
    requires w.commandBuffer in s1.commandBuffers && s1.commandBuffers[w.commandBuffer].phase == Recording
    ensures InFrame(w, o, i, s1, dp, worldBytes)
  {
    WorkspaceKept(w, o, i, s0, s1, dp, worldBytes);
  }

  /** A step that changed only a handle already counted as changed adds nothing to what changed. */
  lemma {:induction false} StableAbsorb(s0: State, s1: State, s2: State, g: set<Handle>, h: Handle)
    requires Stable(s0, s1, g) && Stable(s1, s2, {h}) && h in g
    ensures Stable(s0, s2, g)
  {
    StableTrans(s0, s1, s2, g, {h});
    assert g + {h} == g;
  }

  // ---------------------------------------------------------------- reallocating a streamed pair

  /** Memory for staging and for device-local buffers exists, so creating either kind of buffer succeeds. */
  ghost predicate BuffersCreatable(helpers: Helpers)
    reads helpers, helpers.gpu
  {
    && helpers.Valid() && helpers.MemoryProperties == helpers.gpu.memoryTypes
    && FirstMemoryType(helpers.gpu.memoryTypes, helpers.gpu.bufferMemoryTypeBits, StagingProperties).Some?
    && FirstMemoryType(helpers.gpu.memoryTypes, helpers.gpu.bufferMemoryTypeBits, MEMORY_PROPERTY_DEVICE_LOCAL).Some?
  }

  /** The four handles of a new pair: none was alive in `s`, and no two are equal. */
  ghost predicate NewPair(s: State, src: AllocatedBuffer, dst: AllocatedBuffer)
  {
    && !Present(s, src.handle) && !Present(s, src.allocation.handle) && !Present(s, dst.handle) && !Present(s, dst.allocation.handle)
    && Apart(src, dst)
  }

  /** A new pair's handles are owned by no field that holds a live handle. */
  lemma {:induction false} NewPairFresh(o: Owners, s: State, src: AllocatedBuffer, dst: AllocatedBuffer)
    requires OwnedPresent(o, s) && NewPair(s, src, dst)
    ensures FreshPair(o, src, dst)
  {
  }

  /** Destroys each buffer of a streamed pair that exists; nothing else changes. */
  method DestroyPair(helpers: Helpers, src: AllocatedBuffer, dst: AllocatedBuffer, dstUsage: Flags)
    requires BuffersCreatable(helpers) && StreamPair(src, dst, dstUsage, helpers.gpu.st)
    requires src != NoBuffer ==> Apart(src, dst)
    modifies helpers.gpu
    ensures BuffersCreatable(helpers)
    ensures Stable(old(helpers.gpu.st), helpers.gpu.st, PairHandles(src, dst))
    ensures DataStable(old(helpers.gpu.st), helpers.gpu.st, PairHandles(src, dst))
    ensures Shrunk(old(helpers.gpu.st), helpers.gpu.st)
    ensures helpers.gpu.st.commandBuffers == old(helpers.gpu.st).commandBuffers
  {
    var gpu := helpers.gpu;
    ghost var s0 := gpu.st;
    var gone := PairHandles(src, dst);
    var old1 := src;
    if src.handle != NullHandle {
      old1 := helpers.DestroyBuffer(src);
      LiveBufferStable(dst, s0, gpu.st, {src.handle, src.allocation.handle});
    }
    ghost var s1 := gpu.st;
    assert DataStable(s0, s1, gone) by {
      forall h | h !in gone
        ensures DataKept(s0, s1, h)
      {
      }
    }
    var old2 := dst;
    if dst.handle != NullHandle {
      old2 := helpers.DestroyBuffer(dst);
    }
    assert DataStable(s1, gpu.st, gone) by {
      forall h | h !in gone
        ensures DataKept(s1, gpu.st, h)
      {
      }
    }
    StableTrans(s0, s1, gpu.st, gone, gone);
    DataStableTrans(s0, s1, gpu.st, gone, gone);
  }

  /**
   * Creates a mapped, host-coherent staging buffer usable as a transfer source and a
   * device-local buffer with `dstUsage`, both of `bytes` bytes; nothing else changes.
   */
  method CreatePair(helpers: Helpers, bytes: nat, dstUsage: Flags) returns (src: AllocatedBuffer, dst: AllocatedBuffer)
    requires BuffersCreatable(helpers) && 0 < bytes
    modifies helpers.gpu
    ensures BuffersCreatable(helpers)
    ensures StreamPair(src, dst, dstUsage, helpers.gpu.st) && src != NoBuffer && src.size == bytes
    ensures NewPair(old(helpers.gpu.st), src, dst)
    ensures Stable(old(helpers.gpu.st), helpers.gpu.st, {}) && DataStable(old(helpers.gpu.st), helpers.gpu.st, {})
    ensures helpers.gpu.st.commandBuffers == old(helpers.gpu.st).commandBuffers
  {
    var gpu := helpers.gpu;
    ghost var s0 := gpu.st;
    var r1 := helpers.CreateBuffer(bytes, BUFFER_USAGE_TRANSFER_SRC, StagingProperties, Mapped);
    src := r1.value;
    ghost var s1 := gpu.st;
    var r2 := helpers.CreateBuffer(bytes, dstUsage, MEMORY_PROPERTY_DEVICE_LOCAL, Unmapped);
    dst := r2.value;
    assert DataStable(s0, gpu.st, {}) by {
      forall h | h !in {}
        ensures DataKept(s0, gpu.st, h)
      {
        assert DataKept(s0, s1, h);
      }
    }
    StableTrans(s0, s1, gpu.st, {}, {});
    LiveBufferStable(src, s1, gpu.st, {});
    assert Kept(s1, gpu.st, src.handle);
  }

  /** After a pair was destroyed and a new one created, the owners with the new pair in the old one's slots hold only live handles. */
  lemma {:induction false} PairRehomedPresent(o: Owners, src: AllocatedBuffer, dst: AllocatedBuffer, src1: AllocatedBuffer,
                                              dst1: AllocatedBuffer, i: nat, srcSlot: Slot, dstSlot: Slot, s0: State, s1: State, s2: State)
    requires OwnedPresent(o, s0) && NullHandle !in o && srcSlot != dstSlot
    requires (src == NoBuffer && dst == NoBuffer) || (src.handle != NullHandle && dst.handle != NullHandle)
    requires OwnsBuffer(o, src, InWorkspace(i, srcSlot, false)) && OwnsBuffer(o, dst, InWorkspace(i, dstSlot, false))
    requires Stable(s0, s1, PairHandles(src, dst)) && Stable(s1, s2, {}) && NewPair(s1, src1, dst1)
    requires LiveBuffer(src1, s2) && LiveBuffer(dst1, s2)
    ensures var o1 := PairRehomed(o, src, dst, src1, dst1, i, srcSlot, dstSlot);
      && OwnedPresent(o1, s2) && AgreeOutside(o, o1, i)
      && OwnsBuffer(o1, src1, InWorkspace(i, srcSlot, false)) && OwnsBuffer(o1, dst1, InWorkspace(i, dstSlot, false))
      && (forall h | h in o && o[h].InWorkspace? && o[h].slot != srcSlot && o[h].slot != dstSlot :: h in o1 && o1[h] == o[h])
  {
    var gone := PairHandles(src, dst);
    var kept := o - gone;
    OwnedPresentStable(kept, s0, s1, gone);
    NewPairFresh(kept, s1, src1, dst1);
    PairRehomedOwners(o, src, dst, src1, dst1, i, srcSlot, dstSlot);
    StableTrans(s0, s1, s2, gone, {});
    RehomedPresent(o, PairRehomed(o, src, dst, src1, dst1, i, srcSlot, dstSlot), s0, s2, gone, PairHandles(src1, dst1));
  }

  /**
   * The reallocation of a streamed pair: each old buffer that exists is destroyed, then a
   * mapped, host-coherent staging buffer and a device-local buffer with `dstUsage`, both of
   * NewBytes(needed) bytes, take the pair's slots.  Nothing else changes, bytes included.
   */
  method GrowPair(helpers: Helpers, src: AllocatedBuffer, dst: AllocatedBuffer, needed: nat, dstUsage: Flags,
                  ghost o: Owners, ghost i: nat, ghost srcSlot: Slot, ghost dstSlot: Slot)
    returns (src1: AllocatedBuffer, dst1: AllocatedBuffer)
    requires BuffersCreatable(helpers) && StreamPair(src, dst, dstUsage, helpers.gpu.st)
    requires OwnedPresent(o, helpers.gpu.st) && srcSlot != dstSlot
    requires OwnsBuffer(o, src, InWorkspace(i, srcSlot, false)) && OwnsBuffer(o, dst, InWorkspace(i, dstSlot, false))
    modifies helpers.gpu
    ensures BuffersCreatable(helpers)
    ensures StreamPair(src1, dst1, dstUsage, helpers.gpu.st) && src1 != NoBuffer && src1.size == NewBytes(needed)
    ensures Stable(old(helpers.gpu.st), helpers.gpu.st, PairHandles(src, dst))
    ensures DataStable(old(helpers.gpu.st), helpers.gpu.st, PairHandles(src, dst))
    ensures var o1 := PairRehomed(o, src, dst, src1, dst1, i, srcSlot, dstSlot);
      && OwnedPresent(o1, helpers.gpu.st) && AgreeOutside(o, o1, i)
      && OwnsBuffer(o1, src1, InWorkspace(i, srcSlot, false)) && OwnsBuffer(o1, dst1, InWorkspace(i, dstSlot, false))
      && (forall h | h in o && o[h].InWorkspace? && o[h].slot != srcSlot && o[h].slot != dstSlot :: h in o1 && o1[h] == o[h])
    ensures helpers.gpu.st.commandBuffers == old(helpers.gpu.st).commandBuffers
  {
    ghost var s0 := helpers.gpu.st;
    NullNotOwned(o, s0, helpers.gpu.next);
    var gone := PairHandles(src, dst);
    assert src != NoBuffer ==> Apart(src, dst);
    DestroyPair(helpers, src, dst, dstUsage);
    ghost var s1 := helpers.gpu.st;
    src1, dst1 := CreatePair(helpers, NewBytes(needed), dstUsage);
    StableTrans(s0, s1, helpers.gpu.st, gone, {});
    DataStableTrans(s0, s1, helpers.gpu.st, gone, {});
    PairRehomedPresent(o, src, dst, src1, dst1, i, srcSlot, dstSlot, s0, s1, helpers.gpu.st);
  }


  // ---------------------------------------------------------------- the uploads

  /** The command buffers after `a` and then `b` were appended to the recording of `c`. */
  ghost function Appended(m: map<Handle, CommandBuffer>, c: Handle, cmds: seq<Cmd>): map<Handle, CommandBuffer>
    requires c in m
  {
    m[c := m[c].(cmds := m[c].cmds + cmds)]
  }

  /** Appending `a` and then `b` to a recording appends `a + b`. */
  lemma {:induction false} AppendedTwice(m: map<Handle, CommandBuffer>, c: Handle, a: seq<Cmd>, b: seq<Cmd>)
    requires c in m
    ensures Appended(Appended(m, c, a), c, b) == Appended(m, c, a + b)
  {
    assert m[c].cmds + a + b == m[c].cmds + (a + b);
  }

  lemma {:induction false} AppendedTwo(m: map<Handle, CommandBuffer>, c: Handle, x: Cmd, y: Cmd)
    requires c in m
    ensures Appended(Appended(m, c, [x]), c, [y]) == Appended(m, c, [x, y])
  {
    AppendedTwice(m, c, [x], [y]);
    assert [x] + [y] == [x, y];
  }

  /** Records one command into `c`; creating buffers stays possible. */
  method RecordCmd(helpers: Helpers, c: Handle, cmd: Cmd)
    requires BuffersCreatable(helpers) && c in helpers.gpu.st.commandBuffers && helpers.gpu.st.commandBuffers[c].phase == Recording
    modifies helpers.gpu
    ensures BuffersCreatable(helpers) && helpers.gpu.st == Recorded(old(helpers.gpu.st), c, [cmd])
    ensures Stable(old(helpers.gpu.st), helpers.gpu.st, {c})
  {
    helpers.gpu.Record(c, cmd);
  }

  /**
   * The host copies `bytes` to the front of the mapped staging buffer `src`, then a copy of
   * `size` bytes from `src` to `dst` is recorded: only `src`'s bytes and the recording change.
   */
  method WriteAndCopy(helpers: Helpers, c: Handle, src: AllocatedBuffer, dst: AllocatedBuffer, bytes: seq<Byte>, size: nat)
    requires BuffersCreatable(helpers) && c in helpers.gpu.st.commandBuffers && helpers.gpu.st.commandBuffers[c].phase == Recording
    requires LiveBuffer(src, helpers.gpu.st) && src.allocation.mapped != NullPtr && |bytes| <= src.size
    modifies helpers.gpu
    ensures BuffersCreatable(helpers) && Holds(helpers.gpu.st, src.handle, bytes)
    ensures helpers.gpu.st.commandBuffers
         == Appended(old(helpers.gpu.st).commandBuffers, c, [CopyBuffer(src.handle, dst.handle, 0, 0, size)])
    ensures Stable(old(helpers.gpu.st), helpers.gpu.st, {c}) && DataStable(old(helpers.gpu.st), helpers.gpu.st, {src.handle})
  {
    var gpu := helpers.gpu;
    ghost var s0 := gpu.st;
    gpu.HostWrite(src.handle, 0, bytes);
    ghost var s1 := gpu.st;
    gpu.Record(c, CopyBuffer(src.handle, dst.handle, 0, 0, size));
    assert s1.buffers[src.handle].data[..|bytes|] == bytes;
    StableTrans(s0, s1, gpu.st, {}, {c});
    assert DataStable(s0, gpu.st, {src.handle}) by {
      forall h | h !in {src.handle}
        ensures DataKept(s0, gpu.st, h)
      {
      }
    }
  }

  /** Roles kept by the owners outside the lines slots, plus a new lines pair in those slots, make the workspace owned again. */
  lemma {:induction false} LinesOwnedMoved(o: Owners, o1: Owners, w: Workspace, i: nat, src1: AllocatedBuffer, dst1: AllocatedBuffer)
    requires WorkspaceOwned(o, w, i)
    requires forall h | h in o && o[h].InWorkspace? && o[h].slot != LinesSrcSlot && o[h].slot != LinesSlot :: h in o1 && o1[h] == o[h]
    requires OwnsBuffer(o1, src1, InWorkspace(i, LinesSrcSlot, false)) && OwnsBuffer(o1, dst1, InWorkspace(i, LinesSlot, false))
    ensures WorkspaceOwned(o1, w.(linesVerticesSrc := src1, linesVertices := dst1), i)
  {
  }

  /** The buffers and sets of the workspace, once a step replaced only its lines pair by a new one. */
  lemma {:induction false} LinesBuffersMoved(w: Workspace, o: Owners, i: nat, s0: State, s1: State,
                                             src1: AllocatedBuffer, dst1: AllocatedBuffer, dp: Handle, worldBytes: nat)
    requires WorkspaceBuffers(w, s0, dp, worldBytes) && WorkspaceOwned(o, w, i) && NullHandle !in o
    requires Stable(s0, s1, PairHandles(w.linesVerticesSrc, w.linesVertices)) && StreamPair(src1, dst1, LinesUsage, s1)
    ensures WorkspaceBuffers(w.(linesVerticesSrc := src1, linesVertices := dst1), s1, dp, worldBytes)
    ensures w.commandBuffer !in PairHandles(w.linesVerticesSrc, w.linesVertices)
  {
    var gone := PairHandles(w.linesVerticesSrc, w.linesVertices);
    var slots := {LinesSrcSlot, LinesSlot};
    assert GoneFrom(o, gone, i, slots);
    FixedPartKept(w, o, i, s0, s1, gone, slots, dp, worldBytes);
    TransformsPartKept(w, o, i, s0, s1, gone, slots, dp, worldBytes);
  }

  /** Workspace `w` with its lines pair replaced by a new one, under the owners that give the new pair the lines slots. */
  lemma {:induction false} LinesRehomed(w: Workspace, o: Owners, o1: Owners, i: nat, s0: State, s1: State,
                                        src1: AllocatedBuffer, dst1: AllocatedBuffer, dp: Handle, worldBytes: nat)
    requires InFrame(w, o, i, s0, dp, worldBytes) && Stable(s0, s1, PairHandles(w.linesVerticesSrc, w.linesVertices))
    requires StreamPair(src1, dst1, LinesUsage, s1) && OwnedPresent(o1, s1) && NullHandle !in o1
    requires OwnsBuffer(o1, src1, InWorkspace(i, LinesSrcSlot, false)) && OwnsBuffer(o1, dst1, InWorkspace(i, LinesSlot, false))
    requires forall h | h in o && o[h].InWorkspace? && o[h].slot != LinesSrcSlot && o[h].slot != LinesSlot :: h in o1 && o1[h] == o[h]
    ensures InFrame(w.(linesVerticesSrc := src1, linesVertices := dst1), o1, i, s1, dp, worldBytes)
  {
    LinesBuffersMoved(w, o, i, s0, s1, src1, dst1, dp, worldBytes);
    LinesOwnedMoved(o, o1, w, i, src1, dst1);
    assert Kept(s0, s1, w.commandBuffer);
  }

  /** Reallocates the lines pair of workspace `i` for `needed` bytes; the new pair takes the old one's slots. */
  method GrowLines(helpers: Helpers, w: Workspace, needed: nat, ghost o: Owners, ghost i: nat, ghost dp: Handle, ghost worldBytes: nat)
    returns (w1: Workspace, ghost o1: Owners)
    requires BuffersCreatable(helpers) && InFrame(w, o, i, helpers.gpu.st, dp, worldBytes)
    modifies helpers.gpu
    ensures BuffersCreatable(helpers) && InFrame(w1, o1, i, helpers.gpu.st, dp, worldBytes)
    ensures w1 == w.(linesVerticesSrc := w1.linesVerticesSrc, linesVertices := w1.linesVertices)
    ensures w1.linesVerticesSrc != NoBuffer && w1.linesVerticesSrc.size == NewBytes(needed)
    ensures Stable(old(helpers.gpu.st), helpers.gpu.st, PairHandles(w.linesVerticesSrc, w.linesVertices))
    ensures DataStable(old(helpers.gpu.st), helpers.gpu.st, PairHandles(w.linesVerticesSrc, w.linesVertices))
    ensures AgreeOutside(o, o1, i)
    ensures helpers.gpu.st.commandBuffers == old(helpers.gpu.st).commandBuffers
  {
    ghost var s0 := helpers.gpu.st;
    var src1, dst1 := GrowPair(helpers, w.linesVerticesSrc, w.linesVertices, needed, LinesUsage, o, i, LinesSrcSlot, LinesSlot);
    w1 := w.(linesVerticesSrc := src1, linesVertices := dst1);
    o1 := PairRehomed(o, w.linesVerticesSrc, w.linesVertices, src1, dst1, i, LinesSrcSlot, LinesSlot);
    NullNotOwned(o1, helpers.gpu.st, helpers.gpu.next);
    LinesRehomed(w, o, o1, i, s0, helpers.gpu.st, src1, dst1, dp, worldBytes);
  }

  /**
   * Stages `bytes` for the lines pair: the pair is reallocated when missing or smaller than
   * `bytes`, the host writes them to the staging buffer and a copy of exactly that many bytes
   * into the device-side buffer is recorded.
   */
  method StageLines(helpers: Helpers, w: Workspace, bytes: seq<Byte>, ghost o: Owners, ghost i: nat,
                    ghost dp: Handle, ghost worldBytes: nat)
    returns (w1: Workspace, ghost o1: Owners)
    requires BuffersCreatable(helpers) && InFrame(w, o, i, helpers.gpu.st, dp, worldBytes)
    modifies helpers.gpu
    ensures BuffersCreatable(helpers) && InFrame(w1, o1, i, helpers.gpu.st, dp, worldBytes)
    ensures w1 == w.(linesVerticesSrc := w1.linesVerticesSrc, linesVertices := w1.linesVertices)
    ensures NeedsGrow(w.linesVerticesSrc, |bytes|) ==> w1.linesVerticesSrc.size == NewBytes(|bytes|)
    ensures !NeedsGrow(w.linesVerticesSrc, |bytes|) ==> w1 == w && o1 == o
    ensures Holds(helpers.gpu.st, w1.linesVerticesSrc.handle, bytes)
    ensures helpers.gpu.st.commandBuffers
         == Appended(old(helpers.gpu.st).commandBuffers, w.commandBuffer, [CopyBuffer(w1.linesVerticesSrc.handle, w1.linesVertices.handle, 0, 0, |bytes|)])
    ensures Stable(old(helpers.gpu.st), helpers.gpu.st, {w.commandBuffer} + PairHandles(w.linesVerticesSrc, w.linesVertices))
    ensures DataStable(old(helpers.gpu.st), helpers.gpu.st, {w1.linesVerticesSrc.handle} + PairHandles(w.linesVerticesSrc, w.linesVertices))
    ensures AgreeOutside(o, o1, i)
  {
    ghost var s0 := helpers.gpu.st;
    var c := w.commandBuffer;
    ghost var gone := PairHandles(w.linesVerticesSrc, w.linesVertices);
    var needed := |bytes|;
    w1, o1 := w, o;
    if NeedsGrow(w.linesVerticesSrc, needed) {
      w1, o1 := GrowLines(helpers, w, needed, o, i, dp, worldBytes);
      GrowSettles(w1.linesVerticesSrc, needed);
    } else {
      assert Stable(s0, helpers.gpu.st, gone) && DataStable(s0, helpers.gpu.st, gone);
    }
    ghost var s1 := helpers.gpu.st;
    assert w1.linesVerticesSrc.size == w1.linesVertices.size;
    assert w1.linesVerticesSrc.size >= needed;
    assert w1.linesVerticesSrc.allocation.mapped != NullPtr;
    WriteAndCopy(helpers, c, w1.linesVerticesSrc, w1.linesVertices, bytes, needed);
    InFrameKept(w1, o1, i, s1, helpers.gpu.st, dp, worldBytes);
    StableTrans(s0, s1, helpers.gpu.st, gone, {c});
    DataStableTrans(s0, s1, helpers.gpu.st, gone, {w1.linesVerticesSrc.handle});
  }

  /**
   * The lines upload (Tutorial.cpp:731-792): when there are line vertices, their 16 bytes each
   * are staged as above; without line vertices nothing happens.
   */
  method UploadLines(helpers: Helpers, w: Workspace, lines: seq<PosColVertex>, ghost o: Owners, ghost i: nat,
                     ghost dp: Handle, ghost worldBytes: nat)
    returns (w1: Workspace, ghost o1: Owners)
    requires BuffersCreatable(helpers) && InFrame(w, o, i, helpers.gpu.st, dp, worldBytes)
    modifies helpers.gpu
    ensures BuffersCreatable(helpers) && InFrame(w1, o1, i, helpers.gpu.st, dp, worldBytes)
    ensures w1 == w.(linesVerticesSrc := w1.linesVerticesSrc, linesVertices := w1.linesVertices)
    ensures lines != [] && NeedsGrow(w.linesVerticesSrc, |LinesBytes(lines)|) ==> w1.linesVerticesSrc.size == NewBytes(|LinesBytes(lines)|)
    ensures !(lines != [] && NeedsGrow(w.linesVerticesSrc, |LinesBytes(lines)|)) ==> w1 == w && o1 == o
    ensures lines != [] ==> Holds(helpers.gpu.st, w1.linesVerticesSrc.handle, LinesBytes(lines))
    ensures helpers.gpu.st.commandBuffers
         == Appended(old(helpers.gpu.st).commandBuffers, w.commandBuffer, (if lines != [] then [CopyBuffer(w1.linesVerticesSrc.handle, w1.linesVertices.handle, 0, 0, |LinesBytes(lines)|)] else []))
    ensures Stable(old(helpers.gpu.st), helpers.gpu.st, {w.commandBuffer} + PairHandles(w.linesVerticesSrc, w.linesVertices))
    ensures DataStable(old(helpers.gpu.st), helpers.gpu.st, {w1.linesVerticesSrc.handle} + PairHandles(w.linesVerticesSrc, w.linesVertices))
    ensures AgreeOutside(o, o1, i)
  {
    if lines != [] {
      w1, o1 := StageLines(helpers, w, LinesBytes(lines), o, i, dp, worldBytes);
    } else {
      w1, o1 := w, o;
      ghost var s := helpers.gpu.st;
      assert s.commandBuffers[w.commandBuffer].(cmds := s.commandBuffers[w.commandBuffer].cmds + []) == s.commandBuffers[w.commandBuffer];
      assert DataStable(s, s, {});
    }
  }

  /** A fixed-size upload: `bytes` written to the staging buffer `src`, then a copy of all of `src` into `dst` recorded. */
  method UploadWhole(helpers: Helpers, w: Workspace, src: AllocatedBuffer, dst: AllocatedBuffer, bytes: seq<Byte>,
                     ghost o: Owners, ghost i: nat, ghost dp: Handle, ghost worldBytes: nat)
    requires BuffersCreatable(helpers) && InFrame(w, o, i, helpers.gpu.st, dp, worldBytes)
    requires LiveBuffer(src, helpers.gpu.st) && src.allocation.mapped != NullPtr && |bytes| <= src.size
    modifies helpers.gpu
    ensures BuffersCreatable(helpers) && InFrame(w, o, i, helpers.gpu.st, dp, worldBytes)
    ensures Holds(helpers.gpu.st, src.handle, bytes)
    ensures helpers.gpu.st.commandBuffers
         == Appended(old(helpers.gpu.st).commandBuffers, w.commandBuffer, [CopyBuffer(src.handle, dst.handle, 0, 0, src.size)])
    ensures Stable(old(helpers.gpu.st), helpers.gpu.st, {w.commandBuffer})
    ensures DataStable(old(helpers.gpu.st), helpers.gpu.st, {src.handle})
  {
    ghost var s0 := helpers.gpu.st;
    WriteAndCopy(helpers, w.commandBuffer, src, dst, bytes, src.size);
    InFrameKept(w, o, i, s0, helpers.gpu.st, dp, worldBytes);
  }

  /** What the camera upload followed by the world upload did, seen from the state before both. */
  lemma {:induction false} FixedUploaded(w: Workspace, o: Owners, i: nat, s0: State, s1: State, s2: State,
                                         camera: seq<Byte>, world: seq<Byte>)
    requires OwnsBuffer(o, w.cameraSrc, InWorkspace(i, CameraSrcSlot, false)) && OwnsBuffer(o, w.worldSrc, InWorkspace(i, WorldSrcSlot, false))
    requires w.cameraSrc.handle != NullHandle && w.worldSrc.handle != NullHandle
    requires w.commandBuffer in s0.commandBuffers && Holds(s1, w.cameraSrc.handle, camera) && Holds(s2, w.worldSrc.handle, world)
    requires s1.commandBuffers == Appended(s0.commandBuffers, w.commandBuffer, [CopyBuffer(w.cameraSrc.handle, w.camera.handle, 0, 0, w.cameraSrc.size)])
    requires s2.commandBuffers == Appended(s1.commandBuffers, w.commandBuffer, [CopyBuffer(w.worldSrc.handle, w.world.handle, 0, 0, w.worldSrc.size)])
    requires Stable(s0, s1, {w.commandBuffer}) && Stable(s1, s2, {w.commandBuffer})
    requires DataStable(s0, s1, {w.cameraSrc.handle}) && DataStable(s1, s2, {w.worldSrc.handle})
    ensures Holds(s2, w.cameraSrc.handle, camera) && Holds(s2, w.worldSrc.handle, world)
    ensures s2.commandBuffers
         == Appended(s0.commandBuffers, w.commandBuffer,
                     [CopyBuffer(w.cameraSrc.handle, w.camera.handle, 0, 0, w.cameraSrc.size),
                      CopyBuffer(w.worldSrc.handle, w.world.handle, 0, 0, w.worldSrc.size)])
    ensures Stable(s0, s2, {w.commandBuffer}) && DataStable(s0, s2, {w.cameraSrc.handle, w.worldSrc.handle})
  {
    var c := w.commandBuffer;
    AppendedTwo(s0.commandBuffers, c, CopyBuffer(w.cameraSrc.handle, w.camera.handle, 0, 0, w.cameraSrc.size),
                CopyBuffer(w.worldSrc.handle, w.world.handle, 0, 0, w.worldSrc.size));
    assert w.cameraSrc.handle != w.worldSrc.handle by {
      assert o[w.cameraSrc.handle] != o[w.worldSrc.handle];
    }
    HoldsKept(s1, s2, w.cameraSrc.handle, camera, {w.worldSrc.handle});
    StableTrans(s0, s1, s2, {c}, {c});
    DataStableTrans(s0, s1, s2, {w.cameraSrc.handle}, {w.worldSrc.handle});
  }

  /** The camera and world uploads (Tutorial.cpp:794-824): each record is written to its staging buffer and a whole-buffer copy recorded. */
  method UploadFixed(helpers: Helpers, w: Workspace, camera: seq<Byte>, world: seq<Byte>, ghost o: Owners, ghost i: nat,
                     ghost dp: Handle, ghost worldBytes: nat)
    requires BuffersCreatable(helpers) && InFrame(w, o, i, helpers.gpu.st, dp, worldBytes)
    requires |camera| == CameraBytes && |world| == worldBytes
    requires CameraBytes == worldBytes
    modifies helpers.gpu
    ensures BuffersCreatable(helpers) && InFrame(w, o, i, helpers.gpu.st, dp, worldBytes)
    ensures Holds(helpers.gpu.st, w.cameraSrc.handle, camera) && Holds(helpers.gpu.st, w.worldSrc.handle, world)
    ensures helpers.gpu.st.commandBuffers
         == Appended(old(helpers.gpu.st).commandBuffers, w.commandBuffer,
                     [CopyBuffer(w.cameraSrc.handle, w.camera.handle, 0, 0, w.cameraSrc.size),
                      CopyBuffer(w.worldSrc.handle, w.world.handle, 0, 0, w.worldSrc.size)])
    ensures Stable(old(helpers.gpu.st), helpers.gpu.st, {w.commandBuffer})
    ensures DataStable(old(helpers.gpu.st), helpers.gpu.st, {w.cameraSrc.handle, w.worldSrc.handle})
  {
    ghost var s0 := helpers.gpu.st;
    assert w.cameraSrc.size == |camera|;
    assert w.cameraSrc.size == w.camera.size;
    UploadWhole(helpers, w, w.cameraSrc, w.camera, camera, o, i, dp, worldBytes);
    ghost var s1 := helpers.gpu.st;
    assert w.cameraSrc.size == |world|;
    assert w.worldSrc.size == w.world.size;
    UploadWhole(helpers, w, w.worldSrc, w.world, world, o, i, dp, worldBytes);
    FixedUploaded(w, o, i, s0, s1, helpers.gpu.st, camera, world);
  }

  /** Writing `rec` right after a prefix the buffer already holds makes it hold the prefix followed by `rec`. */
  lemma {:induction false} SpliceExtends(d: seq<Byte>, prefix: seq<Byte>, rec: seq<Byte>)
    requires |prefix| + |rec| <= |d| && d[..|prefix|] == prefix
    ensures Splice(d, |prefix|, rec)[..|prefix| + |rec|] == prefix + rec
  {
    var r := Splice(d, |prefix|, rec);
    assert r[..|prefix|] == prefix;
    assert r[..|prefix| + |rec|] == r[..|prefix|] + r[|prefix|..|prefix| + |rec|];
  }

  /** Between `s0` and `s1` the host only wrote bytes into buffer `b`: nothing else of the device moved but the call log. */
  ghost predicate OnlyWritten(s0: State, s1: State, b: Handle)
  {
    && b in s0.buffers && b in s1.buffers && s0.calls <= s1.calls
    && s1 == s0.(buffers := s0.buffers[b := s0.buffers[b].(data := s1.buffers[b].data)], calls := s1.calls)
  }

  lemma {:induction false} OnlyWrittenStable(s0: State, s1: State, b: Handle)
    requires OnlyWritten(s0, s1, b)
    ensures Stable(s0, s1, {}) && DataStable(s0, s1, {b})
  {
    forall h
      ensures Kept(s0, s1, h)
    {
    }
    forall h | h !in {b}
      ensures DataKept(s0, s1, h)
    {
    }
  }

  /** One more transform record written: the staging buffer holds the first `k + 1` records. */
  lemma {:induction false} TransformStep(insts: seq<ObjectInstance>, k: nat, src: AllocatedBuffer, s0: State, s1: State, s2: State)
    requires OnlyWritten(s0, s1, src.handle)
    requires WellFormedInstances(insts) && k < |insts| && TransformBytes * (k + 1) <= |s1.buffers[src.handle].data|
    requires Holds(s1, src.handle, TransformsBytes(insts, k))
    requires s2 == s1.(buffers := s1.buffers[src.handle := s1.buffers[src.handle].(data :=
                 Splice(s1.buffers[src.handle].data, TransformBytes * k, TransformRecord(insts[k].transform)))],
                       calls := s2.calls)
    requires s1.calls <= s2.calls
    ensures OnlyWritten(s0, s2, src.handle) && Holds(s2, src.handle, TransformsBytes(insts, k + 1))
  {
    var prefix := TransformsBytes(insts, k);
    var rec := TransformRecord(insts[k].transform);
    SpliceExtends(s1.buffers[src.handle].data, prefix, rec);
    assert TransformsBytes(insts, k + 1) == prefix + rec;
  }

  /**
   * The host copies each instance's transform, in order, to consecutive 192-byte records
   * at the start of the staging buffer `src` (Tutorial.cpp:891-900).
   */
  method WriteTransforms(helpers: Helpers, src: AllocatedBuffer, insts: seq<ObjectInstance>)
    requires BuffersCreatable(helpers) && LiveBuffer(src, helpers.gpu.st) && src.allocation.mapped != NullPtr
    requires WellFormedInstances(insts) && TransformBytes * |insts| <= src.size
    modifies helpers.gpu
    ensures BuffersCreatable(helpers) && LiveBuffer(src, helpers.gpu.st)
    ensures Holds(helpers.gpu.st, src.handle, TransformsBytes(insts, |insts|))
    ensures helpers.gpu.st.commandBuffers == old(helpers.gpu.st).commandBuffers
    ensures Stable(old(helpers.gpu.st), helpers.gpu.st, {}) && DataStable(old(helpers.gpu.st), helpers.gpu.st, {src.handle})
  {
    var gpu := helpers.gpu;
    var k := 0;
    while k < |insts|
      invariant k <= |insts| && gpu.Valid()
      invariant OnlyWritten(old(gpu.st), gpu.st, src.handle) && Holds(gpu.st, src.handle, TransformsBytes(insts, k))
    {
      ghost var s1 := gpu.st;
      var rec := TransformRecord(insts[k].transform);
      gpu.HostWrite(src.handle, TransformBytes * k, rec);
      TransformStep(insts, k, src, old(gpu.st), s1, gpu.st);
      k := k + 1;
    }
    OnlyWrittenStable(old(gpu.st), gpu.st, src.handle);
    LiveBufferStable(src, old(gpu.st), gpu.st, {});
  }

  /** Roles kept by the owners outside the transforms slots, plus a new transforms pair in those slots, make the workspace owned again. */
  lemma {:induction false} TransformsOwnedMoved(o: Owners, o1: Owners, w: Workspace, i: nat, src1: AllocatedBuffer, dst1: AllocatedBuffer)
    requires WorkspaceOwned(o, w, i)
    requires forall h | h in o && o[h].InWorkspace? && o[h].slot != TransformsSrcSlot && o[h].slot != TransformsSlot :: h in o1 && o1[h] == o[h]
    requires OwnsBuffer(o1, src1, InWorkspace(i, TransformsSrcSlot, false)) && OwnsBuffer(o1, dst1, InWorkspace(i, TransformsSlot, false))
    ensures WorkspaceOwned(o1, w.(transformsSrc := src1, transforms := dst1), i)
  {
  }

  /** The buffers and sets of the workspace, once a step replaced its transforms pair and pointed the transforms set at the new one. */
  lemma {:induction false} TransformsBuffersMoved(w: Workspace, o: Owners, i: nat, s0: State, s1: State,
                                                  src1: AllocatedBuffer, dst1: AllocatedBuffer, dp: Handle, worldBytes: nat)
    requires WorkspaceBuffers(w, s0, dp, worldBytes) && WorkspaceOwned(o, w, i) && NullHandle !in o
    requires Stable(s0, s1, PairHandles(w.transformsSrc, w.transforms) + {w.transformDescriptors})
    requires StreamPair(src1, dst1, TransformsUsage, s1) && dst1 != NoBuffer
    requires SetHolds(s1, w.transformDescriptors, dp, StorageBuffer, BufferRange(dst1.handle, 0, dst1.size))
    ensures WorkspaceBuffers(w.(transformsSrc := src1, transforms := dst1), s1, dp, worldBytes)
    ensures w.commandBuffer !in PairHandles(w.transformsSrc, w.transforms) + {w.transformDescriptors}
  {
    var gone := PairHandles(w.transformsSrc, w.transforms) + {w.transformDescriptors};
    var slots := {TransformsSrcSlot, TransformsSlot, TransformsSetSlot};
    assert GoneFrom(o, gone, i, slots);
    FixedPartKept(w, o, i, s0, s1, gone, slots, dp, worldBytes);
    LinesPartKept(w, o, i, s0, s1, gone, slots, dp, worldBytes);
  }

  /** The transforms set is none of the transforms pair's handles. */
  lemma {:induction false} SetApartFromPair(o: Owners, w: Workspace, i: nat, s: State)
    requires WorkspaceOwned(o, w, i) && NullHandle !in o && StreamPair(w.transformsSrc, w.transforms, TransformsUsage, s)
    ensures w.transformDescriptors !in PairHandles(w.transformsSrc, w.transforms)
  {
    assert w.transformDescriptors in o;
  }

  /** Points descriptor set `d` at `binding`; creating buffers stays possible. */
  method WriteSet(helpers: Helpers, d: Handle, binding: DescriptorBinding)
    requires BuffersCreatable(helpers) && d in helpers.gpu.st.descriptorSets
    requires BindingValid(helpers.gpu.st, helpers.gpu.st.descriptorSets[d].descriptorType, binding)
    modifies helpers.gpu
    ensures BuffersCreatable(helpers) && HandlesBelow(helpers.gpu.st, helpers.gpu.next)
    ensures helpers.gpu.st == old(helpers.gpu.st).(
              descriptorSets := old(helpers.gpu.st).descriptorSets[d := old(helpers.gpu.st).descriptorSets[d].(binding := binding)],
              calls := old(helpers.gpu.st).calls + [VkWriteDescriptorSet(d, binding)])
  {
    helpers.gpu.WriteDescriptorSet(d, binding);
  }

  /** After the transforms pair was reallocated, the transforms set is still there and may point at the new device-side buffer. */
  lemma {:induction false} TransformsSetReady(w: Workspace, o: Owners, i: nat, s0: State, s1: State,
                                              dst1: AllocatedBuffer, dp: Handle, worldBytes: nat)
    requires InFrame(w, o, i, s0, dp, worldBytes) && Stable(s0, s1, PairHandles(w.transformsSrc, w.transforms))
    requires LiveBuffer(dst1, s1) && s1.buffers[dst1.handle].usage == TransformsUsage
    ensures w.transformDescriptors in s1.descriptorSets
    ensures s1.descriptorSets[w.transformDescriptors].descriptorType == StorageBuffer
    ensures s1.descriptorSets[w.transformDescriptors].pool == dp
    ensures BindingValid(s1, StorageBuffer, BufferRange(dst1.handle, 0, dst1.size))
  {
    SetApartFromPair(o, w, i, s0);
    assert Kept(s0, s1, w.transformDescriptors);
    assert HasFlags(TransformsUsage, BUFFER_USAGE_STORAGE_BUFFER);
  }

  /** Writing one descriptor set keeps every other object and every byte. */
  lemma {:induction false} SetWritten(s1: State, s2: State, d: Handle, b: DescriptorBinding)
    requires d in s1.descriptorSets
    requires s2 == s1.(descriptorSets := s1.descriptorSets[d := s1.descriptorSets[d].(binding := b)],
                       calls := s1.calls + [VkWriteDescriptorSet(d, b)])
    ensures Stable(s1, s2, {d}) && DataStable(s1, s2, {}) && s2.commandBuffers == s1.commandBuffers
    ensures SetHolds(s2, d, s1.descriptorSets[d].pool, s1.descriptorSets[d].descriptorType, b)
  {
    forall h | h !in {d}
      ensures Kept(s1, s2, h)
    {
    }
    forall h
      ensures DataKept(s1, s2, h)
    {
    }
  }

  /** Workspace `w` with its transforms pair replaced by a new one its set points at, under the owners that give the new pair the transforms slots. */
  lemma {:induction false} TransformsRehomed(w: Workspace, o: Owners, o1: Owners, i: nat, s0: State, s1: State,
                                             src1: AllocatedBuffer, dst1: AllocatedBuffer, dp: Handle, worldBytes: nat)
    requires InFrame(w, o, i, s0, dp, worldBytes) && Stable(s0, s1, PairHandles(w.transformsSrc, w.transforms) + {w.transformDescriptors})
    requires StreamPair(src1, dst1, TransformsUsage, s1) && dst1 != NoBuffer && OwnedPresent(o1, s1) && NullHandle !in o1
    requires SetHolds(s1, w.transformDescriptors, dp, StorageBuffer, BufferRange(dst1.handle, 0, dst1.size))
    requires OwnsBuffer(o1, src1, InWorkspace(i, TransformsSrcSlot, false)) && OwnsBuffer(o1, dst1, InWorkspace(i, TransformsSlot, false))
    requires forall h | h in o && o[h].InWorkspace? && o[h].slot != TransformsSrcSlot && o[h].slot != TransformsSlot :: h in o1 && o1[h] == o[h]
    ensures InFrame(w.(transformsSrc := src1, transforms := dst1), o1, i, s1, dp, worldBytes)
  {
    TransformsBuffersMoved(w, o, i, s0, s1, src1, dst1, dp, worldBytes);
    TransformsOwnedMoved(o, o1, w, i, src1, dst1);
    assert Kept(s0, s1, w.commandBuffer);
  }

  /** A reallocation of a pair (`g` gone) followed by a write of set `d`: what the two steps kept together. */
  lemma {:induction false} PairThenSet(o1: Owners, s0: State, s1: State, s2: State, g: set<Handle>, d: Handle,
                                       src1: AllocatedBuffer, dst1: AllocatedBuffer, u: Flags, next: nat)
    requires Stable(s0, s1, g) && DataStable(s0, s1, g) && Stable(s1, s2, {d}) && DataStable(s1, s2, {})
    requires OwnedPresent(o1, s1) && d in s2.descriptorSets && HandlesBelow(s2, next)
    requires StreamPair(src1, dst1, u, s1) && src1 != NoBuffer && d != src1.handle && d != src1.allocation.handle
    requires d != dst1.handle && d != dst1.allocation.handle
    ensures Stable(s0, s2, g + {d}) && DataStable(s0, s2, g)
    ensures OwnedPresent(o1, s2) && NullHandle !in o1 && StreamPair(src1, dst1, u, s2)
  {
    StableTrans(s0, s1, s2, g, {d});
    DataStableTrans(s0, s1, s2, g, {});
    OwnedPresentStable(o1, s1, s2, {d});
    NullNotOwned(o1, s2, next);
    StreamPairStable(src1, dst1, u, s1, s2, {d});
  }

  /**
   * Reallocates the transforms pair of workspace `i` for `needed` bytes and points the
   * transforms set at the whole new device-side buffer (Tutorial.cpp:831-883).
   */
  method GrowTransforms(helpers: Helpers, w: Workspace, needed: nat, ghost o: Owners, ghost i: nat, ghost dp: Handle, ghost worldBytes: nat)
    returns (w1: Workspace, ghost o1: Owners)
    requires BuffersCreatable(helpers) && InFrame(w, o, i, helpers.gpu.st, dp, worldBytes)
    modifies helpers.gpu
    ensures BuffersCreatable(helpers) && InFrame(w1, o1, i, helpers.gpu.st, dp, worldBytes)
    ensures w1 == w.(transformsSrc := w1.transformsSrc, transforms := w1.transforms)
    ensures w1.transformsSrc != NoBuffer && w1.transformsSrc.size == NewBytes(needed)
    ensures helpers.gpu.st.commandBuffers == old(helpers.gpu.st).commandBuffers
    ensures Stable(old(helpers.gpu.st), helpers.gpu.st, PairHandles(w.transformsSrc, w.transforms) + {w.transformDescriptors})
    ensures DataStable(old(helpers.gpu.st), helpers.gpu.st, PairHandles(w.transformsSrc, w.transforms))
    ensures AgreeOutside(o, o1, i)
  {
    ghost var s0 := helpers.gpu.st;
    var src1, dst1 := GrowPair(helpers, w.transformsSrc, w.transforms, needed, TransformsUsage, o, i, TransformsSrcSlot, TransformsSlot);
    w1 := w.(transformsSrc := src1, transforms := dst1);
    o1 := PairRehomed(o, w.transformsSrc, w.transforms, src1, dst1, i, TransformsSrcSlot, TransformsSlot);
    ghost var s1 := helpers.gpu.st;
    TransformsSetReady(w, o, i, s0, s1, dst1, dp, worldBytes);
    WriteSet(helpers, w.transformDescriptors, BufferRange(dst1.handle, 0, dst1.size));
    SetWritten(s1, helpers.gpu.st, w.transformDescriptors, BufferRange(dst1.handle, 0, dst1.size));
    PairThenSet(o1, s0, s1, helpers.gpu.st, PairHandles(w.transformsSrc, w.transforms), w.transformDescriptors,
                src1, dst1, TransformsUsage, helpers.gpu.next);
    TransformsRehomed(w, o, o1, i, s0, helpers.gpu.st, src1, dst1, dp, worldBytes);
  }

  /**
   * A frame that must reallocate the transforms pair: after the reallocation the host writes
   * every instance's transform to the new staging buffer and a copy of exactly those bytes
   * is recorded (Tutorial.cpp:826-915).
   */
  method StageTransforms(helpers: Helpers, w: Workspace, insts: seq<ObjectInstance>, ghost o: Owners, ghost i: nat,
                         ghost dp: Handle, ghost worldBytes: nat)
    returns (w1: Workspace, ghost o1: Owners)
    requires BuffersCreatable(helpers) && InFrame(w, o, i, helpers.gpu.st, dp, worldBytes) && WellFormedInstances(insts)
    modifies helpers.gpu
    ensures BuffersCreatable(helpers) && InFrame(w1, o1, i, helpers.gpu.st, dp, worldBytes)
    ensures w1 == w.(transformsSrc := w1.transformsSrc, transforms := w1.transforms)
    ensures w1.transformsSrc.size == NewBytes(TransformBytes * |insts|)
    ensures Holds(helpers.gpu.st, w1.transformsSrc.handle, TransformsBytes(insts, |insts|))
    ensures helpers.gpu.st.commandBuffers
         == Appended(old(helpers.gpu.st).commandBuffers, w.commandBuffer, [CopyBuffer(w1.transformsSrc.handle, w1.transforms.handle, 0, 0, TransformBytes * |insts|)])
    ensures Stable(old(helpers.gpu.st), helpers.gpu.st, {w.commandBuffer, w.transformDescriptors} + PairHandles(w.transformsSrc, w.transforms))
    ensures DataStable(old(helpers.gpu.st), helpers.gpu.st, {w1.transformsSrc.handle} + PairHandles(w.transformsSrc, w.transforms))
    ensures AgreeOutside(o, o1, i)
  {
    ghost var s0 := helpers.gpu.st;
    var c := w.commandBuffer;
    var needed := TransformBytes * |insts|;
    ghost var gone := PairHandles(w.transformsSrc, w.transforms) + {w.transformDescriptors};
    w1, o1 := GrowTransforms(helpers, w, needed, o, i, dp, worldBytes);
    GrowSettles(w1.transformsSrc, needed);
    ghost var s1 := helpers.gpu.st;
    assert w1.transformsSrc.size == w1.transforms.size;
    assert w1.transformsSrc.size >= needed;
    assert w1.transformsSrc.allocation.mapped != NullPtr;
    WriteTransforms(helpers, w1.transformsSrc, insts);
    ghost var s2 := helpers.gpu.st;
    InFrameKept(w1, o1, i, s1, s2, dp, worldBytes);
    RecordCmd(helpers, c, CopyBuffer(w1.transformsSrc.handle, w1.transforms.handle, 0, 0, needed));
    InFrameKept(w1, o1, i, s2, helpers.gpu.st, dp, worldBytes);
    assert DataStable(s2, helpers.gpu.st, {});
    HoldsKept(s2, helpers.gpu.st, w1.transformsSrc.handle, TransformsBytes(insts, |insts|), {});
    StableTrans(s1, s2, helpers.gpu.st, {}, {c});
    StableTrans(s0, s1, helpers.gpu.st, gone, {c});
    DataStableTrans(s1, s2, helpers.gpu.st, {w1.transformsSrc.handle}, {});
    DataStableTrans(s0, s1, helpers.gpu.st, PairHandles(w.transformsSrc, w.transforms), {w1.transformsSrc.handle});
  }

  /**
   * The transforms upload as written (Tutorial.cpp:826-915): when there are instances and the
   * transforms pair must be reallocated, the new pair is filled and copied; on every other
   * frame nothing is written or recorded.  `copied` tells which case ran.
   */
  method UploadTransforms(helpers: Helpers, w: Workspace, insts: seq<ObjectInstance>, ghost o: Owners, ghost i: nat,
                          ghost dp: Handle, ghost worldBytes: nat)
    returns (w1: Workspace, ghost o1: Owners, ghost copied: bool)
    requires BuffersCreatable(helpers) && InFrame(w, o, i, helpers.gpu.st, dp, worldBytes) && WellFormedInstances(insts)
    modifies helpers.gpu
    ensures copied <==> insts != [] && NeedsGrow(w.transformsSrc, TransformBytes * |insts|)
    ensures BuffersCreatable(helpers) && InFrame(w1, o1, i, helpers.gpu.st, dp, worldBytes)
    ensures w1 == w.(transformsSrc := w1.transformsSrc, transforms := w1.transforms)
    ensures copied ==> w1.transformsSrc.size == NewBytes(TransformBytes * |insts|)
    ensures !copied ==> w1 == w && o1 == o && helpers.gpu.st == old(helpers.gpu.st)
    ensures copied ==> Holds(helpers.gpu.st, w1.transformsSrc.handle, TransformsBytes(insts, |insts|))
    ensures helpers.gpu.st.commandBuffers
         == Appended(old(helpers.gpu.st).commandBuffers, w.commandBuffer, (if copied then [CopyBuffer(w1.transformsSrc.handle, w1.transforms.handle, 0, 0, TransformBytes * |insts|)] else []))
    ensures Stable(old(helpers.gpu.st), helpers.gpu.st, {w.commandBuffer, w.transformDescriptors} + PairHandles(w.transformsSrc, w.transforms))
    ensures DataStable(old(helpers.gpu.st), helpers.gpu.st, {w1.transformsSrc.handle} + PairHandles(w.transformsSrc, w.transforms))
    ensures AgreeOutside(o, o1, i)
  {
    var grow := insts != [] && NeedsGrow(w.transformsSrc, TransformBytes * |insts|);
    copied := grow;
    if grow {
      w1, o1 := StageTransforms(helpers, w, insts, o, i, dp, worldBytes);
    } else {
      w1, o1 := w, o;
      ghost var s := helpers.gpu.st;
      assert s.commandBuffers[w.commandBuffer].(cmds := s.commandBuffers[w.commandBuffer].cmds + []) == s.commandBuffers[w.commandBuffer];
      assert DataStable(s, s, {});
    }
  }

  // ---------------------------------------------------------------- the three uploads together

  /** What the host has written into the staging buffers of `w` by the end of the uploads. */
  ghost predicate Staged(s: State, w: Workspace, lines: seq<PosColVertex>, camera: seq<Byte>, world: seq<Byte>,
                         insts: seq<ObjectInstance>, copied: bool)
  {
    && (lines != [] ==> Holds(s, w.linesVerticesSrc.handle, LinesBytes(lines)))
    && Holds(s, w.cameraSrc.handle, camera) && Holds(s, w.worldSrc.handle, world)
    && (copied ==> WellFormedInstances(insts) && Holds(s, w.transformsSrc.handle, TransformsBytes(insts, |insts|)))
  }

  /** The handles a frame may take away or rebind: the command buffer, the transforms set and both streamed pairs. */
  function FrameGone(w: Workspace): set<Handle>
  {
    ({w.commandBuffer} + PairHandles(w.linesVerticesSrc, w.linesVertices))
    + ({w.commandBuffer, w.transformDescriptors} + PairHandles(w.transformsSrc, w.transforms))
  }

  /** The staged line vertices survive the camera and world writes, which touch neither lines buffer. */
  lemma {:induction false} LinesStagedKept(w: Workspace, o: Owners, i: nat, s0: State, s1: State, lines: seq<PosColVertex>,
                                           dp: Handle, worldBytes: nat)
    requires InFrame(w, o, i, s1, dp, worldBytes) && NullHandle !in s0.buffers
    requires lines != [] ==> Holds(s0, w.linesVerticesSrc.handle, LinesBytes(lines))
    requires DataStable(s0, s1, {w.cameraSrc.handle, w.worldSrc.handle})
    ensures lines != [] ==> Holds(s1, w.linesVerticesSrc.handle, LinesBytes(lines))
  {
    if lines != [] {
      var h := w.linesVerticesSrc.handle;
      assert h != NullHandle;
      assert o[h] == InWorkspace(i, LinesSrcSlot, false);
      HoldsKept(s0, s1, h, LinesBytes(lines), {w.cameraSrc.handle, w.worldSrc.handle});
    }
  }

  /** The lines, camera and world bytes survive the transforms upload, which touches only the transforms pairs. */
  lemma {:induction false} UploadsStaged(w1: Workspace, w2: Workspace, o1: Owners, o2: Owners, i: nat, s3: State, s4: State,
                                         lines: seq<PosColVertex>, camera: seq<Byte>, world: seq<Byte>,
                                         insts: seq<ObjectInstance>, copied: bool, dp: Handle, worldBytes: nat)
    requires w2 == w1.(transformsSrc := w2.transformsSrc, transforms := w2.transforms)
    requires InFrame(w1, o1, i, s3, dp, worldBytes) && InFrame(w2, o2, i, s4, dp, worldBytes)
    requires lines != [] ==> Holds(s3, w1.linesVerticesSrc.handle, LinesBytes(lines))
    requires Holds(s3, w1.cameraSrc.handle, camera) && Holds(s3, w1.worldSrc.handle, world)
    requires WellFormedInstances(insts) && (copied ==> Holds(s4, w2.transformsSrc.handle, TransformsBytes(insts, |insts|)))
    requires DataStable(s3, s4, {w2.transformsSrc.handle} + PairHandles(w1.transformsSrc, w1.transforms))
    requires NullHandle !in s3.buffers
    ensures Staged(s4, w2, lines, camera, world, insts, copied)
  {
    var t := {w2.transformsSrc.handle} + PairHandles(w1.transformsSrc, w1.transforms);
    if lines != [] {
      var h := w1.linesVerticesSrc.handle;
      assert o1[h] == InWorkspace(i, LinesSrcSlot, false) && o2[h] == InWorkspace(i, LinesSrcSlot, false);
      HoldsKept(s3, s4, h, LinesBytes(lines), t);
    }
    assert o1[w1.cameraSrc.handle] == InWorkspace(i, CameraSrcSlot, false) && o2[w1.cameraSrc.handle] == InWorkspace(i, CameraSrcSlot, false);
    assert o1[w1.worldSrc.handle] == InWorkspace(i, WorldSrcSlot, false) && o2[w1.worldSrc.handle] == InWorkspace(i, WorldSrcSlot, false);
    HoldsKept(s3, s4, w1.cameraSrc.handle, camera, t);
    HoldsKept(s3, s4, w1.worldSrc.handle, world, t);
  }

  /** The lines copy and the two fixed copies, appended in turn. */
  lemma {:induction false} FixedAfterLines(w: Workspace, w1: Workspace, m0: map<Handle, CommandBuffer>,
                                           m1: map<Handle, CommandBuffer>, m2: map<Handle, CommandBuffer>, lines: seq<PosColVertex>)
    requires w1 == w.(linesVerticesSrc := w1.linesVerticesSrc, linesVertices := w1.linesVertices)
    requires w.commandBuffer in m0
    requires m1 == Appended(m0, w.commandBuffer, if lines != [] then [CopyBuffer(w1.linesVerticesSrc.handle, w1.linesVertices.handle, 0, 0, |LinesBytes(lines)|)] else [])
    requires m2 == Appended(m1, w.commandBuffer, [CopyBuffer(w.cameraSrc.handle, w.camera.handle, 0, 0, w.cameraSrc.size),
                                                  CopyBuffer(w.worldSrc.handle, w.world.handle, 0, 0, w.worldSrc.size)])
    ensures m2 == Appended(m0, w.commandBuffer, UploadCmds(w1, |LinesBytes(lines)|, 0, false))
  {
    var l := if lines != [] then [CopyBuffer(w1.linesVerticesSrc.handle, w1.linesVertices.handle, 0, 0, |LinesBytes(lines)|)] else [];
    var f := [CopyBuffer(w.cameraSrc.handle, w.camera.handle, 0, 0, w.cameraSrc.size),
              CopyBuffer(w.worldSrc.handle, w.world.handle, 0, 0, w.worldSrc.size)];
    AppendedTwice(m0, w.commandBuffer, l, f);
    assert |LinesBytes(lines)| > 0 <==> lines != [];
    assert w1.cameraSrc == w.cameraSrc && w1.camera == w.camera && w1.worldSrc == w.worldSrc && w1.world == w.world;
    assert UploadCmds(w1, |LinesBytes(lines)|, 0, false) == l + f + [] == l + f;
  }

  /** Then the transforms copy, when there is one: together, the frame's upload commands. */
  lemma {:induction false} TransformsAfterFixed(w1: Workspace, w2: Workspace, m0: map<Handle, CommandBuffer>,
                                                m2: map<Handle, CommandBuffer>, m3: map<Handle, CommandBuffer>,
                                                lines: seq<PosColVertex>, insts: seq<ObjectInstance>, copied: bool)
    requires w2 == w1.(transformsSrc := w2.transformsSrc, transforms := w2.transforms)
    requires w1.commandBuffer in m0
    requires m2 == Appended(m0, w1.commandBuffer, UploadCmds(w1, |LinesBytes(lines)|, 0, false))
    requires m3 == Appended(m2, w1.commandBuffer, if copied then [CopyBuffer(w2.transformsSrc.handle, w2.transforms.handle, 0, 0, TransformBytes * |insts|)] else [])
    ensures m3 == Appended(m0, w1.commandBuffer, UploadCmds(w2, |LinesBytes(lines)|, TransformBytes * |insts|, copied))
  {
    var t := if copied then [CopyBuffer(w2.transformsSrc.handle, w2.transforms.handle, 0, 0, TransformBytes * |insts|)] else [];
    AppendedTwice(m0, w1.commandBuffer, UploadCmds(w1, |LinesBytes(lines)|, 0, false), t);
    assert UploadCmds(w1, |LinesBytes(lines)|, 0, false) + t == UploadCmds(w2, |LinesBytes(lines)|, TransformBytes * |insts|, copied);
  }

  /** The lines upload, then the camera and world uploads (Tutorial.cpp:731-824). */
  method UploadLinesAndFixed(helpers: Helpers, w: Workspace, lines: seq<PosColVertex>, camera: seq<Byte>, world: seq<Byte>,
                             ghost o: Owners, ghost i: nat, ghost dp: Handle, ghost worldBytes: nat)
    returns (w1: Workspace, ghost o1: Owners)
    requires BuffersCreatable(helpers) && InFrame(w, o, i, helpers.gpu.st, dp, worldBytes)
    requires |camera| == CameraBytes && |world| == worldBytes && CameraBytes == worldBytes
    modifies helpers.gpu
    ensures BuffersCreatable(helpers) && InFrame(w1, o1, i, helpers.gpu.st, dp, worldBytes)
    ensures w1 == w.(linesVerticesSrc := w1.linesVerticesSrc, linesVertices := w1.linesVertices)
    ensures lines != [] ==> Holds(helpers.gpu.st, w1.linesVerticesSrc.handle, LinesBytes(lines))
    ensures Holds(helpers.gpu.st, w.cameraSrc.handle, camera) && Holds(helpers.gpu.st, w.worldSrc.handle, world)
    ensures helpers.gpu.st.commandBuffers
         == Appended(old(helpers.gpu.st).commandBuffers, w.commandBuffer, UploadCmds(w1, |LinesBytes(lines)|, 0, false))
    ensures Stable(old(helpers.gpu.st), helpers.gpu.st, {w.commandBuffer} + PairHandles(w.linesVerticesSrc, w.linesVertices))
    ensures AgreeOutside(o, o1, i)
  {
    ghost var s0 := helpers.gpu.st;
    w1, o1 := UploadLines(helpers, w, lines, o, i, dp, worldBytes);
    ghost var s1 := helpers.gpu.st;
    UploadFixed(helpers, w1, camera, world, o1, i, dp, worldBytes);
    LinesStagedKept(w1, o1, i, s1, helpers.gpu.st, lines, dp, worldBytes);
    FixedAfterLines(w, w1, s0.commandBuffers, s1.commandBuffers, helpers.gpu.st.commandBuffers, lines);
    StableAbsorb(s0, s1, helpers.gpu.st, {w.commandBuffer} + PairHandles(w.linesVerticesSrc, w.linesVertices), w.commandBuffer);
  }

  /**
   * The uploads of one frame (Tutorial.cpp:731-915): the lines, the camera and world records,
   * and the transforms.  The staging buffers hold what was written, the recording has grown
   * by the frame's upload commands, and only the streamed pairs, the transforms set and the
   * command buffer may have been taken away.
   */
  method UploadAll(helpers: Helpers, w: Workspace, lines: seq<PosColVertex>, camera: seq<Byte>, world: seq<Byte>,
                   insts: seq<ObjectInstance>, ghost o: Owners, ghost i: nat, ghost dp: Handle, ghost worldBytes: nat)
    returns (w2: Workspace, ghost o2: Owners, ghost copied: bool)
    requires BuffersCreatable(helpers) && InFrame(w, o, i, helpers.gpu.st, dp, worldBytes)
    requires |camera| == CameraBytes && |world| == worldBytes && CameraBytes == worldBytes && WellFormedInstances(insts)
    modifies helpers.gpu
    ensures BuffersCreatable(helpers) && InFrame(w2, o2, i, helpers.gpu.st, dp, worldBytes)
    ensures w2 == w.(linesVerticesSrc := w2.linesVerticesSrc, linesVertices := w2.linesVertices,
                     transformsSrc := w2.transformsSrc, transforms := w2.transforms)
    ensures copied <==> insts != [] && NeedsGrow(w.transformsSrc, TransformBytes * |insts|)
    ensures Staged(helpers.gpu.st, w2, lines, camera, world, insts, copied)
    ensures helpers.gpu.st.commandBuffers
         == Appended(old(helpers.gpu.st).commandBuffers, w.commandBuffer,
                     UploadCmds(w2, |LinesBytes(lines)|, TransformBytes * |insts|, copied))
    ensures Stable(old(helpers.gpu.st), helpers.gpu.st, FrameGone(w))
    ensures AgreeOutside(o, o2, i)
  {
    ghost var s0 := helpers.gpu.st;
    var w1;
    ghost var o1;
    w1, o1 := UploadLinesAndFixed(helpers, w, lines, camera, world, o, i, dp, worldBytes);
    ghost var s1 := helpers.gpu.st;
    w2, o2, copied := UploadTransforms(helpers, w1, insts, o1, i, dp, worldBytes);
    UploadsStaged(w1, w2, o1, o2, i, s1, helpers.gpu.st, lines, camera, world, insts, copied, dp, worldBytes);
    TransformsAfterFixed(w1, w2, s0.commandBuffers, s1.commandBuffers, helpers.gpu.st.commandBuffers, lines, insts, copied);
    StableTrans(s0, s1, helpers.gpu.st, {w.commandBuffer} + PairHandles(w.linesVerticesSrc, w.linesVertices),
                {w.commandBuffer, w.transformDescriptors} + PairHandles(w.transformsSrc, w.transforms));
    AgreeTrans(o, o1, o2, i);
  }

  // ---------------------------------------------------------------- recording the draws

  /** Recording only changes the command buffer it records into. */
  lemma {:induction false} RecordedStable(s: State, c: Handle, cmds: seq<Cmd>)
    requires c in s.commandBuffers
    ensures Stable(s, Recorded(s, c, cmds), {c})
  {
    var s1 := Recorded(s, c, cmds);
    forall h | h !in {c}
      ensures Kept(s, s1, h)
    {
    }
  }

  /** The conditional pipeline bind and the three fixed commands make up ObjectsHead. */
  lemma {:induction false} ObjectsHeadRecorded(s0: State, s1: State, s2: State, c: Handle, w: Workspace,
                                               objectVertices: Handle, insts: seq<ObjectInstance>)
    requires c in s0.commandBuffers
    requires insts != [] ==> s1 == Recorded(s0, c, [BindPipeline(ObjectsPipeline)])
    requires insts == [] ==> s1 == s0
    requires s2 == Recorded(s1, c, [BindVertexBuffer(objectVertices),
                                    BindDescriptorSets(ObjectsPipeline, 0, [w.worldDescriptors, w.transformDescriptors]),
                                    PushConstants(ObjectsPipeline, VertexAndFragmentStages, PushBytes)])
    ensures s2 == Recorded(s0, c, ObjectsHead(w, objectVertices, insts))
  {
    var tail := [BindVertexBuffer(objectVertices),
                 BindDescriptorSets(ObjectsPipeline, 0, [w.worldDescriptors, w.transformDescriptors]),
                 PushConstants(ObjectsPipeline, VertexAndFragmentStages, PushBytes)];
    if insts != [] {
      RecordedTwice(s0, c, [BindPipeline(ObjectsPipeline)], tail);
    } else {
      assert ObjectsHead(w, objectVertices, insts) == tail;
    }
  }

  lemma {:induction false} StagesPair(x: DrawStage, y: DrawStage, w: Workspace, d: DrawInputs)
    requires DrawInputsOk(d)
    ensures StagesCmds([x, y], w, d) == StageCmds(x, w, d) + StageCmds(y, w, d)
  {
    assert [x, y][1..] == [y] && [y][1..] == [];
    assert StagesCmds([y], w, d) == StageCmds(y, w, d) + StagesCmds([], w, d);
    assert StagesCmds([x, y], w, d) == StageCmds(x, w, d) + StagesCmds([y], w, d);
    assert StageCmds(y, w, d) + [] == StageCmds(y, w, d);
  }

  /** With pattern None the pass draws the background, then the objects. */
  lemma {:induction false} CustomNone(w: Workspace, d: DrawInputs)
    requires DrawInputsOk(d) && d.pattern == NonePattern
    ensures CustomCmds(w, d) == BackgroundCmds() + ObjectsCmds(w, d.objectVertices, d.instances, d.textureSets)
  {
    StagesPair(Background, Objects, w, d);
  }

  /** With pattern BlackHole the pass draws the lines, then the background over them. */
  lemma {:induction false} CustomBlackHole(w: Workspace, d: DrawInputs)
    requires DrawInputsOk(d) && d.pattern == BlackHolePattern
    ensures CustomCmds(w, d) == LinesCmds(w, d.lineCount) + BackgroundCmds()
  {
    StagesPair(Lines, Background, w, d);
  }

  /** With any other pattern the pass draws the background, the lines, then the objects. */
  lemma {:induction false} CustomAll(w: Workspace, d: DrawInputs)
    requires DrawInputsOk(d) && d.pattern != NonePattern && d.pattern != BlackHolePattern
    ensures CustomCmds(w, d) == BackgroundCmds() + LinesCmds(w, d.lineCount) + ObjectsCmds(w, d.objectVertices, d.instances, d.textureSets)
  {
    assert DrawStages(d.pattern)[1..] == [Lines, Objects];
    StagesPair(Lines, Objects, w, d);
  }

  // The render_*_pipeline members read the tutorial's fields; here those fields are passed in.

  /** RenderBackgroundPipeline: bind, push the time, draw one full-screen triangle. */
  method RenderBackgroundPipeline(gpu: Gpu, w: Workspace)
    requires gpu.Valid() && w.commandBuffer in gpu.st.commandBuffers
    requires gpu.st.commandBuffers[w.commandBuffer].phase == Recording
    modifies gpu
    ensures gpu.Valid() && gpu.st == Recorded(old(gpu.st), w.commandBuffer, BackgroundCmds())
  {
    gpu.RecordAll(w.commandBuffer, [BindPipeline(BackgroundPipeline),
                                    PushConstants(BackgroundPipeline, FragmentStage, PushBytes),
                                    Draw(3, 1, 0, 0)]);
  }

  /**
   * RenderLinesPipeline: bind, use the workspace's device-side lines buffer as vertex
   * buffer 0, bind the camera set at set 0, push the time, and draw vertexCount vertices
   * (the line vertex count converted to uint32_t).
   */
  method RenderLinesPipeline(gpu: Gpu, w: Workspace, vertexCount: nat)
    requires gpu.Valid() && w.commandBuffer in gpu.st.commandBuffers
    requires gpu.st.commandBuffers[w.commandBuffer].phase == Recording
    modifies gpu
    ensures gpu.Valid() && gpu.st == Recorded(old(gpu.st), w.commandBuffer, LinesCmds(w, vertexCount))
  {
    gpu.RecordAll(w.commandBuffer, [BindPipeline(LinesPipeline),
                                    BindVertexBuffer(w.linesVertices.handle),
                                    BindDescriptorSets(LinesPipeline, 0, [w.cameraDescriptors]),
                                    PushConstants(LinesPipeline, VertexStage, PushBytes),
                                    Draw(vertexCount, 1, 0, 0)]);
  }

  /**
   * RenderObjectsPipeline: bind the pipeline when there are instances, use the object
   * vertex buffer, bind the world and transforms sets at set 0, push the time, then for
   * each instance k bind its texture's set at set 2 and draw its vertex range as instance k.
   */
  method RenderObjectsPipeline(gpu: Gpu, w: Workspace, vertices: Handle, insts: seq<ObjectInstance>, sets: seq<Handle>)
    requires gpu.Valid() && w.commandBuffer in gpu.st.commandBuffers
    requires gpu.st.commandBuffers[w.commandBuffer].phase == Recording
    requires TexturesIn(insts, |sets|)
    modifies gpu
    ensures gpu.Valid() && gpu.st == Recorded(old(gpu.st), w.commandBuffer, ObjectsCmds(w, vertices, insts, sets))
  {
    var c := w.commandBuffer;
    if insts != [] {
      gpu.Record(c, BindPipeline(ObjectsPipeline));
    }
    ghost var s1 := gpu.st;
    gpu.RecordAll(c, [BindVertexBuffer(vertices),
                      BindDescriptorSets(ObjectsPipeline, 0, [w.worldDescriptors, w.transformDescriptors]),
                      PushConstants(ObjectsPipeline, VertexAndFragmentStages, PushBytes)]);
    ghost var sHead := gpu.st;
    ObjectsHeadRecorded(old(gpu.st), s1, sHead, c, w, vertices, insts);
    RecordedNothing(sHead, c);
    var k := 0;
    while k < |insts|
      invariant 0 <= k <= |insts| && gpu.Valid()
      invariant gpu.st == Recorded(sHead, c, InstanceDraws(insts, sets, k))
    {
      var inst := insts[k];
      gpu.RecordAll(c, [BindDescriptorSets(ObjectsPipeline, 2, [sets[inst.texture]]),
                        Draw(inst.vertices.count, 1, inst.vertices.first, k)]);
      RecordedTwice(sHead, c, InstanceDraws(insts, sets, k), InstanceDraw(inst, sets, k));
      k := k + 1;
    }
    RecordedTwice(old(gpu.st), c, ObjectsHead(w, vertices, insts), InstanceDraws(insts, sets, |insts|));
  }

  /**
   * RenderCustom: the passes the pattern selects, in its order (None: background and
   * objects; BlackHole: lines, then background; any other: background, lines, objects).
   */
  method RenderCustom(gpu: Gpu, w: Workspace, d: DrawInputs)
    requires gpu.Valid() && w.commandBuffer in gpu.st.commandBuffers
    requires gpu.st.commandBuffers[w.commandBuffer].phase == Recording
    requires DrawInputsOk(d)
    modifies gpu
    ensures gpu.Valid() && gpu.st == Recorded(old(gpu.st), w.commandBuffer, CustomCmds(w, d))
  {
    var c := w.commandBuffer;
    if d.pattern == NonePattern {
      RenderBackgroundPipeline(gpu, w);
      RenderObjectsPipeline(gpu, w, d.objectVertices, d.instances, d.textureSets);
      RecordedTwice(old(gpu.st), c, BackgroundCmds(), ObjectsCmds(w, d.objectVertices, d.instances, d.textureSets));
      CustomNone(w, d);
    } else if d.pattern == BlackHolePattern {
      RenderLinesPipeline(gpu, w, d.lineCount);
      RenderBackgroundPipeline(gpu, w);
      RecordedTwice(old(gpu.st), c, LinesCmds(w, d.lineCount), BackgroundCmds());
      CustomBlackHole(w, d);
    } else {
      RenderBackgroundPipeline(gpu, w);
      RenderLinesPipeline(gpu, w, d.lineCount);
      RecordedTwice(old(gpu.st), c, BackgroundCmds(), LinesCmds(w, d.lineCount));
      RenderObjectsPipeline(gpu, w, d.objectVertices, d.instances, d.textureSets);
      RecordedTwice(old(gpu.st), c, BackgroundCmds() + LinesCmds(w, d.lineCount),
                    ObjectsCmds(w, d.objectVertices, d.instances, d.textureSets));
      CustomAll(w, d);
    }
  }

  // ---------------------------------------------------------------- beginning and ending the recording

  /**
   * The command buffer is reset and begun again for one-time submission, since it is
   * recorded afresh every frame; nothing else on the device changes.
   */
  method BeginFrame(helpers: Helpers, c: Handle)
    requires BuffersCreatable(helpers) && c in helpers.gpu.st.commandBuffers
    modifies helpers.gpu
    ensures BuffersCreatable(helpers)
    ensures helpers.gpu.st == old(helpers.gpu.st).(
      commandBuffers := old(helpers.gpu.st).commandBuffers[c := CommandBuffer(old(helpers.gpu.st).commandBuffers[c].pool, Recording, true, [])],
      calls := old(helpers.gpu.st).calls + [VkResetCommandBuffer(c), VkBeginCommandBuffer(c, true)])
    ensures Stable(old(helpers.gpu.st), helpers.gpu.st, {c})
  {
    ghost var s0 := helpers.gpu.st;
    helpers.gpu.ResetCommandBuffer(c);
    ghost var s1 := helpers.gpu.st;
    helpers.gpu.BeginCommandBuffer(c, true);
    StableAbsorb(s0, s1, helpers.gpu.st, {c}, c);
  }

  /** The barrier, the pass's opening commands, the draws and the pass's end, recorded in turn. */
  lemma {:induction false} PassRecorded(s0: State, s1: State, s2: State, s3: State, s4: State, w: Workspace,
                                        renderPass: Handle, framebuffer: Handle, extent: Extent2D, d: DrawInputs)
    requires DrawInputsOk(d) && w.commandBuffer in s0.commandBuffers
    requires s1 == Recorded(s0, w.commandBuffer, [FrameBarrier])
    requires s2 == Recorded(s1, w.commandBuffer, [BeginRenderPass(renderPass, framebuffer, extent), SetScissor(extent), SetViewport(extent)])
    requires s3 == Recorded(s2, w.commandBuffer, CustomCmds(w, d))
    requires s4 == Recorded(s3, w.commandBuffer, [EndRenderPass])
    ensures s4 == Recorded(s0, w.commandBuffer, [FrameBarrier] + PassCmds(renderPass, framebuffer, extent, CustomCmds(w, d)))
  {
    var c := w.commandBuffer;
    var head := [BeginRenderPass(renderPass, framebuffer, extent), SetScissor(extent), SetViewport(extent)];
    RecordedTwice(s0, c, [FrameBarrier], head);
    RecordedTwice(s0, c, [FrameBarrier] + head, CustomCmds(w, d));
    RecordedTwice(s0, c, [FrameBarrier] + head + CustomCmds(w, d), [EndRenderPass]);
    assert [FrameBarrier] + head + CustomCmds(w, d) + [EndRenderPass]
        == [FrameBarrier] + PassCmds(renderPass, framebuffer, extent, CustomCmds(w, d));
  }

  /**
   * The barrier that makes the copies visible to vertex input, then the render pass on
   * `framebuffer` with scissor and viewport over `extent`, the pattern's draws and the
   * pass's end: exactly these commands are appended to the recording.
   */
  method RecordPass(helpers: Helpers, w: Workspace, renderPass: Handle, framebuffer: Handle, extent: Extent2D, d: DrawInputs)
    requires BuffersCreatable(helpers) && w.commandBuffer in helpers.gpu.st.commandBuffers
    requires helpers.gpu.st.commandBuffers[w.commandBuffer].phase == Recording
    requires DrawInputsOk(d)
    modifies helpers.gpu
    ensures BuffersCreatable(helpers)
    ensures helpers.gpu.st == Recorded(old(helpers.gpu.st), w.commandBuffer,
                                       [FrameBarrier] + PassCmds(renderPass, framebuffer, extent, CustomCmds(w, d)))
  {
    var c := w.commandBuffer;
    var gpu := helpers.gpu;
    ghost var s0 := gpu.st;
    gpu.Record(c, FrameBarrier);
    ghost var s1 := gpu.st;
    gpu.RecordAll(c, [BeginRenderPass(renderPass, framebuffer, extent), SetScissor(extent), SetViewport(extent)]);
    ghost var s2 := gpu.st;
    RenderCustom(gpu, w, d);
    ghost var s3 := gpu.st;
    gpu.Record(c, EndRenderPass);
    PassRecorded(s0, s1, s2, s3, gpu.st, w, renderPass, framebuffer, extent, d);
  }

  /** vkEndCommandBuffer, which leaves the helpers' transfer pool and buffer as they were. */
  method EndRecording(helpers: Helpers, c: Handle)
    requires BuffersCreatable(helpers) && c in helpers.gpu.st.commandBuffers && helpers.gpu.st.commandBuffers[c].phase == Recording
    modifies helpers.gpu
    ensures BuffersCreatable(helpers)
    ensures helpers.gpu.st == old(helpers.gpu.st).(
      commandBuffers := old(helpers.gpu.st).commandBuffers[c := old(helpers.gpu.st).commandBuffers[c].(phase := Executable)],
      calls := old(helpers.gpu.st).calls + [VkEndCommandBuffer(c)])
    ensures Stable(old(helpers.gpu.st), helpers.gpu.st, {c})
  {
    helpers.gpu.EndCommandBuffer(c);
  }

  /** vkQueueSubmit, which leaves the helpers' transfer pool and buffer as they were. */
  method SubmitRecorded(helpers: Helpers, c: Handle, waits: seq<Handle>, waitStages: seq<PipelineStage>, signals: seq<Handle>, fence: Handle)
    requires BuffersCreatable(helpers) && c in helpers.gpu.st.commandBuffers && helpers.gpu.st.commandBuffers[c].phase == Executable
    modifies helpers.gpu
    ensures BuffersCreatable(helpers)
    ensures var s0 := old(helpers.gpu.st); var cb := s0.commandBuffers[c];
      helpers.gpu.st == RunCmds(cb.cmds, s0).(
        commandBuffers := s0.commandBuffers[c := cb.(phase := if cb.oneTimeSubmit then Invalid else Executable)],
        calls := s0.calls + [VkQueueSubmit(Submission(c, cb.cmds, waits, waitStages, signals, fence))])
    ensures Stable(old(helpers.gpu.st), helpers.gpu.st, {c})
  {
    RunCmdsSameShape(helpers.gpu.st.commandBuffers[c].cmds, helpers.gpu.st);
    helpers.gpu.QueueSubmit(c, waits, waitStages, signals, fence);
  }

  /** Ending and submitting, told as one change of state. */
  lemma {:induction false} EndThenSubmit(s0: State, s1: State, s2: State, c: Handle, sub: Call)
    requires c in s0.commandBuffers && s0.commandBuffers[c].oneTimeSubmit
    requires s1 == s0.(commandBuffers := s0.commandBuffers[c := s0.commandBuffers[c].(phase := Executable)],
                       calls := s0.calls + [VkEndCommandBuffer(c)])
    requires var cb := s1.commandBuffers[c];
      s2 == RunCmds(cb.cmds, s1).(commandBuffers := s1.commandBuffers[c := cb.(phase := Invalid)], calls := s1.calls + [sub])
    ensures var cb := s0.commandBuffers[c];
      s2 == RunCmds(cb.cmds, s0).(commandBuffers := s0.commandBuffers[c := cb.(phase := Invalid)],
                                  calls := s0.calls + [VkEndCommandBuffer(c), sub])
    ensures s0.calls <= s2.calls
  {
    var cb := s0.commandBuffers[c];
    RunCmdsFrame(cb.cmds, s0, s1.commandBuffers, s1.calls);
    assert s1.commandBuffers[c := cb.(phase := Invalid)] == s0.commandBuffers[c := cb.(phase := Invalid)];
    assert s1.calls + [sub] == s0.calls + [VkEndCommandBuffer(c), sub];
  }

  /**
   * Recording ends and the buffer is submitted to the graphics queue: it waits for
   * `imageAvailable` at the colour-attachment-output stage and signals `imageDone`, and
   * `workspaceAvailable` once it has run.  The queue runs what was recorded; the buffer,
   * recorded for one submission, is invalid afterwards.
   */
  method SubmitFrame(helpers: Helpers, c: Handle, imageAvailable: Handle, imageDone: Handle, workspaceAvailable: Handle)
    requires BuffersCreatable(helpers) && c in helpers.gpu.st.commandBuffers
    requires helpers.gpu.st.commandBuffers[c].phase == Recording && helpers.gpu.st.commandBuffers[c].oneTimeSubmit
    modifies helpers.gpu
    ensures BuffersCreatable(helpers)
    ensures var s0 := old(helpers.gpu.st); var cb := s0.commandBuffers[c];
      helpers.gpu.st == RunCmds(cb.cmds, s0).(
        commandBuffers := s0.commandBuffers[c := cb.(phase := Invalid)],
        calls := s0.calls + [VkEndCommandBuffer(c),
                             VkQueueSubmit(Submission(c, cb.cmds, [imageAvailable], [ColorAttachmentOutput], [imageDone], workspaceAvailable))])
    ensures Stable(old(helpers.gpu.st), helpers.gpu.st, {c})
  {
    ghost var s0 := helpers.gpu.st;
    EndRecording(helpers, c);
    ghost var s1 := helpers.gpu.st;
    SubmitRecorded(helpers, c, [imageAvailable], [ColorAttachmentOutput], [imageDone], workspaceAvailable);
    EndThenSubmit(s0, s1, helpers.gpu.st, c, VkQueueSubmit(Submission(c, s0.commandBuffers[c].cmds, [imageAvailable], [ColorAttachmentOutput], [imageDone], workspaceAvailable)));
    StableAbsorb(s0, s1, helpers.gpu.st, {c}, c);
  }

  // ---------------------------------------------------------------- one whole frame

  /** Every buffer's bytes are as many as its size, as on the device. */
  ghost predicate BuffersSized(s: State)
  {
    forall b | b in s.buffers :: |s.buffers[b].data| == s.buffers[b].size
  }

  /** What the device-side buffers of `w` hold once the frame's copies have run. */
  ghost predicate Delivered(s: State, w: Workspace, lines: seq<PosColVertex>, camera: seq<Byte>, world: seq<Byte>,
                            insts: seq<ObjectInstance>, copied: bool)
  {
    && (lines != [] ==> Holds(s, w.linesVertices.handle, LinesBytes(lines)))
    && Holds(s, w.camera.handle, camera) && Holds(s, w.world.handle, world)
    && (copied ==> WellFormedInstances(insts) && Holds(s, w.transforms.handle, TransformsBytes(insts, |insts|)))
  }

  /** A streamed pair whose staging buffer holds `bytes` is ready for the copy of those bytes. */
  lemma {:induction false} StreamCopyReady(src: AllocatedBuffer, dst: AllocatedBuffer, usage: Flags, s: State, bytes: seq<Byte>)
    requires StreamPair(src, dst, usage, s) && HasFlags(usage, BUFFER_USAGE_TRANSFER_DST)
    requires Holds(s, src.handle, bytes) && NullHandle !in s.buffers && BuffersSized(s)
    ensures CopyReady(s, CopyBuffer(src.handle, dst.handle, 0, 0, |bytes|), bytes)
  {
    assert src != NoBuffer;
  }

  /** A fixed pair whose staging buffer holds a whole record is ready for the copy of all of it. */
  lemma {:induction false} FixedCopyReady(src: AllocatedBuffer, dst: AllocatedBuffer, size: nat, s: State, bytes: seq<Byte>)
    requires FixedPair(src, dst, size, UniformUsage, s) && |bytes| == size
    requires Holds(s, src.handle, bytes) && BuffersSized(s)
    ensures CopyReady(s, CopyBuffer(src.handle, dst.handle, 0, 0, src.size), bytes)
  {
    assert HasFlags(UniformUsage, BUFFER_USAGE_TRANSFER_DST);
  }

  /**
   * Running what a frame recorded delivers the staged bytes to the device-side buffers:
   * the barrier and the draws touch no memory, and each copy moves its staging buffer's
   * bytes into its partner.
   */
  lemma {:induction false} FrameDelivers(w: Workspace, o: Owners, i: nat, s: State, lines: seq<PosColVertex>, camera: seq<Byte>,
                                         world: seq<Byte>, insts: seq<ObjectInstance>, copied: bool, renderPass: Handle,
                                         framebuffer: Handle, extent: Extent2D, d: DrawInputs, dp: Handle, worldBytes: nat)
    requires InFrame(w, o, i, s, dp, worldBytes) && Staged(s, w, lines, camera, world, insts, copied)
    requires NullHandle !in s.buffers && BuffersSized(s) && DrawInputsOk(d) && WellFormedInstances(insts)
    requires |camera| == CameraBytes && |world| == worldBytes
    ensures Delivered(RunCmds(FrameCmds(w, |LinesBytes(lines)|, TransformBytes * |insts|, copied, renderPass, framebuffer, extent, d), s),
                      w, lines, camera, world, insts, copied)
  {
    var lb := LinesBytes(lines);
    var tb := TransformsBytes(insts, |insts|);
    if lines != [] {
      assert HasFlags(LinesUsage, BUFFER_USAGE_TRANSFER_DST);
      StreamCopyReady(w.linesVerticesSrc, w.linesVertices, LinesUsage, s, lb);
    }
    FixedCopyReady(w.cameraSrc, w.camera, CameraBytes, s, camera);
    FixedCopyReady(w.worldSrc, w.world, worldBytes, s, world);
    if copied {
      assert HasFlags(TransformsUsage, BUFFER_USAGE_TRANSFER_DST);
      StreamCopyReady(w.transformsSrc, w.transforms, TransformsUsage, s, tb);
    }
    UploadEffect(w, lb, camera, world, tb, copied, s, o, i);
    FrameEffect(w, |lb|, |tb|, copied, renderPass, framebuffer, extent, d, s);
  }

  /** Everything the frame may take away belongs to workspace `i`. */
  lemma {:induction false} FrameGoneOwned(o: Owners, w: Workspace, i: nat, s: State, dp: Handle, worldBytes: nat)
    requires WorkspaceOwned(o, w, i) && WorkspaceBuffers(w, s, dp, worldBytes) && NullHandle !in o
    ensures InWorkspaceOnly(o, FrameGone(w), i)
  {
  }

  /** Begun empty, then the uploads, then the barrier and the pass: the buffer holds the frame's commands. */
  lemma {:induction false} FrameRecorded(s1: State, s2: State, s3: State, w: Workspace, linesBytes: nat, transformsBytes: nat,
                                         copied: bool, renderPass: Handle, framebuffer: Handle, extent: Extent2D, d: DrawInputs)
    requires DrawInputsOk(d) && w.commandBuffer in s1.commandBuffers && s1.commandBuffers[w.commandBuffer].cmds == []
    requires s2.commandBuffers == Appended(s1.commandBuffers, w.commandBuffer, UploadCmds(w, linesBytes, transformsBytes, copied))
    requires s3 == Recorded(s2, w.commandBuffer, [FrameBarrier] + PassCmds(renderPass, framebuffer, extent, CustomCmds(w, d)))
    ensures s3.commandBuffers[w.commandBuffer]
         == s1.commandBuffers[w.commandBuffer].(cmds := FrameCmds(w, linesBytes, transformsBytes, copied, renderPass, framebuffer, extent, d))
  {
    var u := UploadCmds(w, linesBytes, transformsBytes, copied);
    var rest := [FrameBarrier] + PassCmds(renderPass, framebuffer, extent, CustomCmds(w, d));
    assert [] + u + rest == FrameCmds(w, linesBytes, transformsBytes, copied, renderPass, framebuffer, extent, d);
  }

  /** Recording and submitting leave the workspace's buffers and sets alone; the command buffer is no longer recording. */
  lemma {:induction false} FrameEndsLive(s2: State, s3: State, s4: State, w: Workspace, o: Owners, i: nat, cmds: seq<Cmd>,
                                         commandPool: Handle, dp: Handle, worldBytes: nat)
    requires InFrame(w, o, i, s2, dp, worldBytes) && s3 == Recorded(s2, w.commandBuffer, cmds)
    requires Stable(s3, s4, {w.commandBuffer}) && w.commandBuffer in s4.commandBuffers
    requires s4.commandBuffers[w.commandBuffer].pool == commandPool && s4.commandBuffers[w.commandBuffer].phase == Invalid
    ensures WorkspaceLive(w, s4, commandPool, dp, worldBytes) && OwnedPresent(o, s4)
  {
    RecordedStable(s2, w.commandBuffer, cmds);
    InFrameKept(w, o, i, s2, s3, dp, worldBytes);
    WorkspaceKept(w, o, i, s3, s4, dp, worldBytes);
  }

  /** The submission ran what was recorded on the buffers as they were after the uploads. */
  lemma {:induction false} FrameEndsDelivered(s2: State, s3: State, s4: State, w: Workspace, o: Owners, i: nat,
                                              lines: seq<PosColVertex>, camera: seq<Byte>, world: seq<Byte>,
                                              insts: seq<ObjectInstance>, copied: bool, renderPass: Handle, framebuffer: Handle,
                                              extent: Extent2D, d: DrawInputs, dp: Handle, worldBytes: nat)
    requires DrawInputsOk(d) && WellFormedInstances(insts) && |camera| == CameraBytes && |world| == worldBytes
    requires InFrame(w, o, i, s2, dp, worldBytes) && Staged(s2, w, lines, camera, world, insts, copied)
    requires NullHandle !in s2.buffers && BuffersSized(s2) && s3.buffers == s2.buffers
    requires s4.buffers
          == RunCmds(FrameCmds(w, |LinesBytes(lines)|, TransformBytes * |insts|, copied, renderPass, framebuffer, extent, d), s2).buffers
    ensures Delivered(s4, w, lines, camera, world, insts, copied)
  {
    FrameDelivers(w, o, i, s2, lines, camera, world, insts, copied, renderPass, framebuffer, extent, d, dp, worldBytes);
  }

  /** Changing the command buffer, then `gone`, then recording and submitting on the command buffer changed only `gone`. */
  lemma {:induction false} FrameEndsStable(s0: State, s1: State, s2: State, s3: State, s4: State, c: Handle, cmds: seq<Cmd>,
                                           gone: set<Handle>)
    requires c in gone && c in s2.commandBuffers
    requires Stable(s0, s1, {c}) && Stable(s1, s2, gone) && s3 == Recorded(s2, c, cmds) && Stable(s3, s4, {c})
    ensures Stable(s0, s4, gone)
  {
    StableTrans(s0, s1, s2, {c}, gone);
    assert {c} + gone == gone;
    RecordedStable(s2, c, cmds);
    StableAbsorb(s0, s2, s3, gone, c);
    StableAbsorb(s0, s3, s4, gone, c);
  }

  /**
   * The end of a frame, seen from before its start: the new workspace is live again with its
   * buffer invalid until re-recorded, the device buffers hold the frame's data, only the
   * frame's handles were taken away, and the submission carried the frame's commands.
   */
  lemma {:induction false} FrameEnds(s0: State, s1: State, s2: State, s3: State, s4: State, w: Workspace, w2: Workspace,
                                     o2: Owners, i: nat, lines: seq<PosColVertex>, camera: seq<Byte>, world: seq<Byte>,
                                     insts: seq<ObjectInstance>, copied: bool, renderPass: Handle, framebuffer: Handle,
                                     extent: Extent2D, d: DrawInputs, sub: Call, commandPool: Handle, dp: Handle, worldBytes: nat)
    requires DrawInputsOk(d) && WellFormedInstances(insts) && |camera| == CameraBytes && |world| == worldBytes
    requires w.commandBuffer in s0.commandBuffers && s0.commandBuffers[w.commandBuffer].pool == commandPool
    requires s1.commandBuffers == s0.commandBuffers[w.commandBuffer := CommandBuffer(commandPool, Recording, true, [])]
    requires Stable(s0, s1, {w.commandBuffer}) && Stable(s1, s2, FrameGone(w))
    requires w2.commandBuffer == w.commandBuffer && InFrame(w2, o2, i, s2, dp, worldBytes)
    requires Staged(s2, w2, lines, camera, world, insts, copied)
    requires s2.commandBuffers
          == Appended(s1.commandBuffers, w.commandBuffer, UploadCmds(w2, |LinesBytes(lines)|, TransformBytes * |insts|, copied))
    requires s3 == Recorded(s2, w.commandBuffer, [FrameBarrier] + PassCmds(renderPass, framebuffer, extent, CustomCmds(w2, d)))
    requires NullHandle !in s2.buffers && BuffersSized(s2)
    requires var cb := s3.commandBuffers[w.commandBuffer];
      s4 == RunCmds(cb.cmds, s3).(commandBuffers := s3.commandBuffers[w.commandBuffer := cb.(phase := Invalid)],
                                 calls := s3.calls + [VkEndCommandBuffer(w.commandBuffer), sub])
    requires Stable(s3, s4, {w.commandBuffer})
    ensures s3.commandBuffers[w.commandBuffer].cmds
         == FrameCmds(w2, |LinesBytes(lines)|, TransformBytes * |insts|, copied, renderPass, framebuffer, extent, d)
    ensures WorkspaceLive(w2, s4, commandPool, dp, worldBytes) && OwnedPresent(o2, s4)
    ensures Delivered(s4, w2, lines, camera, world, insts, copied)
    ensures Stable(s0, s4, FrameGone(w))
  {
    var c := w.commandBuffer;
    var pass := [FrameBarrier] + PassCmds(renderPass, framebuffer, extent, CustomCmds(w2, d));
    var f := FrameCmds(w2, |LinesBytes(lines)|, TransformBytes * |insts|, copied, renderPass, framebuffer, extent, d);
    FrameRecorded(s1, s2, s3, w2, |LinesBytes(lines)|, TransformBytes * |insts|, copied, renderPass, framebuffer, extent, d);
    FrameEndsLive(s2, s3, s4, w2, o2, i, pass, commandPool, dp, worldBytes);
    RunCmdsFrame(f, s2, s3.commandBuffers, s3.calls);
    assert s2.(commandBuffers := s3.commandBuffers, calls := s3.calls) == s3;
    FrameEndsDelivered(s2, s3, s4, w2, o2, i, lines, camera, world, insts, copied, renderPass, framebuffer, extent, d, dp, worldBytes);
    FrameEndsStable(s0, s1, s2, s3, s4, c, pass, FrameGone(w));
  }

  /**
   * The command buffer `c` of `commandPool` holds `cmds`, recorded for one submission and
   * spent, and the last call was their submission, waiting for `imageAvailable` at the
   * colour-attachment-output stage and signalling `imageDone` and `workspaceAvailable`.
   */
  ghost predicate Submitted(s: State, c: Handle, commandPool: Handle, cmds: seq<Cmd>,
                            imageAvailable: Handle, imageDone: Handle, workspaceAvailable: Handle)
  {
    && c in s.commandBuffers && s.commandBuffers[c] == CommandBuffer(commandPool, Invalid, true, cmds)
    && |s.calls| > 0
    && s.calls[|s.calls| - 1]
       == VkQueueSubmit(Submission(c, cmds, [imageAvailable], [ColorAttachmentOutput], [imageDone], workspaceAvailable))
  }

  /**
   * One frame (Tutorial.cpp:705-1027) on workspace `w`, number `i` of the Tutorial, drawing into
   * `framebuffer`: the command buffer is reset and begun for one submission, the uploads
   * run, the barrier and the render pass are recorded, and recording ends with the submission
   * that waits for `imageAvailable` and signals `imageDone` and `workspaceAvailable`.  After
   * it the queue has run the frame's commands, so the device-side buffers hold the line
   * vertices, the camera and world records and, on a frame that reallocated the transforms
   * pair, the transforms; the workspace is ready for its next frame.
   */
  method Frame(helpers: Helpers, w: Workspace, lines: seq<PosColVertex>, camera: seq<Byte>, world: seq<Byte>,
               insts: seq<ObjectInstance>, renderPass: Handle, framebuffer: Handle, extent: Extent2D, d: DrawInputs,
               imageAvailable: Handle, imageDone: Handle, workspaceAvailable: Handle,
               ghost o: Owners, ghost i: nat, ghost commandPool: Handle, ghost dp: Handle, ghost worldBytes: nat)
    returns (w2: Workspace, ghost o2: Owners, ghost copied: bool)
    requires BuffersCreatable(helpers) && WorkspaceLive(w, helpers.gpu.st, commandPool, dp, worldBytes)
    requires WorkspaceOwned(o, w, i) && OwnedPresent(o, helpers.gpu.st)
    requires |camera| == CameraBytes && |world| == worldBytes && CameraBytes == worldBytes
    requires WellFormedInstances(insts) && DrawInputsOk(d)
    modifies helpers.gpu
    ensures BuffersCreatable(helpers)
    ensures w2 == w.(linesVerticesSrc := w2.linesVerticesSrc, linesVertices := w2.linesVertices,
                     transformsSrc := w2.transformsSrc, transforms := w2.transforms)
    ensures copied <==> insts != [] && NeedsGrow(w.transformsSrc, TransformBytes * |insts|)
    ensures WorkspaceLive(w2, helpers.gpu.st, commandPool, dp, worldBytes) && WorkspaceOwned(o2, w2, i)
    ensures OwnedPresent(o2, helpers.gpu.st) && AgreeOutside(o, o2, i)
    ensures Stable(old(helpers.gpu.st), helpers.gpu.st, FrameGone(w)) && InWorkspaceOnly(o, FrameGone(w), i)
    ensures Delivered(helpers.gpu.st, w2, lines, camera, world, insts, copied)
    ensures Submitted(helpers.gpu.st, w.commandBuffer, commandPool,
                      FrameCmds(w2, |LinesBytes(lines)|, TransformBytes * |insts|, copied, renderPass, framebuffer, extent, d),
                      imageAvailable, imageDone, workspaceAvailable)
  {
    var c := w.commandBuffer;
    ghost var s0 := helpers.gpu.st;
    NullNotOwned(o, s0, helpers.gpu.next);
    FrameGoneOwned(o, w, i, s0, dp, worldBytes);
    BeginFrame(helpers, c);
    ghost var s1 := helpers.gpu.st;
    WorkspaceKept(w, o, i, s0, s1, dp, worldBytes);
    w2, o2, copied := UploadAll(helpers, w, lines, camera, world, insts, o, i, dp, worldBytes);
    ghost var s2 := helpers.gpu.st;
    RecordPass(helpers, w2, renderPass, framebuffer, extent, d);
    ghost var s3 := helpers.gpu.st;
    SubmitFrame(helpers, c, imageAvailable, imageDone, workspaceAvailable);
    FrameEnds(s0, s1, s2, s3, helpers.gpu.st, w, w2, o2, i, lines, camera, world, insts, copied, renderPass, framebuffer,
              extent, d, VkQueueSubmit(Submission(c, s3.commandBuffers[c].cmds, [imageAvailable], [ColorAttachmentOutput], [imageDone], workspaceAvailable)),
              commandPool, dp, worldBytes);
  }
}
