/**
 * The renderer's records as Tutorial.cpp uses them (the Workspace, the vertex and
 * instance records, the fixed-size uniform records), the bytes the host copies for
 * them, the vertex lists the pattern and mesh builders produce, and the command
 * lists one frame records.  Everything here is a value; the Tutorial class changes
 * state with them.
 */
module TutorialTypes {
  import opened Vulkan
  import opened Device
  import opened Helpers

  // ---------------------------------------------------------------- vertices

  datatype Vec3 = Vec3(x: Float32, y: Float32, z: Float32)

  datatype Color = Color(r: Byte, g: Byte, b: Byte, a: Byte)

  datatype TexCoord = TexCoord(u: Float32, v: Float32)

  /** The lines pipeline's vertex: a position and an 8-bit RGBA colour. */
  datatype PosColVertex = PosColVertex(position: Vec3, color: Color)

  /** The objects pipeline's vertex: position, normal and texture coordinate. */
  datatype PosNorTexVertex = PosNorTexVertex(position: Vec3, normal: Vec3, texcoord: TexCoord)

  const PosColVertexBytes: nat := 16
  const PosNorTexVertexBytes: nat := 32

  /** The bytes of one PosColVertex: three floats, then the four colour bytes. */
  function PosColBytes(v: PosColVertex): (r: seq<Byte>)
    ensures |r| == PosColVertexBytes
  {
    Words([v.position.x, v.position.y, v.position.z]) + [v.color.r, v.color.g, v.color.b, v.color.a]
  }

  /** The bytes of one PosNorTexVertex: eight floats. */
  function PosNorTexBytes(v: PosNorTexVertex): (r: seq<Byte>)
    ensures |r| == PosNorTexVertexBytes
  {
    Words([v.position.x, v.position.y, v.position.z, v.normal.x, v.normal.y, v.normal.z, v.texcoord.u, v.texcoord.v])
  }

  /** The bytes of a vector of line vertices, as memcpy sees them. */
  function LinesBytes(vs: seq<PosColVertex>): (r: seq<Byte>)
    ensures |r| == PosColVertexBytes * |vs|
  {
    if vs == [] then [] else PosColBytes(vs[0]) + LinesBytes(vs[1..])
  }

  /** The bytes of a vector of mesh vertices. */
  function MeshBytes(vs: seq<PosNorTexVertex>): (r: seq<Byte>)
    ensures |r| == PosNorTexVertexBytes * |vs|
  {
    if vs == [] then [] else PosNorTexBytes(vs[0]) + MeshBytes(vs[1..])
  }

  /** A slice past the first part of a join is a slice of the second part. */
  lemma {:induction false} SliceAfter<T>(a: seq<T>, b: seq<T>, i: nat, j: nat)
    requires i <= j <= |b|
    ensures (a + b)[|a| + i..|a| + j] == b[i..j]
  {
    assert forall m | 0 <= m < j - i :: (a + b)[|a| + i..|a| + j][m] == b[i..j][m];
  }

  /** A slice of a slice is a slice. */
  lemma {:induction false} SliceOfSlice<T>(s: seq<T>, a: nat, b: nat, c: nat, d: nat)
    requires a <= b <= |s| && c <= d <= b - a
    ensures s[a..b][c..d] == s[a + c..a + d]
  {
    forall m | 0 <= m < d - c
      ensures s[a..b][c..d][m] == s[a + c..a + d][m]
    {
      assert s[a..b][c..d][m] == s[a..b][c + m];
    }
  }

  /** Vertex `k` of a line-vertex vector occupies bytes [16k, 16k + 16) of its image. */
  lemma {:induction false} LinesBytesAt(vs: seq<PosColVertex>, k: nat)
    requires k < |vs|
    ensures LinesBytes(vs)[PosColVertexBytes * k..PosColVertexBytes * k + PosColVertexBytes] == PosColBytes(vs[k])
    decreases k
  {
    var head := PosColBytes(vs[0]);
    var rest := LinesBytes(vs[1..]);
    assert LinesBytes(vs) == head + rest;
    if k == 0 {
      assert (head + rest)[0..PosColVertexBytes] == head;
    } else {
      LinesBytesAt(vs[1..], k - 1);
      SliceAfter(head, rest, PosColVertexBytes * (k - 1), PosColVertexBytes * (k - 1) + PosColVertexBytes);
      assert vs[1..][k - 1] == vs[k];
      assert |head| + PosColVertexBytes * (k - 1) == PosColVertexBytes * k;
    }
  }

  /** Past the first vertex, a mesh image is the image of the remaining vertices. */
  lemma {:induction false} MeshBytesShift(vs: seq<PosNorTexVertex>, k: nat)
    requires 0 < k < |vs|
    ensures MeshBytes(vs)[PosNorTexVertexBytes * k..PosNorTexVertexBytes * k + PosNorTexVertexBytes]
         == MeshBytes(vs[1..])[PosNorTexVertexBytes * (k - 1)..PosNorTexVertexBytes * (k - 1) + PosNorTexVertexBytes]
  {
    var head := PosNorTexBytes(vs[0]);
    var rest := MeshBytes(vs[1..]);
    assert MeshBytes(vs) == head + rest;
    SliceAfter(head, rest, PosNorTexVertexBytes * (k - 1), PosNorTexVertexBytes * (k - 1) + PosNorTexVertexBytes);
    assert |head| + PosNorTexVertexBytes * (k - 1) == PosNorTexVertexBytes * k;
  }

  /** The first vertex of a mesh image comes first. */
  lemma {:induction false} MeshBytesFirst(vs: seq<PosNorTexVertex>)
    requires 0 < |vs|
    ensures MeshBytes(vs)[0..PosNorTexVertexBytes] == PosNorTexBytes(vs[0])
  {
    var head := PosNorTexBytes(vs[0]);
    assert MeshBytes(vs) == head + MeshBytes(vs[1..]);
    assert (head + MeshBytes(vs[1..]))[0..PosNorTexVertexBytes] == head;
  }

  /** Vertex `k` of a mesh-vertex vector occupies bytes [32k, 32k + 32) of its image. */
  lemma {:induction false} MeshBytesAt(vs: seq<PosNorTexVertex>, k: nat)
    requires k < |vs|
    ensures MeshBytes(vs)[PosNorTexVertexBytes * k..PosNorTexVertexBytes * k + PosNorTexVertexBytes] == PosNorTexBytes(vs[k])
    decreases k
  {
    if k == 0 {
      MeshBytesFirst(vs);
    } else {
      var tail := vs[1..];
      MeshBytesShift(vs, k);
      MeshBytesAt(tail, k - 1);
      assert tail[k - 1] == vs[k];
    }
  }

  // ---------------------------------------------------------------- uniform and storage records

  /** A 4x4 matrix of floats, column-major (mat4.hpp). */
  type Mat4 = seq<Float32>

  predicate IsMat4(m: Mat4)
  {
    |m| == 16
  }

  /** LinesPipeline::Camera: the clip-from-world matrix and nothing else, packed into 64 bytes. */
  const CameraBytes: nat := 64

  function CameraRecord(clipFromWorld: Mat4): (r: seq<Byte>)
    requires IsMat4(clipFromWorld)
    ensures |r| == CameraBytes
  {
    Words(clipFromWorld)
  }

  /** ObjectsPipeline::Transform: clip-from-local, world-from-local and its normal matrix. */
  datatype Transform = Transform(clipFromLocal: Mat4, worldFromLocal: Mat4, worldFromLocalNormal: Mat4)

  predicate WellFormed(t: Transform)
  {
    IsMat4(t.clipFromLocal) && IsMat4(t.worldFromLocal) && IsMat4(t.worldFromLocalNormal)
  }

  /** Three packed matrices: 192 bytes. */
  const TransformBytes: nat := 192

  function TransformRecord(t: Transform): (r: seq<Byte>)
    requires WellFormed(t)
    ensures |r| == TransformBytes
  {
    Words(t.clipFromLocal) + Words(t.worldFromLocal) + Words(t.worldFromLocalNormal)
  }

  /** ObjectVerticesInfo: a range of the object vertex buffer; both fields start at 0. */
  datatype ObjectVerticesInfo = ObjectVerticesInfo(first: nat, count: nat)

  const NoVertices: ObjectVerticesInfo := ObjectVerticesInfo(0, 0)

  /** ObjectInstance: which vertices to draw, where, and with which texture. */
  datatype ObjectInstance = ObjectInstance(vertices: ObjectVerticesInfo, transform: Transform, texture: nat)

  predicate WellFormedInstances(insts: seq<ObjectInstance>)
  {
    forall k | 0 <= k < |insts| :: WellFormed(insts[k].transform)
  }

  predicate TexturesIn(insts: seq<ObjectInstance>, textureCount: nat)
  {
    forall k | 0 <= k < |insts| :: insts[k].texture < textureCount
  }

  /** The transforms of the first `n` instances, in instance order, as the host writes them. */
  function TransformsBytes(insts: seq<ObjectInstance>, n: nat): (r: seq<Byte>)
    requires n <= |insts| && WellFormedInstances(insts)
    ensures |r| == TransformBytes * n
  {
    if n == 0 then [] else TransformsBytes(insts, n - 1) + TransformRecord(insts[n - 1].transform)
  }

  /** The transform of instance `k` occupies bytes [192k, 192k + 192) of the transforms image. */
  lemma {:induction false} TransformsBytesAt(insts: seq<ObjectInstance>, n: nat, k: nat)
    requires k < n <= |insts| && WellFormedInstances(insts)
    ensures TransformsBytes(insts, n)[TransformBytes * k..TransformBytes * k + TransformBytes] == TransformRecord(insts[k].transform)
    decreases n
  {
    var r := TransformsBytes(insts, n);
    assert r == TransformsBytes(insts, n - 1) + TransformRecord(insts[n - 1].transform);
    if k < n - 1 {
      TransformsBytesAt(insts, n - 1, k);
      assert r[..TransformBytes * (n - 1)] == TransformsBytes(insts, n - 1);
    }
  }

  // ---------------------------------------------------------------- the pattern type

  datatype PatternType = NonePattern | XPattern | GridPattern | BlackHolePattern

  /** The pattern a Tutorial starts with. */
  const DefaultPattern: PatternType := GridPattern

  // ---------------------------------------------------------------- the workspace

  /**
   * Workspace: the per-frame resources, one set per frame in flight.  The lines and
   * transforms pairs are streamed (staging buffer + device buffer, grown on demand);
   * the camera and world pairs have fixed sizes.
   */
  datatype Workspace = Workspace(
    commandBuffer: Handle,
    linesVerticesSrc: AllocatedBuffer, linesVertices: AllocatedBuffer,
    cameraSrc: AllocatedBuffer, camera: AllocatedBuffer, cameraDescriptors: Handle,
    worldSrc: AllocatedBuffer, world: AllocatedBuffer, worldDescriptors: Handle,
    transformsSrc: AllocatedBuffer, transforms: AllocatedBuffer, transformDescriptors: Handle)

  /** A default-constructed Workspace. */
  const FreshWorkspace: Workspace :=
    Workspace(NullHandle, NoBuffer, NoBuffer, NoBuffer, NoBuffer, NullHandle, NoBuffer, NoBuffer, NullHandle,
              NoBuffer, NoBuffer, NullHandle)

  // ---------------------------------------------------------------- the grow-if-needed policy

  /** A streamed pair is reallocated when its staging buffer is missing or too small. */
  predicate NeedsGrow(src: AllocatedBuffer, needed: nat)
  {
    src.handle == NullHandle || src.size < needed
  }

  /** The reallocated size: the next multiple of 4096 strictly above `needed`. */
  function NewBytes(needed: nat): (r: nat)
    ensures r % 4096 == 0 && needed < r <= needed + 4096
  {
    var q := (needed + 4096) / 4096;
    assert needed + 4096 == q * 4096 + (needed + 4096) % 4096;
    q * 4096
  }

  /** After a reallocation to NewBytes(n) the pair is big enough and the next frame of the same size does not grow it again. */
  lemma {:induction false} GrowSettles(src: AllocatedBuffer, needed: nat)
    requires src.handle != NullHandle && src.size == NewBytes(needed)
    ensures !NeedsGrow(src, needed)
    ensures forall m: nat | m <= needed :: !NeedsGrow(src, m)
  {
  }

  // ---------------------------------------------------------------- descriptor pool sizing

  /** The workspace descriptor pool: per workspace two uniform-buffer sets and one storage-buffer set. */
  function WorkspacePoolCapacity(workspaces: nat): PoolCounts
  {
    PoolCounts(3 * workspaces, 2 * workspaces, 1 * workspaces, 0)
  }

  /** The pool usage after `k` workspaces allocated their camera, world and transforms sets. */
  function WorkspaceSetsUsed(k: nat): PoolCounts
  {
    PoolCounts(3 * k, 2 * k, k, 0)
  }

  /**
   * Allocating the three sets of one more workspace moves the usage from k to k + 1
   * workspaces, and while k < n every one of the three allocations fits the pool.
   */
  lemma {:induction false} WorkspaceSetsFit(k: nat, n: nat)
    requires k < n
    ensures var c := WorkspacePoolCapacity(n); var u0 := WorkspaceSetsUsed(k);
      var u1 := AddSet(u0, UniformBuffer); var u2 := AddSet(u1, UniformBuffer); var u3 := AddSet(u2, StorageBuffer);
      Fits(u1, c) && Fits(u2, c) && Fits(u3, c) && u3 == WorkspaceSetsUsed(k + 1)
  {
  }

  /** Once every workspace has its sets the pool is exactly full: no further set of any type fits. */
  lemma {:induction false} WorkspacePoolExactlyFull(n: nat, t: DescriptorType)
    ensures WorkspaceSetsUsed(n) == WorkspacePoolCapacity(n)
    ensures !Fits(AddSet(WorkspaceSetsUsed(n), t), WorkspacePoolCapacity(n))
  {
  }

  /** The texture descriptor pool: one combined-image-sampler set per texture. */
  function TexturePoolCapacity(textures: nat): PoolCounts
  {
    PoolCounts(textures, 0, 0, textures)
  }

  /** The texture pool after `k` sets; while k < n the next set fits, and at n it is exactly full. */
  lemma {:induction false} TextureSetsFit(k: nat, n: nat, t: DescriptorType)
    requires k <= n
    ensures var u := PoolCounts(k, 0, 0, k);
      (k < n ==> Fits(AddSet(u, CombinedImageSampler), TexturePoolCapacity(n))
                 && AddSet(u, CombinedImageSampler) == PoolCounts(k + 1, 0, 0, k + 1))
      && (k == n ==> u == TexturePoolCapacity(n) && !Fits(AddSet(u, t), TexturePoolCapacity(n)))
  {
  }

  // ---------------------------------------------------------------- the frame's commands

  datatype DrawStage = Background | Lines | Objects

  /**
   * RenderCustom's choice of passes: None draws the background and the objects, BlackHole
   * draws the lines and then the background, any other pattern draws all three.
   */
  function DrawStages(p: PatternType): (r: seq<DrawStage>)
    ensures |r| > 0 && Background in r
    ensures (Lines in r) <==> p != NonePattern
    ensures (Objects in r) <==> p != BlackHolePattern
    ensures forall i, j | 0 <= i < j < |r| :: r[i] != r[j]
    ensures (p != BlackHolePattern) <==> r[0] == Background
  {
    match p
    case NonePattern => [Background, Objects]
    case BlackHolePattern => [Lines, Background]
    case _ => [Background, Lines, Objects]
  }

  /** A default Tutorial draws background, lines and objects in that order. */
  lemma {:induction false} DefaultFrameStages()
    ensures DrawStages(DefaultPattern) == [Background, Lines, Objects]
  {
  }

  /** sizeof(Push) of each pipeline: one float, the time. */
  const PushBytes: nat := 4

  /** RenderBackgroundPipeline: one full-screen triangle. */
  function BackgroundCmds(): seq<Cmd>
  {
    [BindPipeline(BackgroundPipeline), PushConstants(BackgroundPipeline, FragmentStage, PushBytes), Draw(3, 1, 0, 0)]
  }

  /** RenderLinesPipeline: every line vertex, from the workspace's device-side lines buffer, with the camera set bound. */
  function LinesCmds(w: Workspace, vertexCount: nat): seq<Cmd>
  {
    [BindPipeline(LinesPipeline), BindVertexBuffer(w.linesVertices.handle),
     BindDescriptorSets(LinesPipeline, 0, [w.cameraDescriptors]), PushConstants(LinesPipeline, VertexStage, PushBytes),
     Draw(vertexCount, 1, 0, 0)]
  }

  /** The two commands for instance `k`: bind its texture's set at set 2, draw its vertex range as instance `k`. */
  function InstanceDraw(inst: ObjectInstance, textureSets: seq<Handle>, k: nat): seq<Cmd>
    requires inst.texture < |textureSets|
  {
    [BindDescriptorSets(ObjectsPipeline, 2, [textureSets[inst.texture]]),
     Draw(inst.vertices.count, 1, inst.vertices.first, k)]
  }

  /** The draws of the first `n` instances, in order. */
  function InstanceDraws(insts: seq<ObjectInstance>, textureSets: seq<Handle>, n: nat): (r: seq<Cmd>)
    requires n <= |insts| && TexturesIn(insts, |textureSets|)
    ensures |r| == 2 * n
  {
    if n == 0 then [] else InstanceDraws(insts, textureSets, n - 1) + InstanceDraw(insts[n - 1], textureSets, n - 1)
  }

  /**
   * Instance `k` is drawn by commands 2k and 2k+1: its texture set bound at set 2, then
   * `count` vertices from `first` with firstInstance `k`.
   */
  lemma {:induction false} InstanceDrawsAt(insts: seq<ObjectInstance>, textureSets: seq<Handle>, n: nat, k: nat)
    requires k < n <= |insts| && TexturesIn(insts, |textureSets|)
    ensures InstanceDraws(insts, textureSets, n)[2 * k] == BindDescriptorSets(ObjectsPipeline, 2, [textureSets[insts[k].texture]])
    ensures InstanceDraws(insts, textureSets, n)[2 * k + 1] == Draw(insts[k].vertices.count, 1, insts[k].vertices.first, k)
    decreases n
  {
    if k < n - 1 {
      InstanceDrawsAt(insts, textureSets, n - 1, k);
    }
  }

  /** The objects pass's commands before the per-instance draws. */
  function ObjectsHead(w: Workspace, objectVertices: Handle, insts: seq<ObjectInstance>): seq<Cmd>
  {
    (if |insts| > 0 then [BindPipeline(ObjectsPipeline)] else [])
    + [BindVertexBuffer(objectVertices), BindDescriptorSets(ObjectsPipeline, 0, [w.worldDescriptors, w.transformDescriptors]),
       PushConstants(ObjectsPipeline, VertexAndFragmentStages, PushBytes)]
  }

  /** RenderObjectsPipeline. */
  function ObjectsCmds(w: Workspace, objectVertices: Handle, insts: seq<ObjectInstance>, textureSets: seq<Handle>): seq<Cmd>
    requires TexturesIn(insts, |textureSets|)
  {
    ObjectsHead(w, objectVertices, insts) + InstanceDraws(insts, textureSets, |insts|)
  }

  /** What the draw state of one frame is made of. */
  datatype DrawInputs = DrawInputs(pattern: PatternType, lineCount: nat, objectVertices: Handle,
                                   instances: seq<ObjectInstance>, textureSets: seq<Handle>)

  predicate DrawInputsOk(d: DrawInputs)
  {
    TexturesIn(d.instances, |d.textureSets|)
  }

  function StageCmds(s: DrawStage, w: Workspace, d: DrawInputs): seq<Cmd>
    requires DrawInputsOk(d)
  {
    match s
    case Background => BackgroundCmds()
    case Lines => LinesCmds(w, d.lineCount)
    case Objects => ObjectsCmds(w, d.objectVertices, d.instances, d.textureSets)
  }

  function StagesCmds(stages: seq<DrawStage>, w: Workspace, d: DrawInputs): seq<Cmd>
    requires DrawInputsOk(d)
  {
    if stages == [] then [] else StageCmds(stages[0], w, d) + StagesCmds(stages[1..], w, d)
  }

  /** The commands inside the render pass: the passes DrawStages picks, in its order. */
  function CustomCmds(w: Workspace, d: DrawInputs): seq<Cmd>
    requires DrawInputsOk(d)
  {
    StagesCmds(DrawStages(d.pattern), w, d)
  }

  /** The frame's barrier: transfer writes complete before vertex input reads. */
  const FrameBarrier: Cmd := MemoryBarrier(Transfer, VertexInput, MemoryWrite, MemoryRead)

  /**
   * The copies of one frame, in order: lines (only when there are line vertices), camera,
   * world, and transforms (only on a frame that reallocated the transforms pair).
   */
  function UploadCmds(w: Workspace, linesBytes: nat, transformsBytes: nat, copyTransforms: bool): seq<Cmd>
  {
    (if linesBytes > 0 then [CopyBuffer(w.linesVerticesSrc.handle, w.linesVertices.handle, 0, 0, linesBytes)] else [])
    + [CopyBuffer(w.cameraSrc.handle, w.camera.handle, 0, 0, w.cameraSrc.size),
       CopyBuffer(w.worldSrc.handle, w.world.handle, 0, 0, w.worldSrc.size)]
    + (if copyTransforms then [CopyBuffer(w.transformsSrc.handle, w.transforms.handle, 0, 0, transformsBytes)] else [])
  }

  /** The render pass of one frame around `draws`, with scissor and viewport covering `extent`. */
  function PassCmds(renderPass: Handle, framebuffer: Handle, extent: Extent2D, draws: seq<Cmd>): seq<Cmd>
  {
    [BeginRenderPass(renderPass, framebuffer, extent), SetScissor(extent), SetViewport(extent)] + draws + [EndRenderPass]
  }

  /** Everything one frame records into the workspace's command buffer. */
  function FrameCmds(w: Workspace, linesBytes: nat, transformsBytes: nat, copyTransforms: bool,
                     renderPass: Handle, framebuffer: Handle, extent: Extent2D, d: DrawInputs): seq<Cmd>
    requires DrawInputsOk(d)
  {
    UploadCmds(w, linesBytes, transformsBytes, copyTransforms) + [FrameBarrier]
    + PassCmds(renderPass, framebuffer, extent, CustomCmds(w, d))
  }

  /** A command that touches no memory when executed: neither a copy nor a barrier. */
  predicate DrawOnly(c: Cmd)
  {
    !(c.CopyBuffer? || c.CopyBufferToImage? || c.MemoryBarrier? || c.ImageBarrier?)
  }

  predicate AllDrawOnly(cmds: seq<Cmd>)
  {
    forall i | 0 <= i < |cmds| :: DrawOnly(cmds[i])
  }

  lemma {:induction false} InstanceDrawsDrawOnly(insts: seq<ObjectInstance>, textureSets: seq<Handle>, n: nat)
    requires n <= |insts| && TexturesIn(insts, |textureSets|)
    ensures AllDrawOnly(InstanceDraws(insts, textureSets, n))
    decreases n
  {
    if n > 0 {
      InstanceDrawsDrawOnly(insts, textureSets, n - 1);
    }
  }

  lemma {:induction false} StagesDrawOnly(stages: seq<DrawStage>, w: Workspace, d: DrawInputs)
    requires DrawInputsOk(d)
    ensures AllDrawOnly(StagesCmds(stages, w, d))
    decreases |stages|
  {
    if stages != [] {
      StagesDrawOnly(stages[1..], w, d);
      if stages[0] == Objects {
        InstanceDrawsDrawOnly(d.instances, d.textureSets, |d.instances|);
      }
    }
  }

  /**
   * The frame's command order: all copies first (one each for lines when there are line
   * vertices, camera, world, and transforms when copied), then exactly one barrier, then
   * the render pass, opened with scissor and viewport set to the swapchain extent and
   * closed last; nothing after the barrier copies or synchronises.
   */
  lemma {:induction false} FrameOrder(w: Workspace, linesBytes: nat, transformsBytes: nat, copyTransforms: bool,
                                      renderPass: Handle, framebuffer: Handle, extent: Extent2D, d: DrawInputs)
    requires DrawInputsOk(d)
    ensures var f := FrameCmds(w, linesBytes, transformsBytes, copyTransforms, renderPass, framebuffer, extent, d);
      var u := (if linesBytes > 0 then 1 else 0) + 2 + (if copyTransforms then 1 else 0);
      && u + 5 <= |f|
      && (forall i | 0 <= i < u :: f[i].CopyBuffer? && f[i].srcOffset == 0 && f[i].dstOffset == 0)
      && f[u] == FrameBarrier
      && (forall i | u < i < |f| :: DrawOnly(f[i]))
      && f[u + 1] == BeginRenderPass(renderPass, framebuffer, extent)
      && f[u + 2] == SetScissor(extent) && f[u + 3] == SetViewport(extent)
      && f[|f| - 1] == EndRenderPass
      && (forall i | 0 <= i < |f| && f[i].MemoryBarrier? :: i == u)
  {
    var up := UploadCmds(w, linesBytes, transformsBytes, copyTransforms);
    var draws := CustomCmds(w, d);
    StagesDrawOnly(DrawStages(d.pattern), w, d);
    var f := FrameCmds(w, linesBytes, transformsBytes, copyTransforms, renderPass, framebuffer, extent, d);
    var u := |up|;
    assert f == up + [FrameBarrier] + [BeginRenderPass(renderPass, framebuffer, extent), SetScissor(extent), SetViewport(extent)]
                + draws + [EndRenderPass];
    forall i | u + 4 <= i < |f| - 1
      ensures f[i] == draws[i - u - 4]
    {
    }
  }

  /** RunCmds over a concatenation runs the two parts in turn. */
  lemma {:induction false} RunCmdsAppend(a: seq<Cmd>, b: seq<Cmd>, s: State)
    ensures RunCmds(a + b, s) == RunCmds(b, RunCmds(a, s))
    decreases |a|
  {
    if a != [] {
      assert (a + b)[1..] == a[1..] + b;
      RunCmdsAppend(a[1..], b, RunCmd(a[0], s));
    } else {
      assert a + b == b;
    }
  }

  /** Commands that neither copy nor synchronise change nothing when executed. */
  lemma {:induction false} RunDrawOnly(cmds: seq<Cmd>, s: State)
    requires AllDrawOnly(cmds)
    ensures RunCmds(cmds, s) == s
    decreases |cmds|
  {
    if cmds != [] {
      assert DrawOnly(cmds[0]);
      RunDrawOnly(cmds[1..], s);
    }
  }

  /** Executing a frame has exactly the effect of its copies: the barrier and the render pass change no memory. */
  lemma {:induction false} FrameEffect(w: Workspace, linesBytes: nat, transformsBytes: nat, copyTransforms: bool,
                                       renderPass: Handle, framebuffer: Handle, extent: Extent2D, d: DrawInputs, s: State)
    requires DrawInputsOk(d)
    ensures RunCmds(FrameCmds(w, linesBytes, transformsBytes, copyTransforms, renderPass, framebuffer, extent, d), s)
         == RunCmds(UploadCmds(w, linesBytes, transformsBytes, copyTransforms), s)
  {
    var up := UploadCmds(w, linesBytes, transformsBytes, copyTransforms);
    var rest := [FrameBarrier] + PassCmds(renderPass, framebuffer, extent, CustomCmds(w, d));
    StagesDrawOnly(DrawStages(d.pattern), w, d);
    var tail := PassCmds(renderPass, framebuffer, extent, CustomCmds(w, d));
    assert AllDrawOnly(tail) by {
      forall i | 0 <= i < |tail|
        ensures DrawOnly(tail[i])
      {
        if 3 <= i < |tail| - 1 {
          assert tail[i] == CustomCmds(w, d)[i - 3];
        }
      }
    }
    assert FrameCmds(w, linesBytes, transformsBytes, copyTransforms, renderPass, framebuffer, extent, d) == up + rest;
    RunCmdsAppend(up, rest, s);
    var s1 := RunCmds(up, s);
    assert RunCmds(rest, s1) == RunCmds(tail, RunCmd(FrameBarrier, s1));
    RunDrawOnly(tail, s1);
  }

  // ---------------------------------------------------------------- the line patterns

  const White: Color := Color(0xff, 0xff, 0xff, 0xff)
  const Red: Color := Color(0xff, 0x00, 0x00, 0xff)
  const Blue: Color := Color(0x00, 0x00, 0xff, 0xff)
  const Yellow: Color := Color(0xff, 0xff, 0x00, 0xff)
  const Violet: Color := Color(0x44, 0x00, 0xff, 0xff)

  // Bit patterns of the float constants the builders use.
  const MinusOne: Float32 := 0xBF80_0000
  const One: Float32 := 0x3F80_0000
  const Zero: Float32 := 0
  const Half: Float32 := 0x3F00_0000

  /** MakePatternX's two crossing lines. */
  function CrossVertices(): seq<PosColVertex>
  {
    [PosColVertex(Vec3(MinusOne, MinusOne, Zero), White), PosColVertex(Vec3(One, One, Zero), Red),
     PosColVertex(Vec3(MinusOne, One, Zero), Blue), PosColVertex(Vec3(One, MinusOne, Zero), Blue)]
  }

  /** The pieces joined end to end, in order. */
  function Flatten<T>(pieces: seq<seq<T>>): seq<T>
  {
    if |pieces| == 0 then [] else Flatten(pieces[..|pieces| - 1]) + pieces[|pieces| - 1]
  }

  /** Joining one more piece appends it. */
  lemma {:induction false} FlattenSnoc<T>(pieces: seq<seq<T>>, n: nat)
    requires n < |pieces|
    ensures Flatten(pieces[..n + 1]) == Flatten(pieces[..n]) + pieces[n]
  {
    assert pieces[..n + 1][..n] == pieces[..n];
  }

  /** Joining the first n pieces of width w gives w * n elements. */
  lemma {:induction false} FlattenLength<T>(pieces: seq<seq<T>>, w: nat, n: nat)
    requires n <= |pieces| && forall i | 0 <= i < |pieces| :: |pieces[i]| == w
    ensures |Flatten(pieces[..n])| == w * n
  {
    if n > 0 {
      FlattenLength(pieces, w, n - 1);
      FlattenSnoc(pieces, n - 1);
      assert w * n == w * (n - 1) + w;
    }
  }

  /** Every vertex of the joined pieces has colour c when every vertex of every piece has. */
  lemma {:induction false} FlattenColor(pieces: seq<seq<PosColVertex>>, c: Color)
    requires forall i, j | 0 <= i < |pieces| && 0 <= j < |pieces[i]| :: pieces[i][j].color == c
    ensures forall m | 0 <= m < |Flatten(pieces)| :: Flatten(pieces)[m].color == c
  {
    if |pieces| > 0 {
      var init := pieces[..|pieces| - 1];
      FlattenColor(init, c);
      var last := pieces[|pieces| - 1];
      assert Flatten(pieces) == Flatten(init) + last;
      forall m | 0 <= m < |Flatten(pieces)|
        ensures Flatten(pieces)[m].color == c
      {
        if m >= |Flatten(init)| {
          assert Flatten(pieces)[m] == last[m - |Flatten(init)|];
        }
      }
    }
  }

  const GridLines: nat := 30

  /** Horizontal grid line i at depth 0.5, yellow, from x = -1 to x = 1; `coord(i)` is the float (i + 0.5) / 30 * 2 - 1. */
  function HorizontalLine(coord: nat -> Float32, i: nat): seq<PosColVertex>
  {
    [PosColVertex(Vec3(MinusOne, coord(i), Half), Yellow), PosColVertex(Vec3(One, coord(i), Half), Yellow)]
  }

  /** Vertical grid line i, violet, from y = -1 to y = 1 at depth `depth(i)` = (i + 0.5) / 30. */
  function VerticalLine(coord: nat -> Float32, depth: nat -> Float32, i: nat): seq<PosColVertex>
  {
    [PosColVertex(Vec3(coord(i), MinusOne, depth(i)), Violet), PosColVertex(Vec3(coord(i), One, depth(i)), Violet)]
  }

  function HorizontalLines(coord: nat -> Float32): seq<seq<PosColVertex>>
  {
    seq(GridLines, i requires 0 <= i => HorizontalLine(coord, i))
  }

  function VerticalLines(coord: nat -> Float32, depth: nat -> Float32): seq<seq<PosColVertex>>
  {
    seq(GridLines, i requires 0 <= i => VerticalLine(coord, depth, i))
  }

  /** MakePatternGrid's vertices: the horizontal lines, then the vertical ones. */
  function GridVertices(coord: nat -> Float32, depth: nat -> Float32): seq<PosColVertex>
  {
    Flatten(HorizontalLines(coord)) + Flatten(VerticalLines(coord, depth))
  }

  /** The grid has 2 * 30 + 2 * 30 vertices: the first 60 yellow at depth 0.5, the last 60 violet. */
  lemma {:induction false} GridCount(coord: nat -> Float32, depth: nat -> Float32)
    ensures var g := GridVertices(coord, depth);
      |g| == 120
      && (forall k | 0 <= k < 60 :: g[k].color == Yellow)
      && (forall k | 60 <= k < 120 :: g[k].color == Violet)
  {
    var hs := HorizontalLines(coord);
    var vs := VerticalLines(coord, depth);
    FlattenLength(hs, 2, GridLines);
    FlattenLength(vs, 2, GridLines);
    assert hs[..GridLines] == hs && vs[..GridLines] == vs;
    FlattenColor(hs, Yellow);
    FlattenColor(vs, Violet);
    var g := GridVertices(coord, depth);
    assert forall k | 60 <= k < 120 :: g[k] == Flatten(vs)[k - 60];
  }

  // The spiral arcs of MakePatternBlackHole: 46 spirals of 16 arcs, arc i of 32 + i points.
  const Spirals: nat := 46
  const ArcsPerSpiral: nat := 16
  const FirstArcPoints: nat := 32

  /** Arc `i` of spiral `k`: 32 + i white points; `point(k, i, j)` is the float position of point `j`. */
  function Arc(point: (nat, nat, nat) -> Vec3, k: nat, i: nat): seq<PosColVertex>
  {
    seq(FirstArcPoints + i, j requires 0 <= j => PosColVertex(point(k, i, j), White))
  }

  /** The 16 arcs of spiral `k`. */
  function ArcList(point: (nat, nat, nat) -> Vec3, k: nat): seq<seq<PosColVertex>>
  {
    seq(ArcsPerSpiral, i requires 0 <= i => Arc(point, k, i))
  }

  /** The 46 spirals. */
  function SpiralList(point: (nat, nat, nat) -> Vec3): seq<seq<PosColVertex>>
  {
    seq(Spirals, k requires 0 <= k => Flatten(ArcList(point, k)))
  }

  /** MakePatternBlackHole's vertices. */
  function BlackHoleVertices(point: (nat, nat, nat) -> Vec3): seq<PosColVertex>
  {
    Flatten(SpiralList(point))
  }

  /** 32 + 33 + ... + (32 + n - 1): the points of the first n arcs of a spiral. */
  function ArcPoints(n: nat): nat
  {
    if n == 0 then 0 else ArcPoints(n - 1) + FirstArcPoints + (n - 1)
  }

  /** 32 + 33 + ... + (32 + n - 1) == 32n + n(n-1)/2. */
  lemma {:induction false} ArcPointsClosed(n: nat)
    ensures 2 * ArcPoints(n) == 2 * FirstArcPoints * n + n * n - n
  {
    if n > 0 {
      ArcPointsClosed(n - 1);
      assert (n - 1) * (n - 1) == n * n - 2 * n + 1;
    }
  }

  /** Arc i has 32 + i points. */
  lemma {:induction false} ArcsLength(point: (nat, nat, nat) -> Vec3, k: nat, n: nat)
    requires n <= ArcsPerSpiral
    ensures |Flatten(ArcList(point, k)[..n])| == ArcPoints(n)
  {
    if n > 0 {
      ArcsLength(point, k, n - 1);
      FlattenSnoc(ArcList(point, k), n - 1);
    }
  }

  /** A spiral has 32 + 33 + ... + 47 = 632 white points. */
  lemma {:induction false} SpiralShape(point: (nat, nat, nat) -> Vec3, k: nat)
    ensures |Flatten(ArcList(point, k))| == 632
    ensures forall m | 0 <= m < 632 :: Flatten(ArcList(point, k))[m].color == White
  {
    var arcs := ArcList(point, k);
    ArcsLength(point, k, ArcsPerSpiral);
    ArcPointsClosed(ArcsPerSpiral);
    assert arcs[..ArcsPerSpiral] == arcs;
    FlattenColor(arcs, White);
  }

  /** The black hole has 46 * 632 = 29072 vertices, all white. */
  lemma {:induction false} BlackHoleShape(point: (nat, nat, nat) -> Vec3)
    ensures |BlackHoleVertices(point)| == 29072
    ensures forall m | 0 <= m < 29072 :: BlackHoleVertices(point)[m].color == White
  {
    var spirals: seq<seq<PosColVertex>> := SpiralList(point);
    forall k | 0 <= k < |spirals|
      ensures |spirals[k]| == 632 && forall m | 0 <= m < 632 :: spirals[k][m].color == White
    {
      SpiralShape(point, k);
    }
    FlattenLength(spirals, 632, Spirals);
    assert spirals[..Spirals] == spirals;
    FlattenColor(spirals, White);
  }

  // ---------------------------------------------------------------- the meshes

  const PlaneZ: Float32 := 0xBE0F_5C29
  const PlaneExtent: Float32 := 0x42C8_0000
  const MinusPlaneExtent: Float32 := 0xC2C8_0000

  function PlaneCorner(x: Float32, y: Float32, u: Float32, v: Float32): PosNorTexVertex
  {
    PosNorTexVertex(Vec3(x, y, PlaneZ), Vec3(Zero, Zero, One), TexCoord(u, v))
  }

  /** InstantializePlane's two triangles: a 200 x 200 square at z = -0.14 facing +z, texture repeated 100 times. */
  function PlaneVerticesList(): seq<PosNorTexVertex>
  {
    [PlaneCorner(MinusPlaneExtent, MinusPlaneExtent, Zero, Zero), PlaneCorner(PlaneExtent, MinusPlaneExtent, PlaneExtent, Zero),
     PlaneCorner(MinusPlaneExtent, PlaneExtent, Zero, PlaneExtent),
     PlaneCorner(PlaneExtent, PlaneExtent, PlaneExtent, PlaneExtent), PlaneCorner(MinusPlaneExtent, PlaneExtent, Zero, PlaneExtent),
     PlaneCorner(PlaneExtent, MinusPlaneExtent, PlaneExtent, Zero)]
  }

  const TorusUSteps: nat := 20
  const TorusVSteps: nat := 16

  /**
   * The two triangles of torus grid cell (ui, vi); `vertex(ui, vi)` is emplace_vertex's float
   * vertex for the raw step indices (which may reach U_STEPS and V_STEPS).
   */
  function TorusQuad(vertex: (nat, nat) -> PosNorTexVertex, ui: nat, vi: nat): seq<PosNorTexVertex>
  {
    [vertex(ui, vi), vertex(ui + 1, vi), vertex(ui, vi + 1), vertex(ui, vi + 1), vertex(ui + 1, vi), vertex(ui + 1, vi + 1)]
  }

  /** The cells (ui, 0) .. (ui, 15) of ring ui. */
  function TorusCells(vertex: (nat, nat) -> PosNorTexVertex, ui: nat): seq<seq<PosNorTexVertex>>
  {
    seq(TorusVSteps, vi requires 0 <= vi => TorusQuad(vertex, ui, vi))
  }

  /** The rings 0 .. 19, each its cells joined. */
  function TorusRingList(vertex: (nat, nat) -> PosNorTexVertex): seq<seq<PosNorTexVertex>>
  {
    seq(TorusUSteps, ui requires 0 <= ui => Flatten(TorusCells(vertex, ui)))
  }

  /** InstantializeTorus's vertices: 20 rings of 16 cells of two triangles. */
  function TorusVerticesList(vertex: (nat, nat) -> PosNorTexVertex): seq<PosNorTexVertex>
  {
    Flatten(TorusRingList(vertex))
  }

  /** Joining a prefix of the pieces gives a prefix of their join. */
  lemma {:induction false} FlattenPrefix<T>(pieces: seq<seq<T>>, n: nat)
    requires n <= |pieces|
    ensures |Flatten(pieces[..n])| <= |Flatten(pieces)|
    ensures Flatten(pieces)[..|Flatten(pieces[..n])|] == Flatten(pieces[..n])
    decreases |pieces|
  {
    if n < |pieces| {
      var init := pieces[..|pieces| - 1];
      assert init[..n] == pieces[..n];
      FlattenPrefix(init, n);
      assert Flatten(pieces) == Flatten(init) + pieces[|pieces| - 1];
    } else {
      assert pieces[..n] == pieces;
    }
  }

  /** Piece i sits in the join right after the pieces before it. */
  lemma {:induction false} FlattenSlice<T>(pieces: seq<seq<T>>, i: nat)
    requires i < |pieces|
    ensures |Flatten(pieces[..i])| + |pieces[i]| <= |Flatten(pieces)|
    ensures Flatten(pieces)[|Flatten(pieces[..i])|..|Flatten(pieces[..i])| + |pieces[i]|] == pieces[i]
  {
    FlattenPrefix(pieces, i + 1);
    FlattenSnoc(pieces, i);
    var before := Flatten(pieces[..i]);
    var upTo := Flatten(pieces[..i + 1]);
    assert upTo[|before|..] == pieces[i];
    assert Flatten(pieces)[|before|..|before| + |pieces[i]|] == upTo[|before|..];
  }

  /** A ring has 16 cells of 6 vertices. */
  lemma {:induction false} RingLength(vertex: (nat, nat) -> PosNorTexVertex, ui: nat)
    ensures |Flatten(TorusCells(vertex, ui))| == 96
  {
    FlattenLength(TorusCells(vertex, ui), 6, TorusVSteps);
    assert TorusCells(vertex, ui)[..TorusVSteps] == TorusCells(vertex, ui);
  }

  /** In a join of pieces of width w, piece i occupies [w i, w i + w). */
  lemma {:induction false} FlattenUniformAt<T>(pieces: seq<seq<T>>, w: nat, i: nat)
    requires i < |pieces| && forall j | 0 <= j < |pieces| :: |pieces[j]| == w
    ensures w * i + w <= |Flatten(pieces)|
    ensures Flatten(pieces)[w * i..w * i + w] == pieces[i]
  {
    FlattenSlice(pieces, i);
    FlattenLength(pieces, w, i);
  }

  /** Ring ui of the torus is drawn by vertices [96 ui, 96 ui + 96). */
  lemma {:induction false} TorusRingAt(vertex: (nat, nat) -> PosNorTexVertex, ui: nat)
    requires ui < TorusUSteps
    ensures 96 * ui + 96 <= |TorusVerticesList(vertex)|
    ensures TorusVerticesList(vertex)[96 * ui..96 * ui + 96] == Flatten(TorusCells(vertex, ui))
  {
    var rings := TorusRingList(vertex);
    forall j | 0 <= j < |rings|
      ensures |rings[j]| == 96
    {
      RingLength(vertex, j);
    }
    FlattenUniformAt(rings, 96, ui);
  }

  /** Cell vi of ring ui is vertices [6 vi, 6 vi + 6) of the ring. */
  lemma {:induction false} TorusQuadAt(vertex: (nat, nat) -> PosNorTexVertex, ui: nat, vi: nat)
    requires vi < TorusVSteps
    ensures 6 * vi + 6 <= |Flatten(TorusCells(vertex, ui))|
    ensures Flatten(TorusCells(vertex, ui))[6 * vi..6 * vi + 6] == TorusQuad(vertex, ui, vi)
  {
    FlattenUniformAt(TorusCells(vertex, ui), 6, vi);
  }

  /** Cell (ui, vi) of the torus is drawn by vertices [96 ui + 6 vi, 96 ui + 6 vi + 6). */
  lemma {:induction false} TorusCellAt(vertex: (nat, nat) -> PosNorTexVertex, ui: nat, vi: nat)
    requires ui < TorusUSteps && vi < TorusVSteps
    ensures 96 * ui + 6 * vi + 6 <= |TorusVerticesList(vertex)|
    ensures TorusVerticesList(vertex)[96 * ui + 6 * vi..96 * ui + 6 * vi + 6] == TorusQuad(vertex, ui, vi)
  {
    TorusRingAt(vertex, ui);
    TorusQuadAt(vertex, ui, vi);
    SliceOfSlice(TorusVerticesList(vertex), 96 * ui, 96 * ui + 96, 6 * vi, 6 * vi + 6);
  }

  /** The torus has 20 * 16 * 6 = 1920 vertices. */
  lemma {:induction false} TorusCount(vertex: (nat, nat) -> PosNorTexVertex)
    ensures |TorusVerticesList(vertex)| == 1920
  {
    var rings := TorusRingList(vertex);
    forall j | 0 <= j < |rings|
      ensures |rings[j]| == 96
    {
      RingLength(vertex, j);
    }
    FlattenLength(rings, 96, TorusUSteps);
    assert rings[..TorusUSteps] == rings;
  }
}
