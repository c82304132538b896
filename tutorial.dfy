/**
 * The renderer (Tutorial.cpp): its device-facing fields, the invariant tying them to the
 * device, the pattern and mesh builders, the per-frame update of the host-side state,
 * and the recording of a frame into a workspace's command buffer.
 */
module Tutorial {
  import opened Vulkan
  import opened Device
  import opened Helpers
  import opened TutorialTypes
  import opened TutorialScene
  import opened TutorialFrame
  import opened TutorialTeardown
  import opened TutorialSetup

  /** 2^32: uint32_t values wrap modulo this. */
  const U32: nat := 0x1_0000_0000

  /** `uint32_t(after) - first` in uint32_t arithmetic, `first` being `uint32_t(before)`. */
  function Uint32Growth(before: nat, after: nat): nat
  {
    ((after % U32) - (before % U32)) % U32
  }

  /** The uint32_t growth of a size is its true growth when that is below 2^32. */
  lemma {:induction false} Uint32GrowthExact(a: nat, b: nat, c: nat)
    requires b == a + c && c < U32
    ensures Uint32Growth(a, b) == c
  {
    var q := a / U32;
    var r := a % U32;
    assert a == q * U32 + r;
    if r + c < U32 {
      assert b % U32 == r + c by {
        assert b == q * U32 + (r + c);
      }
    } else {
      assert b % U32 == r + c - U32 by {
        assert b == (q + 1) * U32 + (r + c - U32);
      }
      assert (r + c - U32 - r) % U32 == (c - U32) % U32;
      assert c - U32 == -1 * U32 + c;
    }
  }

  lemma {:induction false} SmallMod(n: nat)
    requires n < U32
    ensures n % U32 == n
  {
  }

  /** `size - first` in size_t arithmetic converted to uint32_t, `first` being `uint32_t(before)`. */
  function SizeGrowth(before: nat, after: nat): nat
    requires before <= after
  {
    (after - before % U32) % U32
  }

  /** Taking away the part of `before` that is a multiple of 2^32 leaves the growth modulo 2^32. */
  lemma {:induction false} SizeGrowthExact(a: nat, b: nat, c: nat)
    requires b == a + c && c < U32
    ensures SizeGrowth(a, b) == c
  {
    var q := a / U32;
    assert a == q * U32 + a % U32;
    assert b - a % U32 == q * U32 + c;
  }

  lemma {:induction false} SliceOfAppend<T>(a: seq<T>, b: seq<T>, s: seq<T>, i: nat, j: nat)
    requires s == a + b && i == |a| && j == i + |b|
    ensures j <= |s| && s[i..j] == b
  {
  }

  // ---------------------------------------------------------------- steps of the builders' loops

  /** Appending the two vertices of line i extends the joined lines before it by line i. */
  lemma {:induction false} NextLine(before: seq<PosColVertex>, lines: seq<seq<PosColVertex>>, i: nat,
                                    a: PosColVertex, b: PosColVertex)
    requires i < |lines| && lines[i] == [a, b]
    ensures before + Flatten(lines[..i]) + [a] + [b] == before + Flatten(lines[..i + 1])
  {
    FlattenSnoc(lines, i);
  }

  lemma {:induction false} NoPieces<T>(before: seq<T>, pieces: seq<seq<T>>)
    ensures before + Flatten(pieces[..0]) == before
  {
    assert pieces[..0] == [];
  }

  lemma {:induction false} AllPieces<T>(pieces: seq<seq<T>>, n: nat)
    requires n == |pieces|
    ensures Flatten(pieces[..n]) == Flatten(pieces)
  {
    assert pieces[..n] == pieces;
  }

  lemma {:induction false} ArcStep(before: seq<PosColVertex>, point: (nat, nat, nat) -> Vec3, k: nat, i: nat, j: nat)
    requires j < FirstArcPoints + i
    ensures before + Arc(point, k, i)[..j] + [PosColVertex(point(k, i, j), White)] == before + Arc(point, k, i)[..j + 1]
  {
    assert Arc(point, k, i)[..j + 1] == Arc(point, k, i)[..j] + [PosColVertex(point(k, i, j), White)];
  }

  lemma {:induction false} NextArc(before: seq<PosColVertex>, point: (nat, nat, nat) -> Vec3, k: nat, i: nat, n: nat)
    requires i < ArcsPerSpiral && n == FirstArcPoints + i
    ensures before + Flatten(ArcList(point, k)[..i]) + Arc(point, k, i)[..n] == before + Flatten(ArcList(point, k)[..i + 1])
  {
    FlattenSnoc(ArcList(point, k), i);
    assert Arc(point, k, i)[..n] == Arc(point, k, i);
  }

  lemma {:induction false} NextSpiral(point: (nat, nat, nat) -> Vec3, k: nat, i: nat)
    requires k < Spirals && i == ArcsPerSpiral
    ensures Flatten(SpiralList(point)[..k]) + Flatten(ArcList(point, k)[..i]) == Flatten(SpiralList(point)[..k + 1])
  {
    AllPieces(ArcList(point, k), i);
    FlattenSnoc(SpiralList(point), k);
  }

  lemma {:induction false} NextCell(before: seq<PosNorTexVertex>, vertex: (nat, nat) -> PosNorTexVertex, ui: nat, vi: nat)
    requires vi < TorusVSteps
    ensures before + Flatten(TorusCells(vertex, ui)[..vi])
            + [vertex(ui, vi), vertex(ui + 1, vi), vertex(ui, vi + 1), vertex(ui, vi + 1), vertex(ui + 1, vi), vertex(ui + 1, vi + 1)]
         == before + Flatten(TorusCells(vertex, ui)[..vi + 1])
  {
    FlattenSnoc(TorusCells(vertex, ui), vi);
  }

  lemma {:induction false} NextRing(before: seq<PosNorTexVertex>, vertex: (nat, nat) -> PosNorTexVertex, ui: nat, vi: nat)
    requires ui < TorusUSteps && vi == TorusVSteps
    ensures before + Flatten(TorusRingList(vertex)[..ui]) + Flatten(TorusCells(vertex, ui)[..vi])
         == before + Flatten(TorusRingList(vertex)[..ui + 1])
  {
    AllPieces(TorusCells(vertex, ui), vi);
    FlattenSnoc(TorusRingList(vertex), ui);
  }

  /** The plane's world-from-local matrix: the identity translated by one unit along +x. */
  const PlaneWorld: Mat4 :=
    [One, Zero, Zero, Zero,  Zero, One, Zero, Zero,  Zero, Zero, One, Zero,  One, Zero, Zero, One]

  /**
   * The two instances update() makes: the plane with texture 1, the torus with texture 0
   * (its designated initializer leaves Texture at zero).
   */
  function SceneInstances(plane: ObjectVerticesInfo, torus: ObjectVerticesInfo, clipFromWorld: Mat4,
                          torusWorld: Mat4, mul: (Mat4, Mat4) -> Mat4): (r: seq<ObjectInstance>)
    ensures |r| == 2 && r[0].vertices == plane && r[1].vertices == torus
    ensures r[0].texture == 1 && r[1].texture == 0 && TexturesIn(r, 2)
    ensures IsMat4(mul(clipFromWorld, PlaneWorld)) && IsMat4(mul(clipFromWorld, torusWorld)) && IsMat4(torusWorld)
            ==> WellFormedInstances(r)
  {
    [ObjectInstance(plane, Transform(mul(clipFromWorld, PlaneWorld), PlaneWorld, PlaneWorld), 1),
     ObjectInstance(torus, Transform(mul(clipFromWorld, torusWorld), torusWorld, torusWorld), 0)]
  }

  /**
   * A frame on workspace `i` keeps the Tutorial's invariant once the new workspace replaces
   * the old one, and leaves the helpers' transfer command buffer as it was.
   */
  lemma {:induction false} FrameKeepsScene(sc: Scene, i: nat, w2: Workspace, o0: Owners, o2: Owners, s0: State, s1: State)
    requires i < |sc.workspaces| && SceneOk(sc, s0, o0)
    requires Stable(s0, s1, FrameGone(sc.workspaces[i])) && InWorkspaceOnly(o0, FrameGone(sc.workspaces[i]), i)
    requires AgreeOutside(o0, o2, i) && OwnedPresent(o2, s1)
    requires WorkspaceLive(w2, s1, sc.commandPool, sc.descriptorPool, sc.worldBytes) && WorkspaceOwned(o2, w2, i)
    ensures SceneOk(sc.(workspaces := sc.workspaces[i := w2]), s1, o2)
    ensures Kept(s0, s1, sc.transferBuffer)
  {
    var gone := FrameGone(sc.workspaces[i]);
    SceneOkParts(sc, s0, o0);
    assert sc.transferBuffer !in gone by {
      assert o0[sc.transferBuffer] == InScene(TransferBufferItem, 0, false);
    }
    ReplaceWorkspace(sc, i, w2, o0, o2, s0, s1, gone);
  }

  /**
   * One frame of the Tutorial's scene on workspace `i`: the frame keeps the invariant with the
   * workspace replaced, and leaves the helpers ready.
   */
  method SceneFrame(helpers: Helpers, ghost sc: Scene, ghost i: nat, w: Workspace, renderPass: Handle,
                    lines: seq<PosColVertex>, camera: seq<Byte>, world: seq<Byte>, insts: seq<ObjectInstance>,
                    framebuffer: Handle, extent: Extent2D, d: DrawInputs,
                    imageAvailable: Handle, imageDone: Handle, workspaceAvailable: Handle, ghost o: Owners)
    returns (w2: Workspace, ghost o2: Owners, ghost copied: bool)
    requires helpers.Ready() && BuffersCreatable(helpers) && sc.transferBuffer == helpers.TransferCommandBuffer
    requires i < |sc.workspaces| && SceneOk(sc, helpers.gpu.st, o)
    requires w == sc.workspaces[i] && renderPass == sc.renderPass
    requires |camera| == CameraBytes && |world| == sc.worldBytes && CameraBytes == sc.worldBytes
    requires WellFormedInstances(insts) && DrawInputsOk(d)
    modifies helpers.gpu
    ensures helpers.Ready() && BuffersCreatable(helpers)
    ensures SceneOk(sc.(workspaces := sc.workspaces[i := w2]), helpers.gpu.st, o2)
    ensures w2 == w.(linesVerticesSrc := w2.linesVerticesSrc, linesVertices := w2.linesVertices,
                     transformsSrc := w2.transformsSrc, transforms := w2.transforms)
    ensures copied <==> insts != [] && NeedsGrow(w.transformsSrc, TransformBytes * |insts|)
    ensures Delivered(helpers.gpu.st, w2, lines, camera, world, insts, copied)
    ensures Submitted(helpers.gpu.st, w.commandBuffer, sc.commandPool,
                      FrameCmds(w2, |LinesBytes(lines)|, TransformBytes * |insts|, copied, renderPass, framebuffer, extent, d),
                      imageAvailable, imageDone, workspaceAvailable)
  {
    ghost var s0 := helpers.gpu.st;
    SceneWorkspace(sc, s0, o, i);
    w2, o2, copied := Frame(helpers, w, lines, camera, world, insts, renderPass, framebuffer, extent, d,
                            imageAvailable, imageDone, workspaceAvailable, o, i, sc.commandPool, sc.descriptorPool, sc.worldBytes);
    FrameKeepsScene(sc, i, w2, o, o2, s0, helpers.gpu.st);
  }

  class Tutorial {
    const gpu: Gpu
    const helpers: Helpers
    /** sizeof(World): the world record's size, whose layout is not part of this model. */
    const worldBytes: nat

    var depthFormat: Format
    var commandPool: Handle
    var renderPass: Handle
    var descriptorPool: Handle
    var workspaces: seq<Workspace>
    var objectVertices: AllocatedBuffer
    var planeVertices: ObjectVerticesInfo
    var torusVertices: ObjectVerticesInfo
    var textures: seq<AllocatedImage>
    var textureViews: seq<Handle>
    var textureSampler: Handle
    var textureDescriptorPool: Handle
    var textureDescriptors: seq<Handle>
    var swapchainDepthImage: AllocatedImage
    var swapchainDepthImageView: Handle
    var swapchainFramebuffers: seq<Handle>

    var pattern: PatternType
    var clipFromWorld: Mat4
    /** The bytes of the World record (sky and sun), computed by update() from the time. */
    var world: seq<Byte>
    var linesVertices: seq<PosColVertex>
    var objectInstances: seq<ObjectInstance>

    /** Which field holds each handle. */
    ghost var owner: Owners
    /** The object vertex buffers the construction overwrote without destroying them. */
    ghost var leaked: seq<AllocatedBuffer>

    /** The default member values of the class. */
    constructor (gpu: Gpu, helpers: Helpers, worldBytes: nat)
      ensures this.gpu == gpu && this.helpers == helpers && this.worldBytes == worldBytes
      ensures depthFormat == FormatUndefined && commandPool == NullHandle && renderPass == NullHandle
      ensures descriptorPool == NullHandle && workspaces == [] && objectVertices == NoBuffer
      ensures planeVertices == NoVertices && torusVertices == NoVertices
      ensures textures == [] && textureViews == [] && textureSampler == NullHandle
      ensures textureDescriptorPool == NullHandle && textureDescriptors == []
      ensures swapchainDepthImage == NoImage && swapchainDepthImageView == NullHandle && swapchainFramebuffers == []
      ensures pattern == DefaultPattern && linesVertices == [] && objectInstances == []
      ensures owner == map[] && leaked == []
    {
      this.gpu := gpu;
      this.helpers := helpers;
      this.worldBytes := worldBytes;
      depthFormat := FormatUndefined;
      commandPool := NullHandle;
      renderPass := NullHandle;
      descriptorPool := NullHandle;
      workspaces := [];
      objectVertices := NoBuffer;
      planeVertices := NoVertices;
      torusVertices := NoVertices;
      textures := [];
      textureViews := [];
      textureSampler := NullHandle;
      textureDescriptorPool := NullHandle;
      textureDescriptors := [];
      swapchainDepthImage := NoImage;
      swapchainDepthImageView := NullHandle;
      swapchainFramebuffers := [];
      pattern := DefaultPattern;
      clipFromWorld := [];
      world := [];
      linesVertices := [];
      objectInstances := [];
      owner := map[];
      leaked := [];
    }

    /** The device-facing fields as one value. */
    ghost function Snapshot(): Scene
      reads this`commandPool, this`renderPass, this`descriptorPool, this`workspaces, this`objectVertices
      reads this`textures, this`textureViews, this`textureSampler, this`textureDescriptorPool, this`textureDescriptors
      reads this`swapchainDepthImage, this`swapchainDepthImageView, this`swapchainFramebuffers, this`leaked, helpers
    {
      Scene(helpers.TransferCommandPool, helpers.TransferCommandBuffer, commandPool, renderPass, descriptorPool,
            workspaces, objectVertices, textures, textureViews, textureSampler, textureDescriptorPool,
            textureDescriptors, swapchainDepthImage, swapchainDepthImageView, swapchainFramebuffers, worldBytes, leaked)
    }

    /** What one frame draws with. */
    function Draws(): DrawInputs
      reads this`pattern, this`linesVertices, this`objectVertices, this`objectInstances, this`textureDescriptors
    {
      DrawInputs(pattern, |linesVertices| % U32, objectVertices.handle, objectInstances, textureDescriptors)
    }

    /**
     * The device side of the invariant: the helpers are ready on the same device, staging and
     * device-local memory exist for buffers, a depth format was found, and every
     * device-facing field is live and owned.
     */
    ghost predicate DeviceOk()
      reads this`commandPool, this`renderPass, this`descriptorPool, this`workspaces, this`objectVertices
      reads this`textures, this`textureViews, this`textureSampler, this`textureDescriptorPool, this`textureDescriptors
      reads this`swapchainDepthImage, this`swapchainDepthImageView, this`swapchainFramebuffers, this`leaked
      reads this`depthFormat, this`owner, gpu, helpers
    {
      && helpers.gpu == gpu && helpers.Ready()
      && FirstMemoryType(gpu.memoryTypes, gpu.bufferMemoryTypeBits, StagingProperties).Some?
      && FirstMemoryType(gpu.memoryTypes, gpu.bufferMemoryTypeBits, MEMORY_PROPERTY_DEVICE_LOCAL).Some?
      && depthFormat != FormatUndefined
      && SceneOk(Snapshot(), gpu.st, owner)
      && |textures| == 2 && |textureDescriptors| == 2
    }

    /** The host side of the invariant: the records a frame uploads are well formed. */
    ghost predicate HostOk()
      reads this`clipFromWorld, this`world, this`objectInstances, this`textureDescriptors
    {
      && IsMat4(clipFromWorld) && |world| == worldBytes
      && WellFormedInstances(objectInstances) && TexturesIn(objectInstances, |textureDescriptors|)
    }

    /** The invariant of a constructed Tutorial. */
    ghost predicate Valid()
      reads this, gpu, helpers
    {
      DeviceOk() && HostOk()
    }

    // ------------------------------------------------------------ construction

    /** The depth formats the constructor tries, in order (Tutorial.cpp:20-27). */
    static const DepthCandidates: seq<Format> := [D32Sfloat, X8D24UnormPack32]

    /**
     * The body of the constructor (Tutorial.cpp:18-506), on the member defaults the
     * constructor above sets, for a swapchain with `n` workspaces: the depth format, the
     * command pool, the render pass, the descriptor pool, the workspace loop and the
     * textures.  Each step that cannot find what it needs throws in the source and returns
     * its failure here.  It succeeds exactly when a depth format, staging buffer memory,
     * device-local image memory and (when there is a workspace to build) device-local buffer
     * memory exist; with at least one workspace the renderer's device invariant then holds
     * and ObjectVertices holds the plane and torus mesh.
     */
    method Initialize(n: nat, yellow: LoadedImage, water: LoadedImage, vertex: (nat, nat) -> PosNorTexVertex)
      returns (r: Result<()>)
      requires helpers.gpu == gpu && helpers.Ready() && 0 < worldBytes && Uploadable(yellow) && Uploadable(water)
      requires workspaces == [] && objectVertices == NoBuffer && leaked == [] && owner == map[]
      requires swapchainDepthImage == NoImage && swapchainDepthImageView == NullHandle && swapchainFramebuffers == []
      modifies this, gpu
      ensures r.Success? <==>
        && FirstFormat(gpu.formatProperties, DepthCandidates, Optimal, FORMAT_FEATURE_DEPTH_STENCIL_ATTACHMENT).Some?
        && FirstMemoryType(gpu.memoryTypes, gpu.bufferMemoryTypeBits, StagingProperties).Some?
        && FirstMemoryType(gpu.memoryTypes, gpu.imageMemoryTypeBits, MEMORY_PROPERTY_DEVICE_LOCAL).Some?
        && (0 < n ==> FirstMemoryType(gpu.memoryTypes, gpu.bufferMemoryTypeBits, MEMORY_PROPERTY_DEVICE_LOCAL).Some?)
      ensures r.Success? ==>
        && depthFormat == FirstFormat(gpu.formatProperties, DepthCandidates, Optimal, FORMAT_FEATURE_DEPTH_STENCIL_ATTACHMENT).value
        && |workspaces| == n && |textures| == 2
        && TextureHolds(gpu.st, textures[0], yellow, R8G8B8A8Unorm) && TextureHolds(gpu.st, textures[1], water, R8G8B8A8Srgb)
      ensures r.Success? ==> |leaked| == if n == 0 then 0 else n - 1
      ensures r.Success? && 0 < n ==>
        && DeviceOk() && Holds(gpu.st, objectVertices.handle, MeshBytes(ObjectMesh(vertex)))
        && planeVertices == ObjectVerticesInfo(0, 6) && torusVertices == ObjectVerticesInfo(6, 1920)
    {
      var format := helpers.FindImageFormat(DepthCandidates, Optimal, FORMAT_FEATURE_DEPTH_STENCIL_ATTACHMENT);
      if format.Failure? {
        return Failure(format.error);
      }
      var vertices := [];
      if 0 < n {
        vertices := InstantializeMesh(vertex);
      }
      r := Build(format.value, n, yellow, water, vertices);
    }

    /**
     * The constructor after the depth format is found and the object mesh made: the objects it
     * creates, stored in their fields.
     */
    method Build(depthFormat: Format, n: nat, yellow: LoadedImage, water: LoadedImage, vertices: seq<PosNorTexVertex>)
      returns (r: Result<()>)
      requires helpers.gpu == gpu && helpers.Ready() && 0 < worldBytes && Uploadable(yellow) && Uploadable(water)
      requires workspaces == [] && objectVertices == NoBuffer && leaked == [] && owner == map[]
      requires swapchainDepthImage == NoImage && swapchainDepthImageView == NullHandle && swapchainFramebuffers == []
      requires depthFormat != FormatUndefined && (n == 0 || 0 < |vertices|)
      modifies this`commandPool, this`renderPass, this`descriptorPool, this`workspaces, this`objectVertices
      modifies this`textures, this`textureViews, this`textureSampler, this`textureDescriptorPool, this`textureDescriptors
      modifies this`depthFormat, this`leaked, this`owner, gpu
      ensures r.Success? <==>
        && FirstMemoryType(gpu.memoryTypes, gpu.bufferMemoryTypeBits, StagingProperties).Some?
        && FirstMemoryType(gpu.memoryTypes, gpu.imageMemoryTypeBits, MEMORY_PROPERTY_DEVICE_LOCAL).Some?
        && (0 < n ==> FirstMemoryType(gpu.memoryTypes, gpu.bufferMemoryTypeBits, MEMORY_PROPERTY_DEVICE_LOCAL).Some?)
      ensures r.Success? ==>
        && this.depthFormat == depthFormat && |workspaces| == n && |textures| == 2
        && TextureHolds(gpu.st, textures[0], yellow, R8G8B8A8Unorm) && TextureHolds(gpu.st, textures[1], water, R8G8B8A8Srgb)
      ensures r.Success? ==> |leaked| == if n == 0 then 0 else n - 1
      ensures r.Success? && 0 < n ==> DeviceOk() && Holds(gpu.st, objectVertices.handle, MeshBytes(vertices))
      ensures unchanged(this`planeVertices, this`torusVertices)
    {
      ghost var sc := Snapshot();
      var made;
      ghost var lk, o;
      made, lk, o := Construct(helpers, sc, worldBytes, vertices, n, yellow, water);
      if made.Failure? {
        r := Failure(made.error);
      } else {
        Store(depthFormat, made.value, sc, lk, o, 0 < n, yellow, water, MeshBytes(vertices));
        r := Success(());
      }
    }

    /**
     * Stores the objects the constructor made, with the buffers it leaked and the ownership it
     * left; when the scene they make up is sound, the device invariant holds.
     */
    method Store(depthFormat: Format, m: Made, ghost sc: Scene, ghost lk: seq<AllocatedBuffer>, ghost o: Owners, ghost built: bool,
                 ghost yellow: LoadedImage, ghost water: LoadedImage, ghost mesh: seq<Byte>)
      requires sc == Snapshot() && |m.textures.images| == 2 && |m.textures.sets| == 2
      requires TextureHolds(gpu.st, m.textures.images[0], yellow, R8G8B8A8Unorm)
      requires TextureHolds(gpu.st, m.textures.images[1], water, R8G8B8A8Srgb)
      requires built ==> helpers.gpu == gpu && helpers.Ready() && depthFormat != FormatUndefined
      requires built ==> FirstMemoryType(gpu.memoryTypes, gpu.bufferMemoryTypeBits, StagingProperties).Some?
      requires built ==> FirstMemoryType(gpu.memoryTypes, gpu.bufferMemoryTypeBits, MEMORY_PROPERTY_DEVICE_LOCAL).Some?
      requires built ==> SceneOk(Finished(sc, m, lk), gpu.st, o) && Holds(gpu.st, m.objectVertices.handle, mesh)
      modifies this`commandPool, this`renderPass, this`descriptorPool, this`workspaces, this`objectVertices
      modifies this`textures, this`textureViews, this`textureSampler, this`textureDescriptorPool, this`textureDescriptors
      modifies this`depthFormat, this`leaked, this`owner
      ensures this.depthFormat == depthFormat && |workspaces| == |m.workspaces| && |textures| == 2
      ensures TextureHolds(gpu.st, textures[0], yellow, R8G8B8A8Unorm) && TextureHolds(gpu.st, textures[1], water, R8G8B8A8Srgb)
      ensures leaked == lk
      ensures built ==> DeviceOk() && Holds(gpu.st, objectVertices.handle, mesh)
      ensures unchanged(this`planeVertices, this`torusVertices)
    {
      StoreAll(depthFormat, m, lk, o);
    }

    /** The field stores of Store, one group of fields at a time; the rest of the Tutorial is untouched. */
    method StoreAll(depthFormat: Format, m: Made, ghost lk: seq<AllocatedBuffer>, ghost o: Owners)
      modifies this`commandPool, this`renderPass, this`descriptorPool, this`workspaces, this`objectVertices
      modifies this`textures, this`textureViews, this`textureSampler, this`textureDescriptorPool, this`textureDescriptors
      modifies this`depthFormat, this`leaked, this`owner
      ensures Snapshot() == Finished(old(Snapshot()), m, lk)
      ensures this.depthFormat == depthFormat && owner == o
      ensures unchanged(this`planeVertices, this`torusVertices)
    {
      StoreStatics(depthFormat, m.commandPool, m.renderPass, m.descriptorPool);
      StoreWorkspaces(m.workspaces, m.objectVertices, lk, o);
      StoreImages(m.textures.images, m.textures.views);
      StoreDescriptors(m.textures.sampler, m.textures.pool, m.textures.sets);
    }

    /** Stores the depth format, the command pool, the render pass and the descriptor pool. */
    method StoreStatics(depthFormat: Format, commandPool: Handle, renderPass: Handle, descriptorPool: Handle)
      modifies this`depthFormat, this`commandPool, this`renderPass, this`descriptorPool
      ensures Snapshot() == old(Snapshot()).(commandPool := commandPool, renderPass := renderPass, descriptorPool := descriptorPool)
      ensures this.depthFormat == depthFormat
    {
      this.depthFormat := depthFormat;
      this.commandPool, this.renderPass, this.descriptorPool := commandPool, renderPass, descriptorPool;
    }

    /** Stores the workspaces, ObjectVertices, the leaked buffers and the ownership map. */
    method StoreWorkspaces(workspaces: seq<Workspace>, objectVertices: AllocatedBuffer, ghost leaked: seq<AllocatedBuffer>, ghost owner: Owners)
      modifies this`workspaces, this`objectVertices, this`leaked, this`owner
      ensures Snapshot() == old(Snapshot()).(workspaces := workspaces, objectVertices := objectVertices, leaked := leaked)
      ensures this.owner == owner
    {
      this.workspaces, this.objectVertices, this.leaked, this.owner := workspaces, objectVertices, leaked, owner;
    }

    /** Stores the texture images and their views. */
    method StoreImages(images: seq<AllocatedImage>, views: seq<Handle>)
      modifies this`textures, this`textureViews
      ensures Snapshot() == old(Snapshot()).(textures := images, textureViews := views)
    {
      textures, textureViews := images, views;
    }

    /** Stores the texture sampler, the texture descriptor pool and the texture descriptor sets. */
    method StoreDescriptors(sampler: Handle, pool: Handle, sets: seq<Handle>)
      modifies this`textureSampler, this`textureDescriptorPool, this`textureDescriptors
      ensures Snapshot() == old(Snapshot()).(textureSampler := sampler, textureDescriptorPool := pool, textureDescriptors := sets)
    {
      textureSampler, textureDescriptorPool, textureDescriptors := sampler, pool, sets;
    }

    /**
     * The object mesh the workspace loop uploads (Tutorial.cpp:307-312): a fresh vector, the
     * plane appended, then the torus.  The source rebuilds the same vector in every iteration
     * of the loop; the model builds it once, before the loop, since every iteration yields the
     * same contents.
     */
    method InstantializeMesh(vertex: (nat, nat) -> PosNorTexVertex) returns (vertices: seq<PosNorTexVertex>)
      modifies this`planeVertices, this`torusVertices
      ensures vertices == ObjectMesh(vertex) && |vertices| == 6 + 1920
      ensures planeVertices == ObjectVerticesInfo(0, 6) && torusVertices == ObjectVerticesInfo(6, 1920)
    {
      vertices := InstantializePlane([]);
      assert |vertices| == 6;
      vertices := InstantializeTorus(vertices, vertex);
    }

    // ------------------------------------------------------------ rendering a frame

    /**
     * render (Tutorial.cpp:705-1027): one frame on workspace `workspaceIndex` into swapchain
     * image `imageIndex` of `extent`.  The workspace's streamed pairs may be reallocated, its
     * command buffer holds exactly the frame's commands and has been submitted, and the
     * device-side buffers hold the frame's lines, camera, world and (on a reallocating frame)
     * transforms.  The World record being as large as the Camera record is the
     * assertion at Tutorial.cpp:811, taken as a precondition.
     */
    method Render(workspaceIndex: nat, imageIndex: nat, imageAvailable: Handle, imageDone: Handle,
                  workspaceAvailable: Handle, extent: Extent2D)
      requires Valid() && workspaceIndex < |workspaces| && imageIndex < |swapchainFramebuffers|
      requires worldBytes == CameraBytes
      modifies this`workspaces, this`owner, gpu
      ensures Valid()
      ensures |workspaces| == |old(workspaces)|
      ensures forall j | 0 <= j < |workspaces| && j != workspaceIndex :: workspaces[j] == old(workspaces[j])
      ensures var w := old(workspaces[workspaceIndex]); var w2 := workspaces[workspaceIndex];
        && w2 == w.(linesVerticesSrc := w2.linesVerticesSrc, linesVertices := w2.linesVertices,
                    transformsSrc := w2.transformsSrc, transforms := w2.transforms)
        && var insts := old(objectInstances); var lines := old(linesVertices);
           var copied := insts != [] && NeedsGrow(w.transformsSrc, TransformBytes * |insts|);
           && Submitted(gpu.st, w.commandBuffer, old(commandPool),
                        FrameCmds(w2, |LinesBytes(lines)|, TransformBytes * |insts|, copied, old(renderPass),
                                  old(swapchainFramebuffers[imageIndex]), extent, old(Draws())),
                        imageAvailable, imageDone, workspaceAvailable)
           && Delivered(gpu.st, w2, lines, CameraRecord(old(clipFromWorld)), old(world), insts, copied)
    {
      var w := workspaces[workspaceIndex];
      var framebuffer := swapchainFramebuffers[imageIndex];
      ghost var sc := Snapshot();
      ghost var s0 := gpu.st;
      var w2;
      ghost var o2, copied;
      w2, o2, copied := SceneFrame(helpers, sc, workspaceIndex, w, renderPass, linesVertices, CameraRecord(clipFromWorld),
                                   world, objectInstances, framebuffer, extent, Draws(), imageAvailable, imageDone,
                                   workspaceAvailable, owner);
      StoreWorkspace(workspaceIndex, w2, sc.(workspaces := sc.workspaces[workspaceIndex := w2]), o2);
    }

    /**
     * The end of a frame on workspace `i`: the workspace the frame left replaces the old one, with
     * the ownership the frame left, and the Tutorial is valid again.
     */
    method StoreWorkspace(i: nat, w2: Workspace, ghost sc2: Scene, ghost o2: Owners)
      requires i < |workspaces| && helpers.gpu == gpu && helpers.Ready()
      requires FirstMemoryType(gpu.memoryTypes, gpu.bufferMemoryTypeBits, StagingProperties).Some?
      requires FirstMemoryType(gpu.memoryTypes, gpu.bufferMemoryTypeBits, MEMORY_PROPERTY_DEVICE_LOCAL).Some?
      requires depthFormat != FormatUndefined && |textures| == 2 && |textureDescriptors| == 2 && HostOk()
      requires sc2 == Snapshot().(workspaces := workspaces[i := w2]) && SceneOk(sc2, gpu.st, o2)
      modifies this`workspaces, this`owner
      ensures Valid() && workspaces == old(workspaces)[i := w2] && owner == o2
    {
      workspaces, owner := workspaces[i := w2], o2;
      assert Snapshot() == sc2;
    }

    // ------------------------------------------------------------ the pattern builders

    /** MakePatternX: the two crossing lines, four vertices. */
    method MakePatternX()
      modifies this`linesVertices
      ensures linesVertices == CrossVertices() && |linesVertices| == 4
    {
      linesVertices := [];
      linesVertices := linesVertices + [PosColVertex(Vec3(MinusOne, MinusOne, Zero), White)];
      linesVertices := linesVertices + [PosColVertex(Vec3(One, One, Zero), Red)];
      linesVertices := linesVertices + [PosColVertex(Vec3(MinusOne, One, Zero), Blue)];
      linesVertices := linesVertices + [PosColVertex(Vec3(One, MinusOne, Zero), Blue)];
    }

    /**
     * MakePatternGrid: 30 horizontal yellow lines, then 30 vertical violet ones; `coord(i)`
     * and `depth(i)` are the float positions of line i.
     */
    method MakePatternGrid(coord: nat -> Float32, depth: nat -> Float32)
      modifies this`linesVertices
      ensures linesVertices == GridVertices(coord, depth)
    {
      ghost var hs := HorizontalLines(coord);
      ghost var vls := VerticalLines(coord, depth);
      var vs: seq<PosColVertex> := [];
      NoPieces([], hs);
      var i: nat := 0;
      while i < GridLines
        invariant i <= GridLines && vs == [] + Flatten(hs[..i])
      {
        vs := vs + [PosColVertex(Vec3(MinusOne, coord(i), Half), Yellow)];
        vs := vs + [PosColVertex(Vec3(One, coord(i), Half), Yellow)];
        NextLine([], hs, i, PosColVertex(Vec3(MinusOne, coord(i), Half), Yellow), PosColVertex(Vec3(One, coord(i), Half), Yellow));
        i := i + 1;
      }
      AllPieces(hs, i);
      ghost var horizontal := vs;
      NoPieces(horizontal, vls);
      i := 0;
      while i < GridLines
        invariant i <= GridLines && vs == horizontal + Flatten(vls[..i])
      {
        vs := vs + [PosColVertex(Vec3(coord(i), MinusOne, depth(i)), Violet)];
        vs := vs + [PosColVertex(Vec3(coord(i), One, depth(i)), Violet)];
        NextLine(horizontal, vls, i, PosColVertex(Vec3(coord(i), MinusOne, depth(i)), Violet), PosColVertex(Vec3(coord(i), One, depth(i)), Violet));
        i := i + 1;
      }
      AllPieces(vls, i);
      linesVertices := vs;
    }

    /**
     * MakePatternBlackHole: 46 spirals of 16 arcs; arc i of a spiral has 32 + i points, the
     * count growing by one after each arc and starting again at 32 for each spiral.
     * `point(k, i, j)` is the float position of point j of arc i of spiral k.
     */
    method MakePatternBlackHole(point: (nat, nat, nat) -> Vec3)
      modifies this`linesVertices
      ensures linesVertices == BlackHoleVertices(point)
    {
      var vs: seq<PosColVertex> := [];
      var verticesNumNow: nat := FirstArcPoints;
      var k: nat := 0;
      NoPieces([], SpiralList(point));
      while k < Spirals
        invariant k <= Spirals && verticesNumNow == FirstArcPoints
        invariant vs == [] + Flatten(SpiralList(point)[..k])
      {
        ghost var spiralsBefore := Flatten(SpiralList(point)[..k]);
        NoPieces(spiralsBefore, ArcList(point, k));
        var i: nat := 0;
        while i < ArcsPerSpiral
          invariant i <= ArcsPerSpiral && verticesNumNow == FirstArcPoints + i
          invariant vs == spiralsBefore + Flatten(ArcList(point, k)[..i])
        {
          ghost var arcsBefore := spiralsBefore + Flatten(ArcList(point, k)[..i]);
          assert Arc(point, k, i)[..0] == [];
          var j: nat := 0;
          while j < verticesNumNow
            invariant j <= verticesNumNow && vs == arcsBefore + Arc(point, k, i)[..j]
          {
            vs := vs + [PosColVertex(point(k, i, j), White)];
            ArcStep(arcsBefore, point, k, i, j);
            j := j + 1;
          }
          NextArc(spiralsBefore, point, k, i, verticesNumNow);
          verticesNumNow := verticesNumNow + 1;
          i := i + 1;
        }
        NextSpiral(point, k, i);
        verticesNumNow := FirstArcPoints;
        k := k + 1;
      }
      AllPieces(SpiralList(point), k);
      linesVertices := vs;
    }

    // ------------------------------------------------------------ the mesh builders

    /**
     * InstantializePlane: appends the plane's six vertices and records their range, `first`
     * being the prior length truncated to uint32_t and `count` the uint32_t of the growth.
     */
    method InstantializePlane(vertices: seq<PosNorTexVertex>) returns (r: seq<PosNorTexVertex>)
      modifies this`planeVertices
      ensures r == vertices + PlaneVerticesList()
      ensures planeVertices == ObjectVerticesInfo(|vertices| % U32, 6)
      ensures |vertices| < U32 ==> r[planeVertices.first..planeVertices.first + planeVertices.count] == PlaneVerticesList()
    {
      var first := |vertices| % U32;
      r := vertices;
      r := r + [PlaneCorner(MinusPlaneExtent, MinusPlaneExtent, Zero, Zero)];
      r := r + [PlaneCorner(PlaneExtent, MinusPlaneExtent, PlaneExtent, Zero)];
      r := r + [PlaneCorner(MinusPlaneExtent, PlaneExtent, Zero, PlaneExtent)];
      r := r + [PlaneCorner(PlaneExtent, PlaneExtent, PlaneExtent, PlaneExtent)];
      r := r + [PlaneCorner(MinusPlaneExtent, PlaneExtent, Zero, PlaneExtent)];
      r := r + [PlaneCorner(PlaneExtent, MinusPlaneExtent, PlaneExtent, Zero)];
      assert r == vertices + PlaneVerticesList();
      var count := SizeGrowth(|vertices|, |r|);
      SizeGrowthExact(|vertices|, |r|, 6);
      if |vertices| < U32 {
        SmallMod(|vertices|);
        SliceOfAppend(vertices, PlaneVerticesList(), r, first, first + count);
      }
      planeVertices := ObjectVerticesInfo(first, count);
    }

    /**
     * InstantializeTorus: appends two triangles per cell of the 20 x 16 grid, ring by ring;
     * `vertex(ui, vi)` is the float vertex of step (ui, vi).  `count` is a uint32_t difference
     * of truncated sizes.
     */
    method InstantializeTorus(vertices: seq<PosNorTexVertex>, vertex: (nat, nat) -> PosNorTexVertex)
      returns (r: seq<PosNorTexVertex>)
      modifies this`torusVertices
      ensures r == vertices + TorusVerticesList(vertex) && |r| == |vertices| + 1920
      ensures torusVertices == ObjectVerticesInfo(|vertices| % U32, 1920)
      ensures |vertices| < U32 ==> r[torusVertices.first..torusVertices.first + torusVertices.count] == TorusVerticesList(vertex)
    {
      var first := |vertices| % U32;
      r := vertices;
      NoPieces(vertices, TorusRingList(vertex));
      var ui: nat := 0;
      while ui < TorusUSteps
        invariant ui <= TorusUSteps && r == vertices + Flatten(TorusRingList(vertex)[..ui])
      {
        ghost var ringsBefore := vertices + Flatten(TorusRingList(vertex)[..ui]);
        NoPieces(ringsBefore, TorusCells(vertex, ui));
        var vi: nat := 0;
        while vi < TorusVSteps
          invariant vi <= TorusVSteps && r == ringsBefore + Flatten(TorusCells(vertex, ui)[..vi])
        {
          r := r + [vertex(ui, vi), vertex(ui + 1, vi), vertex(ui, vi + 1), vertex(ui, vi + 1), vertex(ui + 1, vi), vertex(ui + 1, vi + 1)];
          NextCell(ringsBefore, vertex, ui, vi);
          vi := vi + 1;
        }
        NextRing(vertices, vertex, ui, vi);
        ui := ui + 1;
      }
      AllPieces(TorusRingList(vertex), ui);
      TorusCount(vertex);
      var count := Uint32Growth(|vertices|, |r|);
      Uint32GrowthExact(|vertices|, |r|, 1920);
      if |vertices| < U32 {
        SmallMod(|vertices|);
        SliceOfAppend(vertices, TorusVerticesList(vertex), r, first, first + count);
      }
      torusVertices := ObjectVerticesInfo(first, count);
    }

    // ------------------------------------------------------------ the per-frame update

    /**
     * update: the camera matrix, the lines of the current pattern (None draws the cross), the
     * world record and the two object instances.  The float computations are inputs:
     * `clip` is the camera's clip-from-world matrix, `worldRecord` the World bytes,
     * `torusWorld` the torus's rotation for the current time, `mul` the matrix product.
     * DeviceOk reads none of the fields written here, so a valid tutorial stays valid.
     */
    method Update(clip: Mat4, worldRecord: seq<Byte>, torusWorld: Mat4, mul: (Mat4, Mat4) -> Mat4,
                  coord: nat -> Float32, depth: nat -> Float32, point: (nat, nat, nat) -> Vec3)
      requires |textureDescriptors| == 2
      requires IsMat4(clip) && |worldRecord| == worldBytes && IsMat4(torusWorld)
      requires IsMat4(mul(clip, PlaneWorld)) && IsMat4(mul(clip, torusWorld))
      modifies this`clipFromWorld, this`linesVertices, this`world, this`objectInstances
      ensures HostOk()
      ensures clipFromWorld == clip && world == worldRecord
      ensures linesVertices == (match pattern
                                case GridPattern => GridVertices(coord, depth)
                                case BlackHolePattern => BlackHoleVertices(point)
                                case _ => CrossVertices())
      ensures objectInstances == SceneInstances(planeVertices, torusVertices, clip, torusWorld, mul)
    {
      clipFromWorld := clip;
      if pattern == GridPattern {
        MakePatternGrid(coord, depth);
      } else if pattern == BlackHolePattern {
        MakePatternBlackHole(point);
      } else {
        MakePatternX();
      }
      world := worldRecord;
      objectInstances := SceneInstances(planeVertices, torusVertices, clipFromWorld, torusWorld, mul);
    }
  
    // ------------------------------------------------------------ taking the renderer apart

    /**
     * destroy_framebuffers (Tutorial.cpp:688-703): every framebuffer, then the depth view, then
     * the depth image and its memory.  The framebuffers and the view must not be null; the
     * three fields end empty.
     */
    method DestroyFramebuffers()
      requires helpers.Valid() && helpers.gpu == gpu
      requires Distinct(swapchainFramebuffers)
      requires forall k | 0 <= k < |swapchainFramebuffers| :: IsObject(gpu.st, swapchainFramebuffers[k], Framebuffer)
      requires IsObject(gpu.st, swapchainDepthImageView, ImageView) && swapchainDepthImageView !in Elements(swapchainFramebuffers)
      requires LiveImage(swapchainDepthImage, gpu.st)
      requires helpers.TransferCommandPool !in Elements(swapchainFramebuffers) + {swapchainDepthImageView}
      modifies this`swapchainFramebuffers, this`swapchainDepthImageView, this`swapchainDepthImage, gpu
      ensures helpers.Valid()
      ensures swapchainFramebuffers == [] && swapchainDepthImageView == NullHandle && swapchainDepthImage == NoImage
      ensures var fbs, view, depth := old(swapchainFramebuffers), old(swapchainDepthImageView), old(swapchainDepthImage);
        gpu.st == old(gpu.st).(objects := old(gpu.st).objects - (Elements(fbs) + {view}),
                               images := old(gpu.st).images - {depth.handle},
                               memory := old(gpu.st).memory - {depth.allocation.handle},
                               calls := old(gpu.st).calls + FramebuffersCalls(fbs, view, depth))
    {
      ghost var s0 := gpu.st;
      AppendAssoc4(s0.calls, DestroyCalls(Framebuffer, swapchainFramebuffers), [VkDestroyObject(ImageView, swapchainDepthImageView)],
                   DestroyImageCalls(swapchainDepthImage));
      MinusUnion(s0.objects, Elements(swapchainFramebuffers), {swapchainDepthImageView});
      DestroyObjects(gpu, Framebuffer, swapchainFramebuffers);
      swapchainFramebuffers := [];
      gpu.DestroyObject(ImageView, swapchainDepthImageView);
      swapchainDepthImageView := NullHandle;
      assert helpers.Valid();
      swapchainDepthImage := helpers.DestroyImage(swapchainDepthImage);
    }

    /** The swapchain step of ~Tutorial (Tutorial.cpp:545-548): destroy_framebuffers when there is a depth image. */
    method ReleaseSwapchain(ghost sc: Scene, ghost s0: State, ghost o: Owners)
      requires Tearing(helpers, ObjectVerticesDestroyed(s0, sc), sc, s0, o) && helpers.gpu == gpu
      requires sc.(depthImage := swapchainDepthImage, depthImageView := swapchainDepthImageView,
                   framebuffers := swapchainFramebuffers) == sc
      modifies this`swapchainDepthImage, this`swapchainDepthImageView, this`swapchainFramebuffers, gpu
      ensures Tearing(helpers, SwapchainDestroyed(s0, sc), sc, s0, o)
      ensures swapchainDepthImage == NoImage && swapchainDepthImageView == NullHandle && swapchainFramebuffers == []
    {
      if swapchainDepthImage.handle != NullHandle {
        ReadyForSwapchain(sc, s0, o);
        TransferApart(sc, s0, o);
        DestroyFramebuffers();
      } else {
        NoSwapchain(sc, s0, o);
      }
    }

    /**
     * The first half of ~Tutorial (Tutorial.cpp:507-548), given the texture handles it releases:
     * up to and including the swapchain resources.
     */
    method ReleaseFront(texturePool: Handle, sampler: Handle, views: seq<Handle>, images: seq<AllocatedImage>,
                        ghost sc: Scene, ghost s0: State, ghost o: Owners)
      requires Tearing(helpers, s0, sc, s0, o) && helpers.gpu == gpu
      requires sc.(textureDescriptorPool := texturePool, textureSampler := sampler, textureViews := views, textures := images,
                   objectVertices := objectVertices, depthImage := swapchainDepthImage,
                   depthImageView := swapchainDepthImageView, framebuffers := swapchainFramebuffers) == sc
      modifies this`objectVertices, this`swapchainDepthImage, this`swapchainDepthImageView, this`swapchainFramebuffers, gpu
      ensures Tearing(helpers, SwapchainDestroyed(s0, sc), sc, s0, o)
      ensures objectVertices == NoBuffer
      ensures swapchainDepthImage == NoImage && swapchainDepthImageView == NullHandle && swapchainFramebuffers == []
    {
      ReleaseTextureViews(helpers, texturePool, sampler, views, sc, s0, o);
      objectVertices := ReleaseTextureImages(helpers, images, objectVertices, sc, s0, o);
      ReleaseSwapchain(sc, s0, o);
    }

    /** The fields ~Tutorial sets to null or clears once their handles are released. */
    method ClearReleased()
      modifies this`textureDescriptorPool, this`textureDescriptors, this`textureSampler, this`textureViews, this`textures
      modifies this`workspaces, this`descriptorPool, this`commandPool, this`renderPass
      ensures textureDescriptorPool == NullHandle && textureDescriptors == [] && textureSampler == NullHandle
      ensures textureViews == [] && textures == []
      ensures workspaces == [] && descriptorPool == NullHandle && commandPool == NullHandle && renderPass == NullHandle
    {
      textureDescriptorPool, textureDescriptors, textureSampler := NullHandle, [], NullHandle;
      textureViews, textures := [], [];
      workspaces, descriptorPool, commandPool, renderPass := [], NullHandle, NullHandle, NullHandle;
    }

    /**
     * The two halves of ~Tutorial in order, from the scene `sc` on the device `s0`, given the
     * handles of the fields already emptied.
     */
    method ReleaseAll(texturePool: Handle, sampler: Handle, views: seq<Handle>, images: seq<AllocatedImage>,
                      commandPool: Handle, descriptorPool: Handle, renderPass: Handle, workspaces: seq<Workspace>,
                      ghost sc: Scene, ghost s0: State, ghost o: Owners)
      requires Tearing(helpers, s0, sc, s0, o) && helpers.gpu == gpu
      requires sc.(textureDescriptorPool := texturePool, textureSampler := sampler, textureViews := views, textures := images,
                   objectVertices := objectVertices, depthImage := swapchainDepthImage,
                   depthImageView := swapchainDepthImageView, framebuffers := swapchainFramebuffers,
                   commandPool := commandPool, descriptorPool := descriptorPool, renderPass := renderPass,
                   workspaces := workspaces) == sc
      modifies this`objectVertices, this`swapchainDepthImage, this`swapchainDepthImageView, this`swapchainFramebuffers, gpu
      ensures Tearing(helpers, TornDown(s0, sc), sc, s0, o)
      ensures objectVertices == NoBuffer
      ensures swapchainDepthImage == NoImage && swapchainDepthImageView == NullHandle && swapchainFramebuffers == []
    {
      ReleaseFront(texturePool, sampler, views, images, sc, s0, o);
      ReleaseFrameResources(helpers, commandPool, descriptorPool, renderPass, workspaces, sc, s0, o);
    }

    /**
     * ~Tutorial (Tutorial.cpp:507-621): waits for the device, then releases the texture pool
     * (and with it the texture sets), the sampler, the texture views, the textures, the object
     * vertices, the swapchain resources when there is a depth image, each workspace's command
     * buffer and buffers, the descriptor pool, the command pool and the render pass, in that
     * order.  The device ends as TornDown says, the helpers can still be used, and every field
     * the destructor clears is empty.
     */
    method Destroy()
      requires DeviceOk()
      modifies this`textureDescriptorPool, this`textureDescriptors, this`textureSampler, this`textureViews, this`textures
      modifies this`objectVertices, this`swapchainDepthImage, this`swapchainDepthImageView, this`swapchainFramebuffers
      modifies this`workspaces, this`descriptorPool, this`commandPool, this`renderPass, gpu
      ensures helpers.Valid()
      ensures gpu.st == TornDown(old(gpu.st), old(Snapshot())) && Cleared()
    {
      ghost var sc, s0 := Snapshot(), gpu.st;
      var texturePool, sampler, views, images := textureDescriptorPool, textureSampler, textureViews, textures;
      var pool, setPool, pass, frames := commandPool, descriptorPool, renderPass, workspaces;
      ClearReleased();
      ReleaseAll(texturePool, sampler, views, images, pool, setPool, pass, frames, sc, s0, owner);
    }

    /** Every device-facing field ~Tutorial empties is empty. */
    ghost predicate Cleared()
      reads this
    {
      && textureDescriptorPool == NullHandle && textureDescriptors == [] && textureSampler == NullHandle
      && textureViews == [] && textures == [] && objectVertices == NoBuffer
      && swapchainDepthImage == NoImage && swapchainDepthImageView == NullHandle && swapchainFramebuffers == []
      && workspaces == [] && descriptorPool == NullHandle && commandPool == NullHandle && renderPass == NullHandle
    }

  }
}
