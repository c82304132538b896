# Tutorial renderer core in Dafny

This project models the core of a small Vulkan renderer (nakluV): the `Helpers` memory and
transfer layer (`Helpers.cpp`) and the `Tutorial` application (`Tutorial.cpp`, `Tutorial.hpp`).
The model covers the constructor that builds the per-swapchain-image workspaces, the uploaded
object mesh and the two textures, the per-frame `render` that streams lines, camera, world and
per-instance transforms to the GPU and records the draw pass, the `update` that rebuilds the
line pattern and the object instances, `destroy_framebuffers`, and the destructor.

The Vulkan device is not part of the source. It is modelled as the class `Device.Gpu`, which
holds a ghost `State`: the live buffers with their bytes, the images, the device memory, the
command buffers with their recorded commands, the descriptor pools and sets, the other objects,
and the log of every API call made. Every Vulkan entry point the source uses is a `Gpu` method
with an exact new-state contract. Every operation of the core is then proved against that state.

Modules, one per file:

- `Vulkan` (`vulkan.dfy`): handles, flags, formats, commands, the device `State`, and what executing a command does to it (`RunCmd`, `RunCmds`).
- `Device` (`device.dfy`): the `Gpu` class, the API as the source uses it.
- `Helpers` (`helpers.dfy`): `Allocation` with its move semantics, `AllocatedBuffer`, `AllocatedImage`, and the `Helpers` class. It covers memory-type and format search, allocation, buffer and image creation and destruction, and staged transfers.
- `TutorialTypes` (`tutorial_types.dfy`): vertex and uniform records as bytes, the `Workspace` record, the 4096-byte growth rule, descriptor-pool accounting, the draw commands each pipeline records, and the line and mesh generators.
- `TutorialScene` (`tutorial_scene.dfy`): the ownership map and the invariant `SceneOk` that ties every field of a `Tutorial` to the live objects on the device.
- `TutorialSetup` (`tutorial_setup.dfy`): the constructor, step by step.
- `TutorialFrame` (`tutorial_frame.dfy`): `render`, step by step.
- `TutorialTeardown` (`tutorial_teardown.dfy`): the destructor, step by step, and the device state it leaves (`TornDown`).
- `Tutorial` (`tutorial.dfy`): the `Tutorial` class, whose fields are the source's members.

Behaviour modelled as written:

- `render` copies the transforms from their host-visible buffer to the device buffer only in the branch that reallocates the pair (Tutorial.cpp:831-912). In a later frame that fits, neither the host write nor the copy happens, and the device buffer keeps the transforms of the last reallocating frame. `UploadTransforms` states this with its `copied` flag, and `Tutorial.Tutorial.Render` delivers the transforms only when `copied` holds.
- The world upload asserts `CameraSrc.size == sizeof(World)` (Tutorial.cpp:811) where the world buffer is evidently meant. The model keeps the assertion as the precondition `worldBytes == CameraBytes`.
- The constructor's workspace loop (Tutorial.cpp:305-326) creates and uploads a new `ObjectVertices` buffer in every iteration. The move assignment at Tutorial.cpp:316 overwrites the previous one without destroying it. The model keeps each overwritten buffer in the ghost list `leaked`: `Tutorial.Tutorial.Initialize` states that it holds n - 1 buffers, and `TutorialTeardown.LeakedSurvive` that they are still alive after the destructor.

## Model

| member | source | states |
|---|---|---|
| Helpers.MoveConstruct | Helpers.cpp:13-20 | the new allocation takes every field of the source, which is left empty; nothing is reported as leaked |
| Helpers.MoveAssign | Helpers.cpp:22-34 | the two allocations swap all four fields: the target ends holding the source's allocation and the moved-from value the target's old one; a leak is reported exactly when the target was not empty |
| Helpers.MoveAssignConservesOwnership | Helpers.cpp:22-34 | a move neither creates nor loses an owned memory handle: the two operands own the same handles before and after |
| Helpers.MoveAssignLeakReachesDestructor | Helpers.cpp:22-40 | the moved-from value makes the destructor warn exactly when the assignment reported a leak |
| Helpers.MoveConstructIsAssignToEmpty | Helpers.cpp:13-34 | move construction equals move assignment into an empty allocation, and its leftover never makes the destructor warn |
| Helpers.MoveAssignBuffer | Tutorial.cpp:316 | assigning a new buffer over a live one: the target becomes the new buffer, the moved-from temporary receives the old allocation, and the old memory is flagged as leaked exactly when it was not empty |
| Helpers.MoveAssignImage | Tutorial.cpp:632 | the same for an image: the target becomes the new image, the moved-from temporary receives the old allocation, flagged exactly when it was not empty |
| Helpers.FirstMemoryType | Helpers.cpp:375-387 | the result is a type index allowed by the filter with all requested property flags, no smaller index qualifies, and none at all when the result is None |
| Helpers.FirstFormat | Helpers.cpp:389-405 | the result is a candidate supporting the features with the tiling, every earlier candidate fails, and every candidate fails when the result is None |
| Helpers.DestroyBeforeFree | Helpers.cpp:113-170 | destroying a buffer or image issues vkDestroy first and vkFreeMemory last |
| Helpers.ImageBytesWrap | Helpers.cpp:229-232 | the size transfer_to_image checks, with the texel count taken in 32 bits, is the image's byte size when width × height fits in 32 bits and strictly smaller when it does not |
| Helpers.StagedCopyEffect | Helpers.cpp:196-202 | running the staging copy puts the staged bytes at the front of the target buffer and changes nothing else |
| Helpers.ImageUploadEffect | Helpers.cpp:281-354 | running the two barriers and the buffer-to-image copy leaves the image in SHADER_READ_ONLY_OPTIMAL holding the staged bytes |
| Helpers.BufferUploadState | Helpers.cpp:174-223 | the four steps of transfer_to_buffer compose to one stated device state: target filled, staging buffer and memory gone, calls logged in order |
| Helpers.ImageUploadState | Helpers.cpp:225-371 | the four steps of transfer_to_image compose to one stated device state: image filled and in shader-read layout, staging gone |
| Helpers.Helpers.constructor | Helpers.cpp:422-423 | a helper object bound to the device, with no transfer pool or command buffer yet |
| Helpers.Helpers.Create | Helpers.cpp:428-465 | creates a fresh transfer command pool and allocates one command buffer from it; nothing else on the device changes |
| Helpers.Helpers.Destroy | Helpers.cpp:467-482 | frees the transfer command buffer, then destroys its pool, each only when not null, and leaves both fields null |
| Helpers.Helpers.FindMemoryType | Helpers.cpp:375-387 | succeeds exactly when a suitable memory type exists and returns the first one; otherwise fails with the source's message |
| Helpers.Helpers.FindImageFormat | Helpers.cpp:389-405 | succeeds exactly when some candidate supports the features and returns the first in list order; otherwise fails with the source's message |
| Helpers.Helpers.Allocate | Helpers.cpp:44-66 | fresh device memory of the requested size and type, mapped exactly when asked, logged as allocate (then map) calls |
| Helpers.Helpers.AllocateFor | Helpers.cpp:68-71 | allocates memory of the first type suiting the requirements; fails, changing nothing, when there is none |
| Helpers.Helpers.Free | Helpers.cpp:73-86 | unmaps only mapped memory, frees it, and returns an empty allocation |
| Helpers.Helpers.CreateBuffer | Helpers.cpp:88-111 | a fresh buffer of the requested size bound at offset 0 to fresh memory of the first suitable type; fails exactly when no type fits |
| Helpers.Helpers.DestroyBuffer | Helpers.cpp:113-120 | removes the buffer and then its memory from the device, accepts a null buffer, and returns an empty one |
| Helpers.Helpers.CreateImage | Helpers.cpp:123-159 | a fresh single-level image with the extent and format recorded, bound to memory of the first suitable type; fails exactly when no type fits |
| Helpers.Helpers.DestroyImage | Helpers.cpp:161-170 | removes the image and then its memory, accepts a null image, and returns an empty image |
| Helpers.Helpers.Stage | Helpers.cpp:177-186 | a fresh host-visible, mapped transfer-source buffer holding exactly the data |
| Helpers.Helpers.TransferToBuffer | Helpers.cpp:174-223 | on success the target buffer starts with the data and the staging buffer is gone (`BufferUploaded`); fails exactly when no staging memory type exists, changing nothing else |
| Helpers.Helpers.TransferToImage | Helpers.cpp:225-371 | given the 32-bit size the source asserts, the image holds the data in SHADER_READ_ONLY_OPTIMAL layout and the staging buffer is gone (`ImageUploaded`) |
| TutorialTypes.LinesBytes | PosColVertex.cpp:1-40 | the bytes of a line list are 16 per vertex |
| TutorialTypes.LinesBytesAt | PosColVertex.cpp:1-40 | the k-th 16-byte slice of a line list's bytes is the k-th vertex's record |
| TutorialTypes.MeshBytes | PosNorTexVertex.cpp:1-47 | the bytes of a mesh are 32 per vertex |
| TutorialTypes.MeshBytesAt | PosNorTexVertex.cpp:1-47 | the k-th 32-byte slice of a mesh's bytes is the k-th vertex's record |
| TutorialTypes.CameraRecord | Tutorial.hpp:53-57 | the camera uniform is 64 bytes |
| TutorialTypes.TransformRecord | Tutorial.hpp:80-86 | a transform record is 192 bytes |
| TutorialTypes.TransformsBytes | Tutorial.cpp:891-900 | the transforms of n instances take 192 × n bytes |
| TutorialTypes.TransformsBytesAt | Tutorial.cpp:891-900 | the k-th 192-byte slice holds instance k's transform |
| TutorialTypes.NewBytes | Tutorial.cpp:740 | the grown size is a multiple of 4096, strictly above the needed size and at most 4096 above it |
| TutorialTypes.GrowSettles | Tutorial.cpp:736-742 | after a grow no request up to the needed size triggers another grow |
| TutorialTypes.WorkspaceSetsFit | Tutorial.cpp:136-163 | the descriptor pool sized for n workspaces has room for each of the three sets workspace k allocates |
| TutorialTypes.WorkspacePoolExactlyFull | Tutorial.cpp:136-163 | after n workspaces the pool is exactly full, and any further set would not fit |
| TutorialTypes.TextureSetsFit | Tutorial.cpp:434-475 | the texture pool holds exactly one combined-image-sampler set per texture and nothing more |
| TutorialTypes.DrawStages | Tutorial.cpp:1030-1050 | the background is always drawn; lines are drawn exactly when the pattern is not None; objects exactly when it is not BlackHole; no stage twice; the black hole draws lines first |
| TutorialTypes.DefaultFrameStages | Tutorial.hpp:106 | the default Grid pattern draws background, then lines, then objects |
| TutorialTypes.InstanceDraws | Tutorial.cpp:1164-1180 | two commands per instance |
| TutorialTypes.InstanceDrawsAt | Tutorial.cpp:1164-1180 | instance k binds its texture's descriptor set, then draws its vertex range with first instance k |
| TutorialTypes.FrameOrder | Tutorial.cpp:731-989 | a frame's commands are the buffer copies, then the memory barrier, then only pass and draw commands |
| TutorialTypes.FrameEffect | Tutorial.cpp:731-989 | executing a frame's commands changes the device exactly as its copies alone do |
| TutorialTypes.GridCount | Tutorial.cpp:1460-1496 | the grid has 120 vertices, 60 yellow then 60 violet |
| TutorialTypes.ArcsLength | Tutorial.cpp:1498-1563 | the first n arcs of a spiral have the closed-form point count |
| TutorialTypes.SpiralShape | Tutorial.cpp:1498-1563 | each spiral has 632 vertices, all white |
| TutorialTypes.BlackHoleShape | Tutorial.cpp:1498-1563 | the black hole has 29072 vertices, all white |
| TutorialTypes.TorusRingAt | Tutorial.cpp:1611-1672 | ring u of the torus is the 96-vertex block at 96 × u |
| TutorialTypes.TorusCellAt | Tutorial.cpp:1611-1672 | cell (u, v) of the torus is the six vertices at 96 × u + 6 × v |
| TutorialTypes.TorusCount | Tutorial.cpp:1611-1672 | the torus has 1920 vertices |
| TutorialScene.ReplaceWorkspace | Tutorial.cpp:705-1027 | replacing one workspace with a live, owned one keeps the whole invariant |
| TutorialScene.UploadEffect | Tutorial.cpp:731-913 | running the frame's copies delivers lines, camera, world and, when copied, transforms to the device buffers |
| TutorialSetup.CreateOwnedBuffer | Helpers.cpp:88-111 | a created buffer is live, fresh and owned in its role; fails exactly when no memory type fits |
| TutorialSetup.CreateUniformPair | Tutorial.cpp:183-242 | a host/device uniform pair and its descriptor set, written to point at the device buffer |
| TutorialSetup.AllocateWorkspace | Tutorial.cpp:169-255 | the command buffer, uniform pairs and descriptor sets of one workspace, fresh and owned by workspace j |
| TutorialSetup.CreateWorkspace | Tutorial.cpp:169-303 | one live workspace whose sets point at its buffers; fails exactly when the needed memory types are missing |
| TutorialSetup.UploadMesh | Tutorial.cpp:305-326 | a fresh device-local vertex buffer that holds the mesh's bytes |
| TutorialSetup.UploadSize | Tutorial.cpp:338-352 | for a texture that fits, the size computed in 32 bits equals the image's byte size and is positive |
| TutorialSetup.CreateTexture | Tutorial.cpp:335-373 | a fresh sampled image holding the loaded texels in shader-read layout |
| TutorialSetup.CreateTextureViews | Tutorial.cpp:378-409 | one fresh view per texture, in order |
| TutorialSetup.AllocateTextureSets | Tutorial.cpp:459-475 | one fresh, unwritten set per texture from the texture pool |
| TutorialSetup.WriteTextureSets | Tutorial.cpp:477-504 | set k samples view k with the sampler in shader-read layout |
| TutorialSetup.CreateSamplerAndPool | Tutorial.cpp:411-455 | a fresh sampler and a fresh pool with room for exactly one set per texture |
| TutorialSetup.CreateTextureImages | Tutorial.cpp:329-375 | the yellow texture as UNORM and the water texture as SRGB, both uploaded |
| TutorialSetup.CreateTextureBindings | Tutorial.cpp:377-505 | views, sampler, pool and sets that together satisfy the texture part of the invariant |
| TutorialSetup.CreateTextures | Tutorial.cpp:329-505 | both textures and their bindings; fails exactly when a memory type is missing |
| TutorialSetup.CreateStatics | Tutorial.cpp:29-163 | a fresh command pool, render pass and descriptor pool sized for n workspaces, all owned |
| TutorialSetup.BuildingStep | Tutorial.cpp:166-326 | one loop iteration keeps the loop invariant, and the overwritten mesh buffer joins the leaked list |
| TutorialSetup.LeakedGrown | Tutorial.cpp:316 | leaking one more live, owned mesh buffer keeps the leaked list sound |
| TutorialSetup.BuildIteration | Tutorial.cpp:165-326 | one iteration: a new workspace and a new mesh buffer holding the mesh |
| TutorialSetup.BuildWorkspaces | Tutorial.cpp:163-327 | n workspaces, the last mesh buffer kept and n - 1 leaked; fails exactly when a memory type is missing |
| TutorialSetup.Constructed | Tutorial.cpp:18-505 | the built statics, workspaces and textures together satisfy the invariant, and the mesh buffer holds the mesh |
| TutorialSetup.Construct | Tutorial.cpp:29-505 | the whole constructor after the depth format: succeeds exactly when the memory types exist, with n workspaces, n - 1 leaked buffers and the invariant |
| TutorialFrame.DestroyPair | Tutorial.cpp:741-748 | destroys a host/device buffer pair, touching nothing else |
| TutorialFrame.CreatePair | Tutorial.cpp:750-763 | a fresh host-visible source and device-local target of the requested size |
| TutorialFrame.GrowPair | Tutorial.cpp:736-766 | the old pair is destroyed and a new one of NewBytes(needed) takes its place, owned in the same slots |
| TutorialFrame.WriteAndCopy | Tutorial.cpp:771-783 | the source buffer holds the bytes and one copy command is appended to the frame |
| TutorialFrame.GrowLines | Tutorial.cpp:736-766 | the workspace's lines pair is replaced by one of NewBytes(needed), and nothing else in the workspace changes |
| TutorialFrame.StageLines | Tutorial.cpp:733-785 | grows the lines pair exactly when needed, and the source then holds the line bytes |
| TutorialFrame.UploadLines | Tutorial.cpp:731-792 | nothing happens for an empty line list; otherwise the lines are written and the copy is recorded |
| TutorialFrame.UploadWhole | Tutorial.cpp:793-806 | writes a fixed-size uniform and records its whole-buffer copy |
| TutorialFrame.UploadFixed | Tutorial.cpp:787-824 | the camera and world sources hold their records and both copies are recorded |
| TutorialFrame.WriteTransforms | Tutorial.cpp:891-900 | the transforms source holds each instance's 192-byte record in order, and nothing else changes |
| TutorialFrame.GrowTransforms | Tutorial.cpp:831-883 | the transforms pair is replaced by one of NewBytes(needed), and the descriptor set is rewritten to the new buffer |
| TutorialFrame.StageTransforms | Tutorial.cpp:826-915 | grows the pair, writes every record to the transforms source and records the copy of 192 bytes per instance to the device buffer |
| TutorialFrame.UploadTransforms | Tutorial.cpp:826-915 | the copy happens exactly when there are instances and the pair had to grow; otherwise the recorded commands are unchanged |
| TutorialFrame.UploadLinesAndFixed | Tutorial.cpp:731-824 | lines, camera and world are staged and their copies recorded in source order |
| TutorialFrame.UploadAll | Tutorial.cpp:731-915 | every upload of a frame, with the copies in source order |
| TutorialFrame.CustomNone | Tutorial.cpp:1030-1050 | with pattern None the pass draws background then objects |
| TutorialFrame.CustomBlackHole | Tutorial.cpp:1030-1050 | with pattern BlackHole the pass draws lines then background |
| TutorialFrame.CustomAll | Tutorial.cpp:1030-1050 | with X or Grid the pass draws background, lines, objects |
| TutorialFrame.RenderBackgroundPipeline | Tutorial.cpp:1052-1070 | records bind, push constants and a three-vertex draw |
| TutorialFrame.RenderLinesPipeline | Tutorial.cpp:1072-1117 | records bind, vertex buffer, camera set and a draw of the uint32 vertex count |
| TutorialFrame.RenderObjectsPipeline | Tutorial.cpp:1119-1181 | records the objects pipeline's head, then per instance its texture set and its draw |
| TutorialFrame.RenderCustom | Tutorial.cpp:1030-1050 | records exactly the stages of DrawStages for the pattern |
| TutorialFrame.BeginFrame | Tutorial.cpp:718-726 | resets the workspace's command buffer and begins one-time recording |
| TutorialFrame.RecordPass | Tutorial.cpp:915-989 | the barrier, then the render pass with the pattern's draws |
| TutorialFrame.SubmitFrame | Tutorial.cpp:991-1023 | ends recording and submits with the image-available wait, the image-done signal and the workspace fence |
| TutorialFrame.FrameDelivers | Tutorial.cpp:731-1023 | executing the frame delivers lines, camera, world and the copied transforms to the device buffers |
| TutorialFrame.FrameEnds | Tutorial.cpp:705-1027 | the frame's steps compose to the stated submission and delivery |
| TutorialFrame.Frame | Tutorial.cpp:705-1027 | one frame on one workspace: the workspace changes only in its lines and transforms pairs, the submitted commands are FrameCmds, and the device buffers hold the frame's data |
| TutorialTeardown.DestroyObjects | Tutorial.cpp:530-535 | destroys each object in order and removes exactly those |
| TutorialTeardown.DestroyImages | Tutorial.cpp:537-541 | destroys each image and its memory, in order |
| TutorialTeardown.DestroyHeldBuffers | Tutorial.cpp:558-593 | destroys each non-null buffer and its memory, in order |
| TutorialTeardown.DestroyWorkspace | Tutorial.cpp:550-591 | frees the command buffer and destroys the eight buffers of one workspace |
| TutorialTeardown.DestroyWorkspaces | Tutorial.cpp:550-596 | every workspace's command buffer and buffers are gone, and nothing else |
| TutorialTeardown.ReleaseTextureViews | Tutorial.cpp:515-535 | the texture pool, sampler and views are gone |
| TutorialTeardown.ReleaseTextureImages | Tutorial.cpp:537-543 | the textures and ObjectVertices are gone, and the field is emptied |
| TutorialTeardown.ReleaseFrameResources | Tutorial.cpp:550-621 | workspaces, descriptor pool, command pool and render pass are gone |
| TutorialTeardown.TornDownObjects | Tutorial.cpp:507-621 | after the destructor exactly the scene's objects and pools are gone |
| TutorialTeardown.TornDownCommandBuffers | Tutorial.cpp:550-614 | after the destructor no command buffer of the command pool remains |
| TutorialTeardown.TornDownBuffers | Tutorial.cpp:507-621 | after the destructor exactly ObjectVertices and the workspaces' buffers are gone, with their memory and the images' |
| TutorialTeardown.TornDownImagesAndPools | Tutorial.cpp:507-621 | after the destructor exactly the textures and the depth image are gone, both pools, and their sets |
| TutorialTeardown.LeakedSurvive | Tutorial.cpp:316 | every mesh buffer the constructor overwrote, and its memory, is still on the device after the destructor |
| TutorialTeardown.TransferSurvivesClosing | Tutorial.cpp:507-621 | the helpers' transfer pool and command buffer survive the destructor |
| Tutorial.SceneInstances | Tutorial.cpp:1263-1310 | two instances: the plane with texture 1, then the torus with texture 0 |
| Tutorial.FrameKeepsScene | Tutorial.cpp:705-1027 | a frame that touches only its own workspace keeps the invariant |
| Tutorial.SceneFrame | Tutorial.cpp:705-1027 | one frame on workspace i, proved against the invariant |
| Tutorial.Tutorial.constructor | Tutorial.hpp:9-241 | every member starts null or empty |
| Tutorial.Tutorial.Initialize | Tutorial.cpp:18-505 | succeeds exactly when a depth format and the memory types exist; then n workspaces, two uploaded textures, n - 1 leaked mesh buffers, and the invariant with the mesh uploaded |
| Tutorial.Tutorial.InstantializeMesh | Tutorial.cpp:307-312 | the plane then the torus, 6 + 1920 vertices, with the ranges recorded |
| Tutorial.Tutorial.Render | Tutorial.cpp:705-1027 | the invariant is kept; only the rendered workspace changes, and only in its streamed pairs; the submitted commands and the device buffers' contents are stated |
| Tutorial.Tutorial.MakePatternX | Tutorial.cpp:1430-1458 | the four vertices of the cross |
| Tutorial.Tutorial.MakePatternGrid | Tutorial.cpp:1460-1496 | the loop builds exactly GridVertices |
| Tutorial.Tutorial.MakePatternBlackHole | Tutorial.cpp:1498-1563 | the loop builds exactly BlackHoleVertices |
| Tutorial.Tutorial.InstantializePlane | Tutorial.cpp:1567-1609 | appends the plane and records first (uint32-wrapped) and count 6; the range picks out the plane |
| Tutorial.Tutorial.InstantializeTorus | Tutorial.cpp:1611-1672 | appends the torus and records first (uint32-wrapped) and count 1920; the range picks out the torus |
| Tutorial.Tutorial.Update | Tutorial.cpp:1184-1313 | the lines follow the pattern (Grid, BlackHole, otherwise X), and the instances are the plane and the torus |
| Tutorial.Tutorial.DestroyFramebuffers | Tutorial.cpp:688-703 | destroys the framebuffers in order, then the depth view, then the depth image, and clears the three fields |
| Tutorial.Tutorial.ReleaseFront | Tutorial.cpp:507-548 | from the state the destructor starts in, the texture pool, sampler, views, textures and ObjectVertices are gone and then the swapchain objects, leaving the device in `SwapchainDestroyed`; ObjectVertices and the swapchain fields end empty |
| Tutorial.Tutorial.ReleaseSwapchain | Tutorial.cpp:545-548 | with the front objects already gone, the framebuffers, depth view and depth image are destroyed (`SwapchainDestroyed`), and the three fields end empty |
| Tutorial.Tutorial.ReleaseAll | Tutorial.cpp:507-621 | the destructor's every device step in source order: the device ends in `TornDown` of the starting state, with ObjectVertices and the swapchain fields empty |
| Tutorial.Tutorial.ClearReleased | Tutorial.cpp:521-619 | the fields the destructor clears or nulls (texture sets, sampler, views, textures, workspaces, pools, render pass) end empty or null |
| Tutorial.Tutorial.Destroy | Tutorial.cpp:507-621 | the device ends in TornDown of the state before, and every field is cleared |

## Left out

- Device.Gpu.QueueSubmit runs the submitted commands to completion at the call, whereas vkQueueSubmit (Tutorial.cpp:1023) only enqueues them. `Delivered` in `Tutorial.Tutorial.Render` describes the device once the GPU has run the frame; semaphore and fence timing is not modelled.
- VK() error paths: every Vulkan create, allocate and submit call succeeds in the model. Only the failures of FindMemoryType and find_image_format are modelled, as `Failure` results.
- Helpers.Helpers.Allocate: requires 0 < size, which Vulkan demands of every allocation; the source passes the size through unchecked.
- Helpers.Helpers.CreateBuffer: requires 0 < size, which Vulkan demands of every buffer.
- Helpers.Helpers.TransferToBuffer: requires 0 < |data| and |data| <= the target's size. The source does not check these, but Vulkan's buffer creation and copy rules demand them.
- Helpers.Helpers.Allocate: the alignment argument is accepted and ignored, as in the source (Helpers.cpp:44-66). The model's memory has no addresses, so alignment has nothing to constrain.
- Tutorial.Tutorial.Render: requires worldBytes == CameraBytes, the assertion at Tutorial.cpp:811 taken as a precondition. A release build skips it. The header that fixes sizeof(ObjectsPipeline::World) is not part of this model.
- Tutorial.Tutorial.Destroy: requires DeviceOk(), which needs a live ObjectVertices buffer and so at least one workspace. A Tutorial built for zero workspaces is not covered, although the source's destructor accepts it.
- on_swapchain (Tutorial.cpp:623-686) is not modelled. It creates the depth image, its view and the framebuffers. `swapchainFramebuffers` is therefore only ever empty in a Tutorial the model builds, and `Tutorial.Tutorial.Render` is proved for any valid state with framebuffers.
- on_input (Tutorial.cpp:1315-1427) and the camera modes are not modelled; they only change host-side floats.
- The three pipelines' create and destroy calls (Tutorial.cpp:132-134, 597-600) and their contents (Tutorial-BackgroundPipeline.cpp, Tutorial-LinesPipeline.cpp) are not modelled. They appear neither in the call log nor in `TornDown`; the pipelines are named constants in the recorded commands.
- Helpers.cpp create_shader_module (407-419) is not part of this model.
- The contents of create-info structures (render pass attachments, sampler filtering, descriptor layouts) are not modelled. Only the objects created and the descriptor counts are.
- Image loading (ImageLoader.hpp) and file I/O are left out. The two textures are parameters of `Tutorial.Tutorial.Initialize`, each with width × height < 2^32 (`Uploadable`), which the 32-bit size in Tutorial.cpp:338 needs to equal the image's size.
- Floating point: vertex positions, colours, matrices (mat4.hpp) and the trigonometry of the patterns and the torus are parameters (`coord`, `depth`, `point`, `vertex`, `mul`). The model fixes how many vertices are produced, in which order, and with which colours, but not their coordinates. Byte records of floats are abstract functions of fixed length.
- Logging (Tutorial.cpp:512 and the leak warnings in Helpers.cpp) is not modelled beyond the leak flag of `Helpers.MoveAssign`.
- The C++ constructor is split into the defaults of `Tutorial.Tutorial.constructor` and `Tutorial.Tutorial.Initialize`, and the objects are stored into the fields at the end rather than one by one. The device calls and their order are the source's.
- The constructor's loop builds the object mesh anew in each iteration (Tutorial.cpp:307-312); the model builds it once, before the loop, because every iteration yields the same vertices.
- The RTG framework (window, swapchain, render loop, the `workspaces` count) is outside the core. The number of workspaces is the parameter `n`.
- Tutorial.hpp is older than Tutorial.cpp: it has no `ObjectInstance::Texture`, no `World` record and no `TextureDescriptors`, and spells the transform record `Transfrom` (Tutorial.hpp:80, 168-171). The model follows Tutorial.cpp where the two disagree, including texture 0 for the torus instances, the value-initialised member the initializer at Tutorial.cpp:1300-1308 leaves out.
- Device.Gpu models the Vulkan API itself and needs no source rows; its contracts are the assumptions the model makes about the driver.
