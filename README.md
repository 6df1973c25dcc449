# cocos2d-x GFX rendering backend, modelled in Dafny

This project models the core of cocos2d-x's GFX rendering backend
(`cocos/renderer/backend/gfx`). That backend turns the engine's backend API
(command buffers, render pipelines, textures and programs) into calls on the
`cc::gfx` device layer. The model covers four classes:

- **CommandBufferGFX** (`command_buffer.dfy`) orchestrates each frame:
  - It creates the swapchain on the first frame. It rebuilds the default framebuffer after a window resize.
  - It caches render passes under a 32-bit key made from the clear flags and the depth/stencil choice.
  - `beginRenderPass` resolves the framebuffer to draw into: a generated one for an external colour attachment, otherwise the default one.
  - It keeps the viewport and scissor rectangle, flipping the scissor on Vulkan.
  - It retains and releases the buffers, program state and pipeline it is given.
  - For every draw it fills the pipeline-state record, creates a pipeline state and an input assembler, and records the draw. The vertex layout is derived through an offset-ordered `std::map`.
  - `endFrame` submits, presents, and frees every transient object.
- **RenderPipelineGFX** (`render_pipeline.dfy`) remembers a pipeline descriptor's program, with reference counting, and its blend settings. It writes them into blend target 0 of a pipeline-state record, including the colour write mask.
- **Texture2DGFX and TextureCubeGFX** (`texture.dfy`) translate a texture descriptor into device texture and sampler descriptions:
  - the mip filter, the GEN_MIPMAP flag, the usage bits and the `ISPOW2` rule;
  - creating the device texture on demand and filling a fresh 2D texture with zeros;
  - recording every region uploaded.
- **DeviceGFX** (`device.dfy`) covers:
  - the singleton and `setSwapchainInfo`;
  - `newBuffer` and `newTexture`;
  - the builtin shader tables, filled once by `initBuiltinShaderInfo` through `BuiltinShaderHelper`;
  - `newProgram`, which assembles a shader description from those tables: stages, attributes, uniform blocks, sampler textures and name.

Shared vocabulary is in `gfx_types.dfy`. It holds:

- the handles and formats, the bit constants and the client-side records;
- the retain/release log with its `Net` count;
- `GfxDevice`, which models the graphics device as an allocator of fresh handles with a set of live objects.

`ordered_map.dfy` models `std::map<size_t, V>` as a strictly key-sorted sequence of pairs.

State-changing members are methods of classes whose fields mirror the C++ members. Each method states its new state. Reference counting is a log of `Retain`/`Release` calls. The invariant that each log nets out to exactly the references the object's slots hold is kept by every setter. Device calls that the command buffer issues are appended, in order, to a `commands` log.

## Model

All source paths are relative to the repository root and lie in `cocos/renderer/backend/gfx/`.

| member | source | states |
|---|---|---|
| GfxTypes.NetAppend | cocos/renderer/backend/gfx/RenderPipelineGFX.cpp:20-25 | The references counted over two consecutive call logs add up. This is what lets every owner reason about each new retain/release separately. |
| GfxTypes.ReassignMovesReference | cocos/renderer/backend/gfx/RenderPipelineGFX.cpp:22-24 | CC_SAFE_RELEASE of the held object, then CC_SAFE_RETAIN of the new one, moves exactly one reference from the old object to the new one. Null pointers on either side are skipped. |
| GfxTypes.GfxDevice.Create | cocos/renderer/backend/gfx/CommandBufferGFX.cpp:552-555 | A device object created by the device gets a handle never handed out before. The live set grows by exactly that handle. |
| GfxTypes.GfxDevice.Destroy | cocos/renderer/backend/gfx/CommandBufferGFX.cpp:324-342 | Deleting a device object removes exactly that handle from the live set. |
| OrderedMap.Put | cocos/renderer/backend/gfx/CommandBufferGFX.cpp:447-458 | `m[k] = v` on an ordered map keeps it strictly sorted. Its key set gains exactly k, and it holds no pair other than the old ones and (k, v). |
| OrderedMap.GetPut | cocos/renderer/backend/gfx/CommandBufferGFX.cpp:447-458 | After `m[k] = v`, key k maps to v and every other key keeps its old value. |
| OrderedMap.GetAbsent | cocos/renderer/backend/gfx/CommandBufferGFX.cpp:447-458 | A key not in the map is not found. |
| OrderedMap.Values | cocos/renderer/backend/gfx/CommandBufferGFX.cpp:459-462 | Iterating the map yields one value per pair, in key order. |
| RenderPipeline.RenderPipelineGFX.constructor | cocos/renderer/backend/gfx/RenderPipelineGFX.h:14-27 | A new (defaulted) pipeline holds no program (`_programGFX` is null), has the default blend descriptor and has made no retain/release call. |
| RenderPipeline.RenderPipelineGFX.Update | cocos/renderer/backend/gfx/RenderPipelineGFX.cpp:16-28 | When the handle of the descriptor's program differs from the held one's (the source compares pointers), the old program is released, the new one retained and stored. The same program causes no reference-count call. The blend descriptor is always saved. The retain/release log keeps balancing to exactly the held program. |
| RenderPipeline.RenderPipelineGFX.DoUpdate | cocos/renderer/backend/gfx/RenderPipelineGFX.cpp:30-65 | A null record is left alone. Otherwise only blend target 0 changes, and it follows the saved descriptor (see ApplyBlend). All other targets and fields are unchanged. |
| RenderPipeline.RenderPipelineGFX.ApplyBlend | cocos/renderer/backend/gfx/RenderPipelineGFX.cpp:36-64 | Blending is on exactly when the descriptor enables it. When on, all six factors and operations come from the descriptor. When off, the previous factors are kept. The colour mask matches the write mask channel by channel. |
| RenderPipeline.ColorMaskOf | cocos/renderer/backend/gfx/RenderPipelineGFX.cpp:51-64 | Each of R, G, B and A is in the colour mask exactly when the matching write-mask bit is set, and no other bit is set. |
| RenderPipeline.MaskNoneIffWriteMaskEmpty | cocos/renderer/backend/gfx/RenderPipelineGFX.cpp:56-64 | The colour mask is NONE exactly when the write mask has none of the four channel bits. |
| Texture.MipmapFilter | cocos/renderer/backend/gfx/TextureGFX.cpp:18-32 | POINT exactly for the two `*_MIPMAP_NEAREST` filters. LINEAR exactly for the two `*_MIPMAP_LINEAR` filters. NONE exactly for NEAREST, LINEAR and DONT_CARE. |
| Texture.BitTrickExactly | cocos/renderer/backend/gfx/TextureGFX.cpp:15 | The 32-bit `ISPOW2` test `(n & (n-1)) == 0` accepts exactly 0 and the powers of two. The powers of two are defined independently, by repeated halving. |
| Texture.CanGenerateMipmap | cocos/renderer/backend/gfx/TextureGFX.cpp:33-40 | Every API except WebGL can generate mipmaps. |
| Texture.WebGLMipmapRule | cocos/renderer/backend/gfx/TextureGFX.cpp:33-40 | On WebGL, mipmaps can be generated exactly when each side is 0 or a power of two. |
| Texture.UsageBits | cocos/renderer/backend/gfx/TextureGFX.cpp:94-105 | SAMPLED is always set. DEPTH_STENCIL_ATTACHMENT is set exactly for a D24S8 render target. COLOR_ATTACHMENT is set exactly for any other render target. TRANSFER_DST is set exactly for a texture that is not a render target. No other bit is set. |
| Texture.WantsMipmaps | cocos/renderer/backend/gfx/TextureGFX.cpp:120-126 | A texture has mipmaps exactly when it is not compressed and its minification filter is one of the four mipmapped filters. |
| Texture.FlagsAfter | cocos/renderer/backend/gfx/TextureGFX.cpp:127-130 | GEN_MIPMAP is set afterwards exactly when it was set before or mipmaps are wanted. Every other flag bit is unchanged. |
| Texture.Texture2DGFX.constructor | cocos/renderer/backend/gfx/TextureGFX.cpp:43-49 | The texture takes the descriptor's size, format and usage, and its descriptions agree with them. Its sampler description and texture flags are those the descriptor's sampler settings give from the defaults (`SamplerInfoAfter`, `FlagsAfter`, TextureGFX.cpp:118-136). A descriptor with non-zero sides and a format that is neither NONE nor D24S8 creates a fresh device texture and uploads one zero-filled full-size image into mip 0; its sampler is interned and the device's live set gains exactly that texture. Any other descriptor creates nothing: no texture, no sampler, no upload, and the live set is unchanged. |
| Texture.Texture2DGFX.UpdateTextureDescriptor | cocos/renderer/backend/gfx/TextureGFX.cpp:87-111 | The texture takes the descriptor's size, format and usage. The device description gets the converted format, the size and the usage bits. The flags and sampler description follow the sampler descriptor. The zero fill happens exactly when the parameters are valid and the format is not D24S8: it creates the device texture only if there is none. Otherwise textures, sampler, uploads and live objects are unchanged. |
| Texture.Texture2DGFX.ZeroFillIfValid | cocos/renderer/backend/gfx/TextureGFX.cpp:107-110 | The guarded zero fill described above, and nothing when the guard fails. |
| Texture.Texture2DGFX.ApplyDescriptor | cocos/renderer/backend/gfx/TextureGFX.cpp:89-105 | Copies the descriptor fields and leaves the device descriptions consistent with them. |
| Texture.Texture2DGFX.UpdateSamplerDescriptor | cocos/renderer/backend/gfx/TextureGFX.cpp:118-136 | `hasMipmaps` is as WantsMipmaps says. Only GEN_MIPMAP of the flags can change (FlagsAfter). A compressed texture keeps its mip filter. Pow-2 flags and address modes come from the current size. |
| Texture.Texture2DGFX.ResetTexture | cocos/renderer/backend/gfx/TextureGFX.cpp:76-85 | Any existing device texture is deleted. A fresh one is created from the description, and the sampler is interned from the sampler description. |
| Texture.Texture2DGFX.InitWithZeros | cocos/renderer/backend/gfx/TextureGFX.cpp:56-74 | Creates the device texture when there is none, then uploads one full-size region into mip 0. An existing texture is reused unchanged. |
| Texture.Texture2DGFX.UpdateData | cocos/renderer/backend/gfx/TextureGFX.cpp:143-146 | The same as UpdateSubData at offset (0, 0). |
| Texture.Texture2DGFX.UpdateSubData | cocos/renderer/backend/gfx/TextureGFX.cpp:154-165 | Creates the device texture only if there is none, then appends exactly one copy, of the given region and mip level, into that texture. |
| Texture.Texture2DGFX.ParametersValid | cocos/renderer/backend/gfx/TextureGFX.cpp:51-54 | The parameters are valid exactly when the texture has a non-empty area (width times height is not 0) and a pixel format other than NONE. |
| Texture.Texture2DGFX.GenerateMipmaps | cocos/renderer/backend/gfx/TextureGFX.cpp:182-189 | Mipmaps are produced when data is copied, so the call changes no state. The method modifies nothing, and the texture's descriptions stay consistent. |
| Texture.TextureCubeGFX.constructor | cocos/renderer/backend/gfx/TextureGFX.cpp:211-223 | The cube takes the descriptor's fields, with the sampler description and texture flags its sampler settings give from the defaults (`SamplerInfoAfter`, `FlagsAfter`, TextureGFX.cpp:250-268). It then always creates one fresh device texture and interns exactly that sampler. It uploads nothing. |
| Texture.TextureCubeGFX.UpdateTextureDescriptor | cocos/renderer/backend/gfx/TextureGFX.cpp:225-243 | As for 2D textures, without the zero fill: the cube description gets the converted format, the size and the usage bits. |
| Texture.TextureCubeGFX.UpdateSamplerDescriptor | cocos/renderer/backend/gfx/TextureGFX.cpp:250-268 | The same mipmap, flag and sampler rules as for 2D textures. |
| Texture.TextureCubeGFX.UpdateFaceData | cocos/renderer/backend/gfx/TextureGFX.cpp:270-278 | Appends one full-size copy into array layer `side` (one layer, mip 0) of the cube's device texture. |
| Texture.TextureCubeGFX.GenerateMipmaps | cocos/renderer/backend/gfx/TextureGFX.cpp:285-287 | The empty body changes no state. The method modifies nothing, and the cube's descriptions stay consistent. |
| CommandBuffer.RenderPassKey | cocos/renderer/backend/gfx/CommandBufferGFX.cpp:512 | For clear flags built from COLOR, DEPTH and STENCIL, the sum in the key never carries. The key is the flags with bit 31 set exactly when there is no depth/stencil attachment. |
| CommandBuffer.KeyDecodes | cocos/renderer/backend/gfx/CommandBufferGFX.cpp:512 | The render-pass cache key gives back the clear flags and the depth/stencil choice it was made from. |
| CommandBuffer.KeyInjective | cocos/renderer/backend/gfx/CommandBufferGFX.cpp:512-516 | Two lookups share a cache entry exactly when their clear flags and depth/stencil choice agree. |
| CommandBuffer.RenderPassInfoFor | cocos/renderer/backend/gfx/CommandBufferGFX.cpp:517-551 | The colour attachment has the given format and is CLEAR when colour is cleared, else LOAD. The fragment-read barrier is attached exactly when colour is not cleared. A depth/stencil attachment is present exactly when asked for, with depth and stencil load ops following their clear bits. |
| CommandBuffer.CacheStepKeepsConsistent | cocos/renderer/backend/gfx/CommandBufferGFX.cpp:507-556 | A lookup-or-create step keeps every cached pass matching its key. It never evicts, and the returned pass is the one cached under its key. |
| CommandBuffer.Collect | cocos/renderer/backend/gfx/CommandBufferGFX.cpp:447-458 | The offset-keyed map built from a vertex layout is strictly sorted, and every location in it is in range. |
| CommandBuffer.CollectAbsent | cocos/renderer/backend/gfx/CommandBufferGFX.cpp:447-458 | An offset is missing from the map exactly when no in-range layout entry has that offset. |
| CommandBuffer.CollectFindsLast | cocos/renderer/backend/gfx/CommandBufferGFX.cpp:447-458 | An offset maps to the last in-range layout entry with that offset: later entries overwrite earlier ones. |
| CommandBuffer.AttributeLayout | cocos/renderer/backend/gfx/CommandBufferGFX.cpp:435-478 | A non-empty attribute list came from a valid layout of a present program state. It has no UNKNOWN format, and every location in it is in range. Conversely, a valid layout whose converted formats are all known yields exactly its in-range attributes in ascending offset order, the last one per offset winning. |
| CommandBuffer.LayoutSortedByOffset | cocos/renderer/backend/gfx/CommandBufferGFX.cpp:447-462 | A non-empty attribute list is the value list of a strictly offset-sorted map of the layout. |
| CommandBuffer.ClearFlagsOf | cocos/renderer/backend/gfx/CommandBufferGFX.cpp:112-118 | COLOR, DEPTH and STENCIL are set exactly when the descriptor asks to clear them, and no other bit is set. |
| CommandBuffer.ScissorRectFor | cocos/renderer/backend/gfx/CommandBufferGFX.cpp:364-390 | An enabled rectangle is kept as given, except that on Vulkan with a current framebuffer its y is mirrored within the framebuffer height. A disabled scissor covers 32768 x 32768 from the origin. |
| CommandBuffer.HeldByUpdate | cocos/renderer/backend/gfx/CommandBufferGFX.cpp:236-263 | Replacing one slot's object changes the references the slots hold by exactly one release of the old object and one retain of the new one. |
| CommandBuffer.ReassignKeepsBalance | cocos/renderer/backend/gfx/CommandBufferGFX.cpp:236-263 | Reassigning a slot (release the old object, retain the new one) keeps the call log balanced with the slots. |
| CommandBuffer.ReleaseSlotsKeepsBalance | cocos/renderer/backend/gfx/CommandBufferGFX.cpp:500-505 | Releasing and clearing the index buffer, vertex buffer and program state slots keeps the log balanced, with only the pipeline slot still held. |
| CommandBuffer.CommandBufferGFX.constructor | cocos/renderer/backend/gfx/CommandBufferGFX.cpp:49-59 | A new command buffer has empty caches and pools, no swapchain, framebuffer or pass, no retained object, a default pipeline-state record and an empty log. |
| CommandBuffer.CommandBufferGFX.OnWindowResized | cocos/renderer/backend/gfx/CommandBufferGFX.cpp:53-58 | The resize listener sets the resized flag and nothing else. |
| CommandBuffer.CommandBufferGFX.GetRenderPass | cocos/renderer/backend/gfx/CommandBufferGFX.cpp:507-556 | On a hit it returns the cached pass and creates nothing. On a miss it creates one fresh pass from RenderPassInfoFor and caches it under the key. The cache stays consistent and never loses a pass. |
| CommandBuffer.CommandBufferGFX.BeginRenderPass | cocos/renderer/backend/gfx/CommandBufferGFX.cpp:98-195 | With an external colour attachment, a fresh framebuffer over that texture and the external depth/stencil texture is generated and kept until the frame ends. Otherwise the default framebuffer is used with the view's frame size. The current pass is chosen as SelectCurrentPass says, and one begin-render-pass command is recorded with the draw rectangle. |
| CommandBuffer.CommandBufferGFX.SelectCurrentPass | cocos/renderer/backend/gfx/CommandBufferGFX.cpp:186-191 | On the default framebuffer, the pass is the cached pass for the clear flags with depth/stencil, in the framebuffer's colour format. On a generated framebuffer, it is the pass the framebuffer was created with. |
| CommandBuffer.CommandBufferGFX.ChooseFramebuffer | cocos/renderer/backend/gfx/CommandBufferGFX.cpp:145-167 | A generated framebuffer for an external colour attachment, otherwise the default framebuffer sized like the view. |
| CommandBuffer.CommandBufferGFX.UseGeneratedFramebuffer | cocos/renderer/backend/gfx/CommandBufferGFX.cpp:145-162 | The generated framebuffer is fresh. It holds the external colour texture and the external depth/stencil texture, and uses the cached pass for the clear flags. It joins the frame's pool, its textures are kept, and the current size is the colour texture's. |
| CommandBuffer.CommandBufferGFX.EndRenderPass | cocos/renderer/backend/gfx/CommandBufferGFX.cpp:318-322 | Records the end of the pass and clears the current pass. |
| CommandBuffer.CommandBufferGFX.BeginFrame | cocos/renderer/backend/gfx/CommandBufferGFX.cpp:72-96 | The first frame creates the swapchain, later frames keep it. The swapchain is acquired and recording begins. After a resize, or with no default framebuffer, the default framebuffer is rebuilt from the swapchain. Otherwise it is kept. |
| CommandBuffer.CommandBufferGFX.CreateSwapchain | cocos/renderer/backend/gfx/CommandBufferGFX.cpp:74-84 | On the first frame, one swapchain is created for the window, with device-sized fresh colour and depth/stencil textures. Later frames change nothing. |
| CommandBuffer.CommandBufferGFX.DropDefaultFBOOnResize | cocos/renderer/backend/gfx/CommandBufferGFX.cpp:88-92 | After a resize, the default framebuffer is deleted and the flag cleared. Otherwise nothing changes. |
| CommandBuffer.CommandBufferGFX.ResetDefaultFBO | cocos/renderer/backend/gfx/CommandBufferGFX.cpp:558-603 | The old default framebuffer is deleted. A fresh one is built over the first swapchain's colour and depth/stencil textures, with the cached clear-all depth/stencil pass. |
| CommandBuffer.CommandBufferGFX.EndFrame | cocos/renderer/backend/gfx/CommandBufferGFX.cpp:324-342 | Records end, flush, submit and present. Deletes exactly the frame's pipeline states, input assemblers and generated framebuffers, empties the pools, drops the kept textures and makes the default framebuffer current. |
| CommandBuffer.SwapchainIds | cocos/renderer/backend/gfx/CommandBufferGFX.cpp:85 | The list passed to `acquire` holds the handle of each swapchain, in order, one per swapchain. |
| CommandBuffer.CommandBufferGFX.SetRenderPipeline | cocos/renderer/backend/gfx/CommandBufferGFX.cpp:197-207 | A null pipeline is ignored. Otherwise the held pipeline is reassigned with release-then-retain, keeping the log balanced. |
| CommandBuffer.CommandBufferGFX.SetViewport | cocos/renderer/backend/gfx/CommandBufferGFX.cpp:209-224 | Stores the viewport and records it as a set-viewport command. |
| CommandBuffer.CommandBufferGFX.SetCullMode | cocos/renderer/backend/gfx/CommandBufferGFX.cpp:226-229 | Stores the cull mode that the next draw's record takes. |
| CommandBuffer.CommandBufferGFX.SetDepthStencilState | cocos/renderer/backend/gfx/CommandBufferGFX.cpp:344-354 | Stores the given state, or none for a null pointer. The state is not retained. |
| CommandBuffer.CommandBufferGFX.SetWinding | cocos/renderer/backend/gfx/CommandBufferGFX.cpp:231-234 | Front faces are counter-clockwise exactly for counter-clockwise winding, and nothing else in the record changes. |
| CommandBuffer.CommandBufferGFX.SetIndexBuffer | cocos/renderer/backend/gfx/CommandBufferGFX.cpp:236-245 | A null buffer is ignored. Otherwise the index buffer slot is reassigned, keeping the log balanced. |
| CommandBuffer.CommandBufferGFX.SetVertexBuffer | cocos/renderer/backend/gfx/CommandBufferGFX.cpp:247-256 | A null buffer, or the one already held, changes nothing. Otherwise the vertex buffer slot is reassigned, keeping the log balanced. |
| CommandBuffer.CommandBufferGFX.SetProgramState | cocos/renderer/backend/gfx/CommandBufferGFX.cpp:258-263 | The program state, even a null one, is stored with release-then-retain, keeping the log balanced. |
| CommandBuffer.CommandBufferGFX.SetLineWidth | cocos/renderer/backend/gfx/CommandBufferGFX.cpp:356-362 | The stored line width is always positive. It is the given width when that is positive, and 1 otherwise. Nothing else changes. |
| CommandBuffer.CommandBufferGFX.SetScissorRect | cocos/renderer/backend/gfx/CommandBufferGFX.cpp:364-390 | Stores the enable flag and the rectangle given by ScissorRectFor, and records one set-scissor command. |
| CommandBuffer.CommandBufferGFX.GetAttributesFromProgramState | cocos/renderer/backend/gfx/CommandBufferGFX.cpp:435-478 | The three loops compute exactly AttributeLayout: empty without a valid layout and on an UNKNOWN format, else the in-range entries in offset order. |
| CommandBuffer.CommandBufferGFX.CollectByOffset | cocos/renderer/backend/gfx/CommandBufferGFX.cpp:447-458 | The first loop builds exactly the offset-keyed map Collect describes. |
| CommandBuffer.CommandBufferGFX.ListValues | cocos/renderer/backend/gfx/CommandBufferGFX.cpp:459-462 | The second loop lists exactly the map's values in key order. |
| CommandBuffer.CommandBufferGFX.AllFormatsKnown | cocos/renderer/backend/gfx/CommandBufferGFX.cpp:463-475 | The third loop succeeds exactly when no attribute has the UNKNOWN format. |
| CommandBuffer.CommandBufferGFX.PrepareDrawing | cocos/renderer/backend/gfx/CommandBufferGFX.cpp:396-433 | The record takes the program's shader and layout, the current pass, the depth/stencil state and stencil references, the cull mode, and the pipeline's blend settings. Exactly one fresh pipeline state is created from it and bound after the uniform bindings. |
| CommandBuffer.CommandBufferGFX.CleanResources | cocos/renderer/backend/gfx/CommandBufferGFX.cpp:500-505 | Releases and clears the index buffer, vertex buffer and program state, keeping the log balanced. |
| CommandBuffer.DrawAttributes | cocos/renderer/backend/gfx/CommandBufferGFX.cpp:268-270 | A draw uses the program's own attributes exactly when the layout yields none. Otherwise it uses the layout's attributes. Any attributes not taken from the program come from a valid layout of a present program state and have no UNKNOWN format. |
| CommandBuffer.CommandBufferGFX.SetDrawAttributes | cocos/renderer/backend/gfx/CommandBufferGFX.cpp:268-273 | The record takes the draw's attributes (DrawAttributes) and primitive. Nothing else in it changes. |
| CommandBuffer.CommandBufferGFX.PrepareDraw | cocos/renderer/backend/gfx/CommandBufferGFX.cpp:268-274 | Stores the attributes and primitive, then prepares and binds exactly one fresh pipeline state as PrepareDrawing says. |
| CommandBuffer.CommandBufferGFX.BindAndDraw | cocos/renderer/backend/gfx/CommandBufferGFX.cpp:276-286 | Creates exactly one fresh input assembler from the given description, adds it to the frame's pool, binds it and records the draw. |
| CommandBuffer.CommandBufferGFX.FinishDraw | cocos/renderer/backend/gfx/CommandBufferGFX.cpp:276-288 | As BindAndDraw, followed by releasing and clearing the per-draw slots with the log kept balanced. |
| CommandBuffer.CommandBufferGFX.DrawWith | cocos/renderer/backend/gfx/CommandBufferGFX.cpp:268-288 | The sequence shared by both draws: one fresh pipeline state, then one fresh input assembler over the vertex buffer and the optional index buffer, with the commands in source order, then the release of the per-draw slots. |
| CommandBuffer.CommandBufferGFX.DrawArrays | cocos/renderer/backend/gfx/CommandBufferGFX.cpp:265-289 | Prepares the pipeline state. Creates one fresh input assembler over the vertex buffer only, binds it and records the draw of `count` vertices from `start`. Then releases the per-draw slots. |
| CommandBuffer.CommandBufferGFX.DrawElements | cocos/renderer/backend/gfx/CommandBufferGFX.cpp:291-316 | As DrawArrays, with an input assembler over the vertex and index buffers. The draw starts at index `offset / stride` of the index buffer. |
| Device.NewBufferInfo | cocos/renderer/backend/gfx/DeviceGFX.cpp:73-90 | The usage is VERTEX exactly for a vertex buffer and INDEX exactly for an index buffer, with no other bit. Any other type leaves it NONE. Memory usage, size and stride are carried over. |
| Device.Step | cocos/renderer/backend/gfx/DeviceGFX.cpp:193-254 | One helper call keeps every current key attached to all three tables. `set` makes its source the key, resets its attribute, uniform and texture lists to empty, and leaves every other source's lists, the names and the common-light table unchanged. Every other call keeps the key. |
| Device.Run | cocos/renderer/backend/gfx/DeviceGFX.cpp:271-542 | Running a script of helper calls keeps the key attached. The key afterwards is that of the last `set`. The attribute table's keys only grow. |
| Device.SetKeepsAttributeEntry | cocos/renderer/backend/gfx/DeviceGFX.cpp:199-206 | Every source a script sets has an attribute entry afterwards. |
| Device.DefaultLocationsAreConsecutive | cocos/renderer/backend/gfx/DeviceGFX.cpp:207-222 | After `set(source)` and a run of `attr(name, format)` calls without a location, the source's attributes are exactly those calls in order, at locations 0, 1, 2, ... Such a call sequence is always well formed: the `set` comes first. |
| Device.InitIsIdempotent | cocos/renderer/backend/gfx/DeviceGFX.cpp:271-274 | Initialising the builtin tables a second time changes nothing. |
| Device.InitResult | cocos/renderer/backend/gfx/DeviceGFX.cpp:271-274 | Initialisation leaves tables whose attribute table is non-empty unchanged, and it never removes an attribute entry. |
| Device.ExpectedBlocksMeetSpec | cocos/renderer/backend/gfx/DeviceGFX.cpp:147-173 | The assembled uniform blocks have strictly ascending bindings below 3, each with its fixed name and its table's members. A block is present exactly when its member list is non-empty. |
| Device.AscendingDetermined | cocos/renderer/backend/gfx/DeviceGFX.cpp:147-173 | Two strictly ascending lists with the same elements are equal. |
| Device.BlocksDetermined | cocos/renderer/backend/gfx/DeviceGFX.cpp:147-173 | Only one block list meets that description: the one newProgram builds. |
| Device.ShaderInfoDetermined | cocos/renderer/backend/gfx/DeviceGFX.cpp:129-184 | Only one shader description meets what newProgram promises about its stages, attributes, blocks, sampler textures and name. |
| Device.AssembleShaderInfo | cocos/renderer/backend/gfx/DeviceGFX.cpp:132-184 | The vertex and fragment stages are built from the two sources, and attributes and sampler textures come from the tables (empty when absent). The blocks are those ExpectedBlocksMeetSpec describes. The name is `[Builtin]` plus the known vertex and fragment names, and only when there is more than one block. |
| Device.AssembleBlocks | cocos/renderer/backend/gfx/DeviceGFX.cpp:147-173 | The blocks meet the description above for the tables' vertex, fragment and light-common uniform lists. |
| Device.AssembleName | cocos/renderer/backend/gfx/DeviceGFX.cpp:177-184 | The name is the one ProgramName gives for the block count and the two sources' registered names. |
| Device.ShaderRegistry.constructor | cocos/renderer/backend/gfx/DeviceGFX.cpp:271-274 | All five builtin tables start empty. |
| Device.ShaderRegistry.ShareUniforms | cocos/renderer/backend/gfx/DeviceGFX.cpp:536-541 | A light-common entry gets the common light block's uniform list, which is created empty when absent. Nothing else changes. |
| Device.BuiltinShaderHelper.constructor | cocos/renderer/backend/gfx/DeviceGFX.cpp:193-198 | A new helper, over a given registry, has no current key. |
| Device.BuiltinShaderHelper.Set | cocos/renderer/backend/gfx/DeviceGFX.cpp:199-206 | The tables and key afterwards are exactly one `set` Step of the tables and key before. |
| Device.BuiltinShaderHelper.Attr | cocos/renderer/backend/gfx/DeviceGFX.cpp:207-222 | Exactly one `attr` Step. A negative location becomes the list's current length. |
| Device.BuiltinShaderHelper.AddUniform | cocos/renderer/backend/gfx/DeviceGFX.cpp:223-234 | Exactly one `uniform` Step. |
| Device.BuiltinShaderHelper.AddTexture | cocos/renderer/backend/gfx/DeviceGFX.cpp:235-247 | Exactly one `texture` Step: one entry, with count 1. |
| Device.DefaultUniformAppends | cocos/renderer/backend/gfx/DeviceGFX.cpp:223-234 | `uniform(name, type)` with the default count appends exactly one uniform of count 0 to the current list. |
| Device.DefaultTextureAppends | cocos/renderer/backend/gfx/DeviceGFX.cpp:235-247 | `texture()` with all defaults appends exactly one `u_texture` SAMPLER2D entry, of count 1 at binding 2, to the current list. |
| Device.BuiltinShaderHelper.Name | cocos/renderer/backend/gfx/DeviceGFX.cpp:248-253 | Exactly one `name` Step. |
| Device.InitBuiltinShaderInfo | cocos/renderer/backend/gfx/DeviceGFX.cpp:271-542 | Tables whose attribute table is already filled are left alone. Otherwise the tables afterwards are exactly those Run computes for the builtin script. |
| Device.ApplyStep | cocos/renderer/backend/gfx/DeviceGFX.cpp:276-542 | Dispatches one script call to the helper or registry. The tables and key afterwards are exactly one Step. |
| Device.DeviceGFX.constructor | cocos/renderer/backend/gfx/DeviceGFX.h:11-14 | A new device has a null window handle, vsync on and a 0 x 0 surface. |
| Device.DeviceGFX.NewTexture | cocos/renderer/backend/gfx/DeviceGFX.cpp:92-103 | A 2D texture is returned exactly for TEXTURE_2D, and a cube texture exactly for TEXTURE_CUBE. Each is a new object built from the descriptor on this device. Any other type yields null and the device is untouched. |
| Device.DeviceGFX.NewProgram | cocos/renderer/backend/gfx/DeviceGFX.cpp:129-191 | First makes the builtin tables initialised. Then the result is the assembled shader description when the program built from it is valid, and null otherwise. |
| Device.DeviceInstance.GetInstance | cocos/renderer/backend/gfx/DeviceGFX.cpp:16-21 | The first call creates the device with its defaults. Every later call returns that same device. |
| Device.DeviceInstance.SetSwapchainInfo | cocos/renderer/backend/gfx/DeviceGFX.cpp:23-34 | The singleton device, created if needed, stores the window handle, vsync and surface size. |

## Left out

- I/O beyond state: the device's command buffer, queue and swapchain calls are recorded in a log rather than performed. Pixel data, clear colours and uniform values are not modelled, and neither is `getBytes`/`captureScreen`.
- Floating point: viewport and scissor values are integers, and the line width is a `real`.
- UtilsGFX conversions are not part of this model. Blend factors and operations, primitives, cull modes and filters keep their backend values. `toAttributeType`, `toTypes`, `toMemoryUsage` and the program validity test (`ProgramGFX::isValid`) are parameters.
- `std::hash` keys of the builtin shader tables are the source strings themselves. Hash collisions are not modelled.
- `Device.InitBuiltinShaderInfo`: the several hundred lines of table data (DeviceGFX.cpp:275-542) are a script parameter of helper calls, run in order. That includes the light-count-dependent uniforms and the `getShaderMacrosForLight` string, whose configuration is not visible. The script must `set` a source before its first `attr`, `uniform`, `texture` or `name` call. Before any `set`, the C++ `attr`, `uniform` and `texture` would dereference a null list pointer (DeviceGFX.cpp:195-197, 218-220, 232, 245), so those calls are excluded as in the source. Only `name` would silently write under key 0 (line 251), and `Device.BuiltinShaderHelper.Name` excludes that case instead of modelling it.
- `Device.DeviceGFX.NewProgram` returns the assembled `ShaderInfo`, or None, instead of a `ProgramGFX`. Program creation is not part of this model.
- The first `newBuffer` overload only forwards to BufferGFX, which is not part of this model. The second is modelled as `NewBufferInfo`, the description passed to BufferGFX.
- `newCommandBuffer`, `newShaderModule`, `createDepthStencilState`, `newRenderPipeline` and `isAvailable` are outside the modelled core.
- CommandBuffer.CommandBufferGFX.DrawArrays, CommandBuffer.CommandBufferGFX.DrawElements: the `std::size_t` count, start and offset arguments go into the 32-bit fields of `gfx::DrawInfo` (CommandBufferGFX.cpp:284-285, 311-312). The model keeps them as unbounded naturals, so truncation of values of 2^32 and above is not modelled. The gfx headers that fix those widths are not part of this model.
- Texture.Texture2DGFX.UpdateSubData, Texture.Texture2DGFX.UpdateData: the offsets, extents and mip level likewise go into the 32-bit fields of `gfx::BufferTextureCopy` (TextureGFX.cpp:159-163). The model keeps them unbounded, so their truncation is not modelled either.
- Device.DeviceGFX.constructor: the check that a gfx device exists (a message box and an assertion, DeviceGFX.cpp:43-47) and the creation and `init` of the `DeviceInfoGFX`, deleted again when `init` fails (lines 48-53), are not modelled. DeviceInfoGFX is not part of this model.
- Allocation by `new (std::nothrow)` is assumed to succeed. Destructors are not modelled.
- Texture.Texture2DGFX.InitWithZeros: always records the zero-filled upload. The branch where the `malloc` of the zero buffer fails (TextureGFX.cpp:67-73), which skips the upload, is not modelled. The same holds for the zero fill promised by Texture.Texture2DGFX.constructor, Texture.Texture2DGFX.UpdateTextureDescriptor and Texture.Texture2DGFX.ZeroFillIfValid.
- Debug assertions (`CC_ASSERT`, `CCASSERT`) are modelled as preconditions. Examples: a current pass for drawing, valid texture parameters before `resetTexture`, equal non-zero sides for a cube, and colour formats on external attachments. Setters whose assertion is followed by an early return model the release-build early return.
- A depth/stencil attachment without a colour attachment is excluded by precondition.
- Some preconditions exclude inputs on which the code would dereference a null pointer, index an empty list or divide by zero, rather than inputs that fail an assertion. None of these inputs is modelled:
  - `AttachmentsValid` requires every external attachment texture to have a device texture and to be 2D or cube (`getHandler`, CommandBufferGFX.cpp:21-33, returns null otherwise; `colorTextures[0]->getFormat()` follows at 147-149). It also requires an external depth/stencil attachment to have a depth texture (`getHandler(nullptr)` at line 141).
  - `DrawArrays`, `DrawElements` and `DrawWith` require a vertex buffer (line 278 and line 304).
  - `DrawElements` requires an index buffer with a non-zero stride (lines 305 and 312).
  - `PrepareDrawing` and the draws require a pipeline with a program (lines 403-404).
  - `RenderPipelineGFX.Update` requires a program state (RenderPipelineGFX.cpp:20).
  - `RenderPipelineGFX.DoUpdate` requires at least one blend target (`.at(0)`, RenderPipelineGFX.cpp:34).
- The client vertex layout's attributes are an `unordered_map` in the source, iterated in an unspecified order. Which entry wins when two share an offset (CommandBufferGFX.cpp:447-458) depends on that order. The model fixes one order, the sequence order of `VertexLayout.attributes`, and does not forbid repeated names.
- `resetDefaultFBO`: the branch without a swapchain cannot run after `beginFrame` has created one. It is not modelled, and neither is its deletion of the colour and depth/stencil textures.
- The current framebuffer is not reset after a window resize, and the device texture is not recreated when a texture descriptor changes the size. Both are modelled exactly as the code leaves them.
- The textures a generated framebuffer keeps are listed in `tmpTextures`. Their reference counts are not tracked.
- `CommandBuffer.CommandBufferGFX.BeginFrame` receives the swapchain information as a parameter instead of reading it from the DeviceGFX singleton.
- `setStencilReferenceValue` belongs to the base class and is not modelled.
- `Texture.Texture2DGFX.GenerateMipmaps` and `Texture.TextureCubeGFX.GenerateMipmaps` do nothing in the code and change nothing in the model.
- The compressed-data upload variants are not modelled: they make the same copy as `updateData`/`updateSubData`.
- Concurrency: none. The backend is single-threaded.
