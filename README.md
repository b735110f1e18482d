# cria: scene graph, renderer frame sequencing, geometries and mip levels

A Dafny model of the logic in a small WebGPU demo layer (`cria`).

- **Scene-graph hierarchy** (`scene_graph.dfy`, `array_ops.dfy`): the four `Object3D` operations that rewire a node's `parent` link and ordered `children` list, sometimes across two nodes:
  - `setParent`;
  - `add`;
  - `remove`;
  - `removeFromParent`.

  `Object3D` is a class whose methods modify exactly those fields. The `indexOf` and `splice(i, 1)` that `children` relies on are pure functions.
- **Renderer** (`rendering.dfy`, `gpu.dfy`): the render-pass descriptor chosen at initialisation and the per-frame `render`, which calls `resize` and then `encodeCommands` and submits once.
  - `resize` clamps the client size to the device limit, decides whether a resize is needed, and resizes the canvas. It destroys and recreates the multisample render target and the depth texture.
  - `encodeCommands` binds the attachments, records one pass and returns the finished command buffer. `render` submits that buffer.
  - The GPU is a `Device` class that hands out opaque texture handles. Every destroy, create and submit is appended to a ghost event log.
  - Each `Renderer` method is tied to a pure function of the old state: `ChooseDescriptor`, `ResizeStep`, `BindAttachments`, `FramePass` and `FrameEvents`. The source's properties are proved about those functions.
- **Geometries** (`geometries.dfy`): the constant vertex and index layouts of `BoxGeometry(size)` and `PlaneGeometry(size)`, with their structural facts.
- **Mip levels** (`mip_levels.dfy`): `numMipLevels(...sizes)`, whose result is the bit length of the largest size.

### Where the behaviour differs from the usual scene-graph reading

The model follows the code, and several scenario methods exhibit these points:

- `add(o)` detaches the **receiver** from its own parent. It does not detach `o` from `o`'s previous parent, so after `a.add(c); b.add(c)` both `a` and `b` list `c` (`ReAddKeepsPreviousParentsChild`).
- The only guard in `add` is "already in `this.children`". So `x.add(x)` on a node that is not yet its own child is accepted, and `x` becomes its own parent and child (`SelfAddIsAccepted`).
- `needResize` compares the clamped CSS size with `canvas.width`, which the previous rebuild set to `width * dpr`.
  - With `dpr == 1`, a second call with the same client size does nothing.
  - With any other `dpr` (the default is 2), once a call has rebuilt, or a resize is otherwise needed, every later call with the same client size rebuilds again (`OtherDprRebuildsEveryCall`). With multisampling and depth, each rebuild destroys and recreates both targets. So "resize is idempotent" holds only at `dpr == 1`.
- The clamp to `maxTextureDimension2D` applies to the CSS size, before the multiplication by `dpr`. Both textures are created at the canvas size, so with `dpr >= 2` and a client wider than the limit they are `limit * dpr` wide, above the device limit. With the default settings, a limit of 100 and a 500×500 client gives 200-wide textures (`TargetsExceedLimitAtHighDpr`, `DefaultSettingsExceedLimit`).
- `new Renderer(canvas)` takes the default settings: depth on, `dpr` 2, four samples. A renderer built that way rebuilds both targets on every frame while the client size stays the same (`DefaultSettingsRebuildEveryFrame`).
- With `sampleCount == 1` and `depth`, the pass uses the basic descriptor, which has no depth attachment. A depth texture is still created on a rebuild.

## Model

| member | source | states |
|---|---|---|
| ArrayOps.IndexOf | src/core/Object3D.ts:21 | `indexOf`: -1 exactly when the element is absent, otherwise an index holding it with no earlier occurrence |
| ArrayOps.SpliceOut | src/core/Object3D.ts:35 | `splice(i, 1)`: one shorter, elements before `i` kept, elements after shifted down by one, the multiset loses exactly `s[i]` |
| ArrayOps.Without | src/core/Object3D.ts:31-35 | what `remove` leaves: the list itself when the element is absent, otherwise one shorter with one occurrence removed from the multiset; no new elements |
| ArrayOps.WithoutKeepsNoDuplicates | src/core/Object3D.ts:33-35 | removing from a duplicate-free list keeps it duplicate-free and leaves no occurrence behind |
| ArrayOps.AppendKeepsNoDuplicates | src/core/Object3D.ts:21-24 | appending an absent element (the `add` guard) keeps a list duplicate-free |
| SceneGraph.Object3D.constructor | src/core/Object3D.ts:10-11 | a new node has no parent and no children |
| SceneGraph.Object3D.Remove | src/core/Object3D.ts:30-41 | with `o` a child: exactly its first occurrence is spliced out, order kept, `o.parent` cleared; otherwise `children` and `o.parent` unchanged; returns the receiver; duplicate-freedom kept |
| SceneGraph.Object3D.RemoveFromParent | src/core/Object3D.ts:43-51 | with no parent nothing changes; otherwise `parent.remove(this)` and so, when listed there, the parent link is cleared; returns the receiver |
| SceneGraph.Object3D.SetParent | src/core/Object3D.ts:15-18 | ends with `parent == p`; leaves the old parent's children only when the old parent is non-null and differs from `p`; never changes `p.children` |
| SceneGraph.Object3D.Add | src/core/Object3D.ts:20-28 | already a child: no children list or parent link changes; otherwise `o.parent == this` and `o` appended; when the receiver has a parent that receiver is removed from that parent's children, and its parent link is cleared only when it was listed there; `o` is not removed from its previous parent's children; duplicate-freedom kept |
| SceneGraph.SelfAddIsAccepted | src/core/Object3D.ts:20-24 | `x.add(x)` on a fresh node makes `x` its own parent and only child |
| SceneGraph.ReAddKeepsPreviousParentsChild | src/core/Object3D.ts:20-24 | after `a.add(c); b.add(c)`, `c.parent == b` and both `a` and `b` list `c` |
| SceneGraph.AddDetachesReceiver | src/core/Object3D.ts:22 | `a.add(c)` with `a` a child of `p` empties `p.children` and clears `a.parent` |
| Gpu.Device.CreateTexture | src/core/Renderer.ts:151-156 | `device.createTexture`: a handle whose id is the device counter's current value, with the given format, size and sample count, logged as created; the counter then grows by one |
| Gpu.Device.Destroy | src/core/Renderer.ts:149 | `texture.destroy()` is logged |
| Gpu.Device.Submit | src/core/Renderer.ts:217 | `queue.submit([buffer])` is logged |
| Rendering.ChooseDescriptor | src/core/Renderer.ts:84-126 | depth attachment (with no view yet) iff `sampleCount > 1 && depth`; the label of the multisampled presets by `depth`, and the basic label whenever `sampleCount == 1`; colour attachment holds the current colour view and no resolve target |
| Rendering.BindAttachments | src/core/Renderer.ts:182-191 | `sampleCount == 1`: colour view is the surface view, rest untouched; otherwise colour view is the render target's view and the resolve target the surface view; depth view bound only with multisampling and depth |
| Rendering.BoundDescriptorAttachments | src/core/Renderer.ts:104-126 | for the chosen preset, the bound colour attachment per sample count, and a depth attachment holding the depth view iff multisampling with depth, none otherwise |
| Rendering.ClampDimension | src/core/Renderer.ts:137-138 | the clamped size is at least 1, at most the limit when the limit is at least 1, equal to the client size when it is in range, the limit when above it, 1 when either is 0 |
| Rendering.RenderTargetRebuild | src/core/Renderer.ts:148-159 | the old render target destroyed if present; with `sampleCount > 1` a new colour target at the canvas size and sample count with the counter's current value as its id, and its view; otherwise state unchanged |
| Rendering.DepthTextureRebuild | src/core/Renderer.ts:161-172 | the old depth texture destroyed if present; with `depth` a new `depth24plus` texture at the canvas size and sample count with the counter's current value as its id, and its view; otherwise state unchanged |
| Rendering.NeedResize | src/core/Renderer.ts:140 | a resize is needed whenever multisampling has no render target; when none is needed the clamped size equals the canvas' current drawing-buffer size |
| Rendering.ResizeStep | src/core/Renderer.ts:131-173 | no state change and no event when no resize is needed; otherwise the canvas is the clamped size times `dpr`; ids only grow; only destroys and creates are issued |
| Rendering.RebuildReplacesTargets | src/core/Renderer.ts:148-172 | on a rebuild each existing target is destroyed and nothing else is; a new target iff `sampleCount > 1` and a new depth texture iff `depth`, sized to the new canvas with the configured sample count and an id not below the counter; else the old fields kept; every create is one of the new targets |
| Rendering.RebuildCreatesFreshTextures | src/core/Renderer.ts:148-172 | on a rebuild every created texture has an id from the counter's range for this call, so it is none of the destroyed textures, and the new render target and depth texture differ |
| Rendering.ResizeDestroysBeforeCreating | src/core/Renderer.ts:149-172 | `resize` keeps the targets consistent (colour/depth formats, views of their own textures, ids below the device counter) and no texture of a kind is destroyed after one of that kind is created |
| Rendering.ResizeLeavesViewsInPlace | src/core/Renderer.ts:140-172 | `resize` keeps a multisample target paired with a depth texture when both are configured (no target forces a rebuild, which builds both), and afterwards the render target's view exists when multisampling and the depth view when also depth testing |
| Rendering.SecondResizeIsNoOpAtUnitDpr | src/core/Renderer.ts:140-146 | at `dpr == 1`, a second call with the same client size changes nothing and issues nothing |
| Rendering.ResizeKeepsRebuildingAtOtherDpr | src/core/Renderer.ts:140-146 | at any other `dpr`, the state after a rebuild needs a resize again at the same client size |
| Rendering.TargetsExceedLimitAtHighDpr | src/core/Renderer.ts:137-172 | with `dpr >= 2` and a client wider than the limit, a rebuild makes the canvas and both new textures `limit * dpr` wide, above the limit |
| Rendering.DefaultSettingsExceedLimit | src/core/Renderer.ts:34-39 | with the default settings, limit 100 and a 500×500 client, the new render target and depth texture are 200 wide |
| Rendering.UnitDprSettlesAfterOneCall | src/core/Renderer.ts:140-146 | at `dpr == 1`, after any number of calls the state equals the one after the first, and a further call issues nothing |
| Rendering.OtherDprRebuildsEveryCall | src/core/Renderer.ts:140-146 | at any other `dpr`, once a resize is needed it stays needed after every further call |
| Rendering.DefaultSettingsRebuildEveryFrame | src/core/Renderer.ts:34-39 | with the default settings and no render target yet, every one of any number of calls with the same client size needs a resize |
| Rendering.MeshRenders | src/core/Renderer.ts:201-203 | the traversal's renders: no more than the children, each a render at `time` of a mesh among the children |
| Rendering.MeshRendersAppend | src/core/Renderer.ts:201-203 | the traversal of a concatenation is the concatenation of the traversals |
| Rendering.MeshRenderedInOrder | src/core/Renderer.ts:201-203 | the mesh at index `i` is rendered exactly at position "number of meshes before it": once per occurrence, in list order |
| Rendering.RenderSource | src/core/Renderer.ts:201-203 | the k-th render is the render of a mesh child at the index whose prefix holds exactly k meshes |
| Rendering.EveryRenderIsAMeshChild | src/core/Renderer.ts:201-203 | every render comes from a mesh child, in order (no recursion, no non-mesh) |
| Rendering.FramePass | src/core/Renderer.ts:198-205 | the pass is begin with the descriptor, then exactly the mesh renders, then end |
| Rendering.FrameEvents | src/core/Renderer.ts:211-217 | a frame's events are the resize's events followed by one submit of a pass that begins with a descriptor |
| Rendering.FrameSubmitsOnceAtTheEnd | src/core/Renderer.ts:211-218 | a frame's events end with its single submit, nothing before it is a submit, and the submitted pass begins with the descriptor and ends with `end()` |
| Rendering.Renderer.constructor | src/core/Renderer.ts:32-43 | a renderer holds its canvas and settings, with no device, descriptor or targets yet |
| Rendering.Renderer.WithDefaults | src/core/Renderer.ts:32-43 | `new Renderer(canvas)`: the default settings (depth, four samples, `dpr` 2), with no device, descriptor or targets yet |
| Rendering.Renderer.Init | src/core/Renderer.ts:45-48 | after the device and preferred format are in place, the descriptor is the chosen preset |
| Rendering.Renderer.InitRenderPassDescriptor | src/core/Renderer.ts:84-127 | the descriptor becomes `ChooseDescriptor` of the settings and current colour view; nothing else changes |
| Rendering.Renderer.Resize | src/core/Renderer.ts:131-173 | the new targets and canvas size are `ResizeStep` of the old ones and the device log grows by its events; with no resize needed nothing is written at all; consistency and target pairing kept; afterwards the render target's view exists when multisampling and the depth view when also depth testing |
| Rendering.Renderer.Rebuild | src/core/Renderer.ts:144-172 | canvas set to the clamped size times `dpr`, then render-target and depth rebuilds in that order |
| Rendering.Renderer.RebuildRenderTarget | src/core/Renderer.ts:148-159 | state and log follow `RenderTargetRebuild` |
| Rendering.Renderer.RebuildDepthTexture | src/core/Renderer.ts:161-172 | state and log follow `DepthTextureRebuild` |
| Rendering.Renderer.EncodeCommands | src/core/Renderer.ts:177-209 | the colour texture is the surface with its view, the descriptor is `BindAttachments` of the old one, and the command buffer is begin pass, one render per mesh child in order, end pass |
| Rendering.Renderer.EncodeAndSubmit | src/core/Renderer.ts:214-217 | the frame is encoded as `EncodeCommands` states, the targets are untouched, and exactly one submit of the encoded pass is logged |
| Rendering.Renderer.Render | src/core/Renderer.ts:211-218 | the state after the frame is the resize's, and the device sees the resize's destroys and creates followed by exactly one submit of the encoded pass; the colour texture and view are the surface's and the bound descriptor stays in place for the next frame; the pass it begins always has a colour view, and a depth view when multisampling with depth |
| Geometries.BoxGeometry | src/geometries/BoxGeometry.ts:4-11 | 24 positions, normals and uvs (72, 72 and 48 numbers) and 36 indices |
| Geometries.PlaneGeometry | src/geometries/PlaneGeometry.ts:4-28 | 4 positions, normals and uvs (12, 12 and 8 numbers) and the indices `[0,1,2,0,2,3]` |
| Geometries.DotOnFacePlane | src/geometries/BoxGeometry.ts:7-8 | a point lies in the plane of face `f` iff its dot product with the face's outward normal is `size` |
| Geometries.BoxIndicesInRange | src/geometries/BoxGeometry.ts:10 | 36 indices, every one below 24 |
| Geometries.BoxQuads | src/geometries/BoxGeometry.ts:10 | face `f` is drawn by indices `4f, 4f+1, 4f+2, 4f, 4f+2, 4f+3` |
| Geometries.BoxCorners | src/geometries/BoxGeometry.ts:7-9 | 24 positions and uvs; every position a corner `(±size, ±size, ±size)` on the plane of face `v / 4`; every uv component 0 or 1 |
| Geometries.BoxFaceNormals | src/geometries/BoxGeometry.ts:8 | 24 normals; vertex `v` has the unit normal of face `v / 4`, faces in the order +X, -X, +Y, -Y, +Z, -Z |
| Geometries.BoxLayout | src/geometries/BoxGeometry.ts:7-10 | 24 vertices (72 position and normal numbers, 48 uv numbers), 36 indices, well formed (whole triangles, every index below the vertex count), face `f` the quad `4f .. 4f+3` |
| Geometries.BoxFaces | src/geometries/BoxGeometry.ts:7-9 | every vertex a corner with uv components 0 or 1; each group of four shares its face's normal; `position · normal == size` |
| Geometries.PlaneLayout | src/geometries/PlaneGeometry.ts:7-27 | for every size: 4 vertices, well formed, indices `[0,1,2,0,2,3]`; `z == 0` and `x, y = ±size`; normal +Z |
| Geometries.PlaneUvs | src/geometries/PlaneGeometry.ts:7-24 | for a non-zero size, a uv component is 1 exactly where the position component is `+size` and 0 exactly where it is `-size` |
| MipLevels.FloorLog2 | src/utils/numMipLevels.ts:3 | `Math.log2(n) \| 0` for `n >= 1`: `2^k <= n < 2^(k+1)` |
| MipLevels.FloorLog2Unique | src/utils/numMipLevels.ts:3 | the only exponent bracketing `n` is its floor logarithm |
| MipLevels.FloorLog2Monotone | src/utils/numMipLevels.ts:3 | the floor logarithm is non-decreasing |
| MipLevels.Max | src/utils/numMipLevels.ts:2 | `Math.max(...sizes)` of a non-empty list is one of the sizes and not below any of them |
| MipLevels.NumMipLevels | src/utils/numMipLevels.ts:1-4 | 0 with no sizes or a largest size of 0; otherwise `n >= 1` with `2^(n-1) <= max < 2^n` |
| MipLevels.MipLevelsAreBitLength | src/utils/numMipLevels.ts:2-3 | the result is the bit length of the largest size |
| MipLevels.BitLengthBrackets | src/utils/numMipLevels.ts:3 | the bit length of `m >= 1` is one more than its floor logarithm, 0 for 0 |
| MipLevels.PowerOfTwoLevels | src/utils/numMipLevels.ts:3 | a largest size of `2^k` gives `k + 1` levels |
| MipLevels.PermutationInvariant | src/utils/numMipLevels.ts:2 | permuting the sizes does not change the result |
| MipLevels.SmallerSizeChangesNothing | src/utils/numMipLevels.ts:2 | adding a size not above the largest does not change the result |
| MipLevels.MonotoneInMax | src/utils/numMipLevels.ts:3 | a larger largest size never gives fewer levels |

## Left out

- `initAPI` (src/core/Renderer.ts:52-82) is host I/O: `navigator.gpu`, the error dialog, adapter and device acquisition, and context configuration. Only its outcome is modelled, as the parameters of `Init`: a device with a fixed `maxTextureDimension2D`, and the preferred format. That format is kept in `Renderer.format` rather than written into `settings.format`.
- `init` is asynchronous. `Init` runs its two steps in sequence.
- Init: requires that no render target or depth texture exists yet. Calling `init` again after frames have been drawn, with a different device whose counter may be behind the existing textures' ids, is not modelled.
- Settings are immutable after construction. The default `format: undefined` is not a field of `Settings`; `initAPI` overwrites it and the model keeps the format in `Renderer.format`. Changing them at runtime is not modelled.
- Console errors and warnings in `add`, `remove` and `removeFromParent` are output only. They are not modelled.
- The `Object3D` transform fields (`position`, `rotation`, `scale`, `modelMatrix`, `up`, `lookAt`) are float vectors that the hierarchy operations never touch.
- `Scene` (src/core/Scene.ts) is not part of this model. The scene is an `Object3D` whose direct children are traversed.
- `instanceof Mesh` is a constant `isMesh` flag on each node.
- What `mesh.render(camera, time)` draws, and the mesh classes' GPU setup, are not modelled. A render is one recorded `MeshRender(node, time)` command. The camera argument is passed through unchanged and is not modelled.
- The command encoder's label, `getCurrentTexture()` and `createView()` are handles.
  - The current texture is the `surface` parameter. The source calls `getCurrentTexture()` twice in one frame; both calls return the same texture.
  - A view is identified by its texture, so two views of one texture compare equal.
- `Device.CreateTexture` accepts any size. WebGPU rejects a texture above `maxTextureDimension2D` with a validation error; that error path is not modelled, so the oversized textures above are created as requested.
- Clear values, load ops, store ops and texture usage flags are constant literals. They are not modelled.
- The descriptor presets are values. In the source, the multisampled presets share one colour-attachment object, and binding mutates it in place. Only the active descriptor is ever bound, so the model writes the bound attachment back into the descriptor and does not model that object aliasing.
- `dpr` is a natural number. A fractional `dpr`, and the browser's truncation and wrap-around when assigning `canvas.width`, are not modelled.
- Sizes are unbounded naturals.
- Geometry numbers are reals. Float32 rounding of `size` is not modelled.
- Each flat `Float32Array` is grouped into one triple or pair per vertex, in the source's order. The `Uint16Array` bound appears as the `< 0x1_0000` conjunct of `WellFormed`.
- The `size` field that geometries declare but never set is not modelled.
- `NumMipLevels` models the integer meaning of `Math.log2` over whole sizes, not its floating-point rounding. For sizes from about 2^49, far above any texture dimension, that rounding can differ: a double-precision `log2(2^49 - 1)` rounds to 49.
- `NumMipLevels`: the final `| 0` truncates to 32 bits. This is not modelled, because a result above 2^31 would need a size of 2^(2^31).
- With no sizes, `Math.max()` is `-Infinity` and `Math.log2` of it is `NaN`. With a largest size of 0, `Math.log2(0)` is `-Infinity`. Either way `| 0` maps the non-finite sum to 0. The model returns 0 in both cases rather than excluding them.
- Matrix math (cameras, `calcMatrices`), the application and render-loop drivers, and the build scripts are outside this model. They are floating-point calls into an unseen library, or host I/O.
