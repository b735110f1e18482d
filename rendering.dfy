/** The renderer of src/core/Renderer.ts: the render-pass descriptor chosen
    at initialisation, the per-frame resize of the canvas and rebuild of the
    multisample and depth targets, the binding of attachments, the flat
    traversal of the scene and the single submit. Each state-changing method
    of `Renderer` is tied to a pure function of the old state (`ResizeStep`,
    `ChooseDescriptor`, `BindAttachments`, `FramePass`, `FrameEvents`), and
    the properties of those functions are proved beside them. */
module Rendering {
  import opened Gpu
  import opened SceneGraph

  /** The settings' `sampleCount: 1 | 4`. */
  type SampleCount = n: nat | n == 1 || n == 4 witness 1

  /** The renderer settings that the core reads: depth testing, sample count
      and device pixel ratio. (`format` is chosen by initialisation and kept
      in `Renderer.format`.) */
  datatype Settings = Settings(depth: bool, sampleCount: SampleCount, dpr: nat)

  /** The settings a renderer gets when none are passed: depth on,
      `dpr` 2, four samples. */
  const DefaultSettings := Settings(true, 4, 2)

  const BasicLabel := "Basic Render Pass"
  const MultisampledLabel := "Multisampled non-depth Render Pass"
  const DepthMultisampledLabel := "Multisampled Depth Render Pass"

  // ---------------------------------------------------------------- descriptor

  /** `initRenderPassDescriptor`: three presets, chosen by `sampleCount > 1`
      and `depth`; only the multisampled depth preset has a depth slot, so
      `sampleCount == 1` with `depth` falls through to the basic preset. */
  function ChooseDescriptor(s: Settings, colorView: Option<View>): (d: Descriptor)
    ensures d.depthStencil.Some? <==> s.sampleCount > 1 && s.depth
    ensures d.depthStencil.Some? ==> d.depthStencil.value.view.None?
    ensures d.color == ColorAttachment(colorView, None)
    ensures s.sampleCount == 1 ==> d.passLabel == BasicLabel
    ensures s.sampleCount > 1 && !s.depth ==> d.passLabel == MultisampledLabel
    ensures s.sampleCount > 1 && s.depth ==> d.passLabel == DepthMultisampledLabel
  {
    var basicColorAttachment := ColorAttachment(colorView, None);
    var renderPassColorAttachment := basicColorAttachment.(resolveTarget := None);
    var depthAttachment := DepthAttachment(None);
    if s.sampleCount > 1 && !s.depth then
      Descriptor(MultisampledLabel, renderPassColorAttachment, None)
    else if s.sampleCount > 1 && s.depth then
      Descriptor(DepthMultisampledLabel, renderPassColorAttachment, Some(depthAttachment))
    else
      Descriptor(BasicLabel, basicColorAttachment, None)
  }

  /** A descriptor the current settings can bind: it has a depth slot when
      multisampling with depth (otherwise the source's binding would write
      through an undefined attachment). */
  predicate Bindable(s: Settings, d: Descriptor) {
    s.sampleCount > 1 && s.depth ==> d.depthStencil.Some?
  }

  /** The attachment binding at the start of `encodeCommands`: without
      multisampling the colour view is a view of the surface texture;
      with it, the colour view is the render target's view, the surface is
      the resolve target, and with depth the depth view is bound. */
  function BindAttachments(d: Descriptor, s: Settings, surface: Texture,
                           renderTargetView: Option<View>, depthTextureView: Option<View>): (r: Descriptor)
    requires Bindable(s, d)
    ensures r.passLabel == d.passLabel && r.depthStencil.Some? == d.depthStencil.Some?
    ensures s.sampleCount == 1 ==>
      r.color.view == Some(ViewOf(surface)) && r.color.resolveTarget == d.color.resolveTarget &&
      r.depthStencil == d.depthStencil
    ensures s.sampleCount > 1 ==>
      r.color.view == renderTargetView && r.color.resolveTarget == Some(ViewOf(surface))
    ensures s.sampleCount > 1 && s.depth ==> r.depthStencil.value.view == depthTextureView
    ensures !(s.sampleCount > 1 && s.depth) ==> r.depthStencil == d.depthStencil
  {
    if s.sampleCount == 1 then
      d.(color := d.color.(view := Some(ViewOf(surface))))
    else
      var bound := d.(color := d.color.(view := renderTargetView, resolveTarget := Some(ViewOf(surface))));
      if s.depth then bound.(depthStencil := Some(d.depthStencil.value.(view := depthTextureView)))
      else bound
  }

  /** The descriptor a frame actually begins its pass with, for the three
      setting combinations: the depth view is bound exactly when
      multisampling and depth are both on, and there is no depth attachment
      at all otherwise. */
  lemma BoundDescriptorAttachments(s: Settings, colorView: Option<View>, surface: Texture,
                                   renderTargetView: Option<View>, depthTextureView: Option<View>)
    ensures var r := BindAttachments(ChooseDescriptor(s, colorView), s, surface, renderTargetView, depthTextureView);
      && (s.sampleCount == 1 ==> r.color == ColorAttachment(Some(ViewOf(surface)), None))
      && (s.sampleCount > 1 ==> r.color == ColorAttachment(renderTargetView, Some(ViewOf(surface))))
      && r.depthStencil == (if s.sampleCount > 1 && s.depth then Some(DepthAttachment(depthTextureView)) else None)
  {
  }

  // ---------------------------------------------------------------- resize

  /** `Math.max(1, Math.min(maxTextureDimension2D, clientSize))`. */
  function ClampDimension(limit: nat, client: nat): (r: nat)
    ensures 1 <= r
    ensures limit >= 1 ==> r <= limit
    ensures 1 <= client <= limit ==> r == client
    ensures client > limit >= 1 ==> r == limit
    ensures client == 0 || limit == 0 ==> r == 1
  {
    var m := if limit < client then limit else client;
    if m < 1 then 1 else m
  }

  /** The part of the renderer's state that `resize` reads and writes:
      the canvas' drawing-buffer size, the multisample render target and the
      depth texture with their views, and the device's next texture id. */
  datatype Targets = Targets(canvasWidth: nat, canvasHeight: nat,
                             renderTarget: Option<Texture>, renderTargetView: Option<View>,
                             depthTexture: Option<Texture>, depthTextureView: Option<View>,
                             nextId: nat)

  function ViewOfOpt(t: Option<Texture>): Option<View> {
    if t.Some? then Some(ViewOf(t.value)) else None
  }

  /** What `resize` keeps true: the render target is a colour texture and the
      depth texture a depth texture, each with its own view beside it, and
      both were handed out before the device's current counter. */
  predicate Consistent(t: Targets) {
    && (t.renderTarget.Some? ==> t.renderTarget.value.format.Color? && t.renderTarget.value.id < t.nextId)
    && (t.depthTexture.Some? ==> t.depthTexture.value.format == Depth24Plus && t.depthTexture.value.id < t.nextId)
    && t.renderTargetView == ViewOfOpt(t.renderTarget)
    && t.depthTextureView == ViewOfOpt(t.depthTexture)
  }

  /** The `needResize` decision: a missing multisample target, or a clamped
      size different from the canvas' CURRENT drawing-buffer size. */
  predicate NeedResize(s: Settings, t: Targets, width: nat, height: nat): (r: bool)
    ensures s.sampleCount > 1 && t.renderTarget.None? ==> r
    ensures !r ==> width == t.canvasWidth && height == t.canvasHeight
  {
    (s.sampleCount > 1 && t.renderTarget.None?) || width != t.canvasWidth || height != t.canvasHeight
  }

  /** The state after a call and the events it issued on the device. */
  datatype Step = Step(after: Targets, events: seq<Event>)

  /** No texture of one kind is destroyed after a texture of that kind was
      created: every old target goes before its replacement is made. */
  predicate DestroysBeforeCreating(events: seq<Event>) {
    forall i, j :: 0 <= i < j < |events| && events[i].Created? && events[j].Destroyed? ==>
      events[i].texture.format.Depth24Plus? != events[j].texture.format.Depth24Plus?
  }

  /** "Rebuild render target": destroy the old one if there is one, then,
      when multisampling, create one at the canvas size and take its view. */
  function RenderTargetRebuild(s: Settings, format: string, t: Targets): (r: Step)
    ensures r.after.canvasWidth == t.canvasWidth && r.after.canvasHeight == t.canvasHeight
    ensures r.after.depthTexture == t.depthTexture && r.after.depthTextureView == t.depthTextureView
    ensures var destroy := if t.renderTarget.Some? then [Destroyed(t.renderTarget.value)] else [];
      if s.sampleCount > 1 then
        var target := Texture(t.nextId, Color(format), t.canvasWidth, t.canvasHeight, s.sampleCount);
        && r.after.renderTarget == Some(target) && r.after.renderTargetView == Some(ViewOf(target))
        && r.after.nextId == t.nextId + 1 && r.events == destroy + [Created(target)]
      else
        r.after == t && r.events == destroy
  {
    var destroy := if t.renderTarget.Some? then [Destroyed(t.renderTarget.value)] else [];
    if s.sampleCount > 1 then
      var target := Texture(t.nextId, Color(format), t.canvasWidth, t.canvasHeight, s.sampleCount);
      Step(t.(renderTarget := Some(target), renderTargetView := Some(ViewOf(target)), nextId := t.nextId + 1),
           destroy + [Created(target)])
    else
      Step(t, destroy)
  }

  /** "Rebuild depth texture": destroy the old one if there is one, then,
      when depth is on, create a `depth24plus` one at the canvas size. */
  function DepthTextureRebuild(s: Settings, t: Targets): (r: Step)
    ensures r.after.canvasWidth == t.canvasWidth && r.after.canvasHeight == t.canvasHeight
    ensures r.after.renderTarget == t.renderTarget && r.after.renderTargetView == t.renderTargetView
    ensures var destroy := if t.depthTexture.Some? then [Destroyed(t.depthTexture.value)] else [];
      if s.depth then
        var depth := Texture(t.nextId, Depth24Plus, t.canvasWidth, t.canvasHeight, s.sampleCount);
        && r.after.depthTexture == Some(depth) && r.after.depthTextureView == Some(ViewOf(depth))
        && r.after.nextId == t.nextId + 1 && r.events == destroy + [Created(depth)]
      else
        r.after == t && r.events == destroy
  {
    var destroy := if t.depthTexture.Some? then [Destroyed(t.depthTexture.value)] else [];
    if s.depth then
      var depth := Texture(t.nextId, Depth24Plus, t.canvasWidth, t.canvasHeight, s.sampleCount);
      Step(t.(depthTexture := Some(depth), depthTextureView := Some(ViewOf(depth)), nextId := t.nextId + 1),
           destroy + [Created(depth)])
    else
      Step(t, destroy)
  }

  /** One call of `resize` with the given client size, as a function of
      the state before it: nothing at all unless a resize is needed;
      otherwise the canvas is set to the clamped size times `dpr`, and only
      destroys and creates are issued. */
  function ResizeStep(s: Settings, format: string, limit: nat, clientWidth: nat, clientHeight: nat,
                      t: Targets): (r: Step)
    ensures var w, h := ClampDimension(limit, clientWidth), ClampDimension(limit, clientHeight);
      && (!NeedResize(s, t, w, h) ==> r == Step(t, []))
      && (NeedResize(s, t, w, h) ==> r.after.canvasWidth == w * s.dpr && r.after.canvasHeight == h * s.dpr)
    ensures r.after.nextId >= t.nextId
    ensures forall e :: e in r.events ==> e.Created? || e.Destroyed?
  {
    var width := ClampDimension(limit, clientWidth);
    var height := ClampDimension(limit, clientHeight);
    if !NeedResize(s, t, width, height) then Step(t, [])
    else
      var sized := t.(canvasWidth := width * s.dpr, canvasHeight := height * s.dpr);
      var target := RenderTargetRebuild(s, format, sized);
      var depth := DepthTextureRebuild(s, target.after);
      Step(depth.after, target.events + depth.events)
  }

  /** On a rebuild, the old render target and depth texture are destroyed
      and nothing else is; a new multisample target exists exactly when
      `sampleCount > 1` and a new depth texture exactly when `depth`, each
      with a fresh id, sized to the new canvas, with the configured sample
      count; with neither, the old fields are kept as they were. */
  lemma RebuildReplacesTargets(s: Settings, format: string, limit: nat, clientWidth: nat, clientHeight: nat,
                               t: Targets)
    requires NeedResize(s, t, ClampDimension(limit, clientWidth), ClampDimension(limit, clientHeight))
    ensures var r := ResizeStep(s, format, limit, clientWidth, clientHeight, t);
      && (t.renderTarget.Some? ==> Destroyed(t.renderTarget.value) in r.events)
      && (t.depthTexture.Some? ==> Destroyed(t.depthTexture.value) in r.events)
      && (forall e :: e in r.events && e.Destroyed? ==>
            Some(e.texture) == t.renderTarget || Some(e.texture) == t.depthTexture)
      && (s.sampleCount > 1 ==>
            && r.after.renderTarget.Some?
            && r.after.renderTarget.value.format == Color(format)
            && r.after.renderTarget.value.width == r.after.canvasWidth
            && r.after.renderTarget.value.height == r.after.canvasHeight
            && r.after.renderTarget.value.sampleCount == s.sampleCount
            && r.after.renderTarget.value.id >= t.nextId
            && r.after.renderTargetView == Some(ViewOf(r.after.renderTarget.value)))
      && (s.sampleCount == 1 ==>
            r.after.renderTarget == t.renderTarget && r.after.renderTargetView == t.renderTargetView)
      && (s.depth ==>
            && r.after.depthTexture.Some?
            && r.after.depthTexture.value.format == Depth24Plus
            && r.after.depthTexture.value.width == r.after.canvasWidth
            && r.after.depthTexture.value.height == r.after.canvasHeight
            && r.after.depthTexture.value.sampleCount == s.sampleCount
            && r.after.depthTexture.value.id >= t.nextId
            && r.after.depthTextureView == Some(ViewOf(r.after.depthTexture.value)))
      && (!s.depth ==>
            r.after.depthTexture == t.depthTexture && r.after.depthTextureView == t.depthTextureView)
      && (forall e :: e in r.events && e.Created? ==>
            (s.sampleCount > 1 && Some(e.texture) == r.after.renderTarget) ||
            (s.depth && Some(e.texture) == r.after.depthTexture))
  {
    var w, h := ClampDimension(limit, clientWidth), ClampDimension(limit, clientHeight);
    var sized := t.(canvasWidth := w * s.dpr, canvasHeight := h * s.dpr);
    var target := RenderTargetRebuild(s, format, sized);
    var depth := DepthTextureRebuild(s, target.after);
    var r := ResizeStep(s, format, limit, clientWidth, clientHeight, t);
    assert r.events == target.events + depth.events;
    assert r.after == depth.after;
  }

  /** `resize` keeps the targets consistent, and on every call each old
      target is destroyed before any texture of its kind is created. */
  lemma ResizeDestroysBeforeCreating(s: Settings, format: string, limit: nat, clientWidth: nat,
                                     clientHeight: nat, t: Targets)
    requires Consistent(t)
    ensures var r := ResizeStep(s, format, limit, clientWidth, clientHeight, t);
      Consistent(r.after) && DestroysBeforeCreating(r.events)
  {
    var w, h := ClampDimension(limit, clientWidth), ClampDimension(limit, clientHeight);
    if NeedResize(s, t, w, h) {
      var sized := t.(canvasWidth := w * s.dpr, canvasHeight := h * s.dpr);
      var target := RenderTargetRebuild(s, format, sized);
      var depth := DepthTextureRebuild(s, target.after);
      var ev := target.events + depth.events;
      assert ev == ResizeStep(s, format, limit, clientWidth, clientHeight, t).events;
      forall i, j | 0 <= i < j < |ev| && ev[i].Created? && ev[j].Destroyed?
        ensures ev[i].texture.format.Depth24Plus? != ev[j].texture.format.Depth24Plus?
      {
        // the only destroy after the render target's creation is the old depth texture's
        assert i < |target.events| && ev[i] == target.events[i];
        assert j >= |target.events| && ev[j] == depth.events[j - |target.events|];
      }
    }
  }

  /** A multisample target never exists without the depth texture when
      both are configured: the first `resize` finds no render target and
      builds both, and every later rebuild builds both again. */
  predicate Paired(s: Settings, t: Targets) {
    s.sampleCount > 1 && s.depth && t.renderTarget.Some? ==> t.depthTexture.Some?
  }

  /** `resize` keeps the targets paired, and after it the views a pass
      needs are there: the render target's when multisampling, the depth
      texture's when also depth testing. */
  lemma ResizeLeavesViewsInPlace(s: Settings, format: string, limit: nat, clientWidth: nat,
                                 clientHeight: nat, t: Targets)
    requires Consistent(t) && Paired(s, t)
    ensures var r := ResizeStep(s, format, limit, clientWidth, clientHeight, t);
      && Paired(s, r.after)
      && (s.sampleCount > 1 ==> r.after.renderTargetView.Some?)
      && (s.sampleCount > 1 && s.depth ==> r.after.depthTextureView.Some?)
  {
    ResizeDestroysBeforeCreating(s, format, limit, clientWidth, clientHeight, t);
    if NeedResize(s, t, ClampDimension(limit, clientWidth), ClampDimension(limit, clientHeight)) {
      RebuildReplacesTargets(s, format, limit, clientWidth, clientHeight, t);
    }
  }

  /** On a rebuild every created texture is new: its id is at least the
      counter before the call, so it is none of the textures the call
      destroys, and the two textures created get different ids. */
  lemma RebuildCreatesFreshTextures(s: Settings, format: string, limit: nat, clientWidth: nat,
                                    clientHeight: nat, t: Targets)
    requires Consistent(t)
    requires NeedResize(s, t, ClampDimension(limit, clientWidth), ClampDimension(limit, clientHeight))
    ensures var r := ResizeStep(s, format, limit, clientWidth, clientHeight, t);
      && (forall e :: e in r.events && e.Created? ==> t.nextId <= e.texture.id < r.after.nextId)
      && (forall c, d :: c in r.events && d in r.events && c.Created? && d.Destroyed? ==> c.texture != d.texture)
      && (s.sampleCount > 1 && s.depth ==> r.after.renderTarget.value.id != r.after.depthTexture.value.id)
  {
  }

  /** With `dpr == 1` the state after one call needs no resize, so a second
      call with the same client size does nothing. */
  lemma SecondResizeIsNoOpAtUnitDpr(s: Settings, format: string, limit: nat, clientWidth: nat,
                                    clientHeight: nat, t: Targets)
    requires s.dpr == 1
    ensures var t1 := ResizeStep(s, format, limit, clientWidth, clientHeight, t).after;
      ResizeStep(s, format, limit, clientWidth, clientHeight, t1) == Step(t1, [])
  {
  }

  /** With any other `dpr`, a call that rebuilds leaves the canvas at
      `size * dpr`, which differs from the clamped size, so the next call
      with the same client size rebuilds again. */
  lemma ResizeKeepsRebuildingAtOtherDpr(s: Settings, format: string, limit: nat, clientWidth: nat,
                                        clientHeight: nat, t: Targets)
    requires s.dpr != 1
    requires NeedResize(s, t, ClampDimension(limit, clientWidth), ClampDimension(limit, clientHeight))
    ensures NeedResize(s, ResizeStep(s, format, limit, clientWidth, clientHeight, t).after,
                       ClampDimension(limit, clientWidth), ClampDimension(limit, clientHeight))
  {
    var w := ClampDimension(limit, clientWidth);
    var t1 := ResizeStep(s, format, limit, clientWidth, clientHeight, t).after;
    assert t1.canvasWidth == w * s.dpr;
    if s.dpr == 0 {
      assert w * s.dpr == 0;
    } else {
      assert w * s.dpr >= w * 2 by { MultiplyMonotone(w, 2, s.dpr); }
    }
  }

  lemma MultiplyMonotone(a: nat, b: nat, c: nat)
    requires b <= c
    ensures a * b <= a * c
  {
  }

  /** The clamp bounds the CSS size, not the drawing buffer: with `dpr >= 2`
      and a client wider than the device limit, a rebuild creates both
      textures `limit * dpr` wide, above `maxTextureDimension2D`. */
  lemma TargetsExceedLimitAtHighDpr(s: Settings, format: string, limit: nat, clientWidth: nat,
                                    clientHeight: nat, t: Targets)
    requires s.dpr >= 2 && limit >= 1 && clientWidth > limit
    requires NeedResize(s, t, ClampDimension(limit, clientWidth), ClampDimension(limit, clientHeight))
    ensures var r := ResizeStep(s, format, limit, clientWidth, clientHeight, t);
      && r.after.canvasWidth == limit * s.dpr > limit
      && (s.sampleCount > 1 ==> r.after.renderTarget.value.width == limit * s.dpr)
      && (s.depth ==> r.after.depthTexture.value.width == limit * s.dpr)
  {
    RebuildReplacesTargets(s, format, limit, clientWidth, clientHeight, t);
    assert limit * s.dpr >= limit * 2 by { MultiplyMonotone(limit, 2, s.dpr); }
  }

  /** With the default settings and a client wider than the limit, the
      render target is twice the device limit wide. */
  lemma DefaultSettingsExceedLimit(format: string, t: Targets)
    requires t.renderTarget.None?
    ensures var r := ResizeStep(DefaultSettings, format, 100, 500, 500, t);
      r.after.renderTarget.value.width == 200 && r.after.depthTexture.value.width == 200
  {
    TargetsExceedLimitAtHighDpr(DefaultSettings, format, 100, 500, 500, t);
  }

  /** The state after `n` calls of `resize` with an unchanged client size. */
  function ResizedTimes(n: nat, s: Settings, format: string, limit: nat, clientWidth: nat,
                        clientHeight: nat, t: Targets): Targets
  {
    if n == 0 then t
    else ResizeStep(s, format, limit, clientWidth, clientHeight,
                    ResizedTimes(n - 1, s, format, limit, clientWidth, clientHeight, t)).after
  }

  /** At `dpr == 1`, after the first call no later call changes anything. */
  lemma {:induction false} UnitDprSettlesAfterOneCall(n: nat, s: Settings, format: string, limit: nat,
                                                      clientWidth: nat, clientHeight: nat, t: Targets)
    requires s.dpr == 1 && n >= 1
    ensures ResizedTimes(n, s, format, limit, clientWidth, clientHeight, t) ==
            ResizedTimes(1, s, format, limit, clientWidth, clientHeight, t)
    ensures var tn := ResizedTimes(n, s, format, limit, clientWidth, clientHeight, t);
            ResizeStep(s, format, limit, clientWidth, clientHeight, tn).events == []
  {
    if n > 1 {
      UnitDprSettlesAfterOneCall(n - 1, s, format, limit, clientWidth, clientHeight, t);
    }
    SecondResizeIsNoOpAtUnitDpr(s, format, limit, clientWidth, clientHeight, t);
  }

  /** At any other `dpr`, once a call rebuilds, every later call rebuilds too. */
  lemma {:induction false} OtherDprRebuildsEveryCall(n: nat, s: Settings, format: string, limit: nat,
                                                     clientWidth: nat, clientHeight: nat, t: Targets)
    requires s.dpr != 1
    requires NeedResize(s, t, ClampDimension(limit, clientWidth), ClampDimension(limit, clientHeight))
    ensures NeedResize(s, ResizedTimes(n, s, format, limit, clientWidth, clientHeight, t),
                       ClampDimension(limit, clientWidth), ClampDimension(limit, clientHeight))
  {
    if n > 0 {
      OtherDprRebuildsEveryCall(n - 1, s, format, limit, clientWidth, clientHeight, t);
      ResizeKeepsRebuildingAtOtherDpr(s, format, limit, clientWidth, clientHeight,
                                      ResizedTimes(n - 1, s, format, limit, clientWidth, clientHeight, t));
    }
  }

  /** A renderer built with the default settings rebuilds both targets on
      every frame: the first call finds no multisample target, and `dpr` 2
      keeps every later one needing a resize. */
  lemma {:induction false} DefaultSettingsRebuildEveryFrame(n: nat, format: string, limit: nat,
                                                          clientWidth: nat, clientHeight: nat, t: Targets)
    requires t.renderTarget.None?
    ensures NeedResize(DefaultSettings, ResizedTimes(n, DefaultSettings, format, limit, clientWidth, clientHeight, t),
                       ClampDimension(limit, clientWidth), ClampDimension(limit, clientHeight))
  {
    OtherDprRebuildsEveryCall(n, DefaultSettings, format, limit, clientWidth, clientHeight, t);
  }

  // ---------------------------------------------------------------- traversal

  /** The commands the scene's meshes record: one `render(camera, time)` per
      child that is a `Mesh`, in list order, nothing for other children, no
      recursion into grandchildren. */
  function MeshRenders(children: seq<Object3D>, time: real): (r: seq<Command>)
    ensures |r| <= |children|
    ensures forall c :: c in r ==> c.MeshRender? && c.node in children && c.node.isMesh && c.time == time
  {
    if children == [] then []
    else
      var last := children[|children| - 1];
      var front := MeshRenders(children[..|children| - 1], time);
      assert forall c :: c in front ==> c.node in children[..|children| - 1];
      front + (if last.isMesh then [MeshRender(last, time)] else [])
  }

  lemma {:induction false} MeshRendersAppend(a: seq<Object3D>, b: seq<Object3D>, time: real)
    ensures MeshRenders(a + b, time) == MeshRenders(a, time) + MeshRenders(b, time)
    decreases |b|
  {
    if b != [] {
      var b' := b[..|b| - 1];
      assert (a + b)[..|a + b| - 1] == a + b';
      MeshRendersAppend(a, b', time);
    } else {
      assert a + b == a;
    }
  }

  /** The mesh at index `i` is rendered right after the meshes before it:
      each mesh occurrence gets its own render, in list order. */
  lemma MeshRenderedInOrder(children: seq<Object3D>, i: nat, time: real)
    requires i < |children| && children[i].isMesh
    ensures var k := |MeshRenders(children[..i], time)|;
      k < |MeshRenders(children, time)| && MeshRenders(children, time)[k] == MeshRender(children[i], time)
  {
    assert children == children[..i] + [children[i]] + children[i + 1..];
    MeshRendersAppend(children[..i] + [children[i]], children[i + 1..], time);
    MeshRendersAppend(children[..i], [children[i]], time);
    assert MeshRenders([children[i]], time) == [MeshRender(children[i], time)] by {
      assert [children[i]][..0] == [];
    }
  }

  /** The child behind the k-th render: the first child whose prefix holds
      k meshes. */
  lemma {:induction false} RenderSource(children: seq<Object3D>, k: nat, time: real) returns (i: nat)
    requires k < |MeshRenders(children, time)|
    ensures i < |children| && children[i].isMesh && |MeshRenders(children[..i], time)| == k
    ensures MeshRenders(children, time)[k] == MeshRender(children[i], time)
    decreases |children|
  {
    var n := |children| - 1;
    var front := children[..n];
    var tail := if children[n].isMesh then [MeshRender(children[n], time)] else [];
    assert MeshRenders(children, time) == MeshRenders(front, time) + tail;
    if k < |MeshRenders(front, time)| {
      i := RenderSource(front, k, time);
      assert front[..i] == children[..i];
    } else {
      i := n;
    }
  }

  /** Every render comes from a mesh child: the k-th render is that of the
      first child whose prefix holds k meshes. */
  lemma EveryRenderIsAMeshChild(children: seq<Object3D>, k: nat, time: real)
    requires k < |MeshRenders(children, time)|
    ensures exists i :: (0 <= i < |children| && children[i].isMesh &&
      |MeshRenders(children[..i], time)| == k && MeshRenders(children, time)[k] == MeshRender(children[i], time))
  {
    var i := RenderSource(children, k, time);
  }

  /** The pass `encodeCommands` records. */
  function FramePass(d: Descriptor, children: seq<Object3D>, time: real): (r: seq<Command>)
    ensures |r| == |MeshRenders(children, time)| + 2
    ensures r[0] == BeginPass(d) && r[|r| - 1] == EndPass
    ensures r[1..|r| - 1] == MeshRenders(children, time)
    ensures forall i :: 0 < i < |r| - 1 ==> r[i].MeshRender?
  {
    [BeginPass(d)] + MeshRenders(children, time) + [EndPass]
  }

  /** Everything one `render` call issues on the device: the resize's
      destroys and creates, then the submit of the encoded pass. */
  function FrameEvents(s: Settings, format: string, limit: nat, clientWidth: nat, clientHeight: nat,
                       t: Targets, d: Descriptor, surface: Texture, children: seq<Object3D>, time: real): (ev: seq<Event>)
    requires Bindable(s, d)
    ensures |ev| >= 1 && ev[..|ev| - 1] == ResizeStep(s, format, limit, clientWidth, clientHeight, t).events
    ensures ev[|ev| - 1].Submitted? && |ev[|ev| - 1].buffer.commands| >= 2
    ensures ev[|ev| - 1].buffer.commands[0].BeginPass?
  {
    var step := ResizeStep(s, format, limit, clientWidth, clientHeight, t);
    var bound := BindAttachments(d, s, surface, step.after.renderTargetView, step.after.depthTextureView);
    step.events + [Submitted(CommandBuffer(FramePass(bound, children, time)))]
  }

  /** A frame submits exactly once, after all of the resize's work, and the
      submitted pass is the bound descriptor followed by the mesh renders. */
  lemma FrameSubmitsOnceAtTheEnd(s: Settings, format: string, limit: nat, clientWidth: nat, clientHeight: nat,
                                 t: Targets, d: Descriptor, surface: Texture, children: seq<Object3D>, time: real)
    requires Bindable(s, d)
    ensures var ev := FrameEvents(s, format, limit, clientWidth, clientHeight, t, d, surface, children, time);
      && |ev| >= 1 && ev[|ev| - 1].Submitted?
      && (forall i :: 0 <= i < |ev| - 1 ==> !ev[i].Submitted?)
      && ev[|ev| - 1].buffer.commands[0].BeginPass?
      && ev[|ev| - 1].buffer.commands[|ev[|ev| - 1].buffer.commands| - 1] == EndPass
  {
    var step := ResizeStep(s, format, limit, clientWidth, clientHeight, t);
    var ev := FrameEvents(s, format, limit, clientWidth, clientHeight, t, d, surface, children, time);
    forall i | 0 <= i < |ev| - 1 ensures !ev[i].Submitted? {
      assert ev[i] == step.events[i] && ev[i] in step.events;
    }
  }

  // ---------------------------------------------------------------- the renderer

  /** The canvas: its drawing-buffer size, written by `resize`, and the
      size the page lays it out at, read by `resize`. */
  class Canvas {
    var width: nat
    var height: nat
    var clientWidth: nat
    var clientHeight: nat

    constructor (width: nat, height: nat, clientWidth: nat, clientHeight: nat)
      ensures this.width == width && this.height == height
      ensures this.clientWidth == clientWidth && this.clientHeight == clientHeight
    {
      this.width, this.height := width, height;
      this.clientWidth, this.clientHeight := clientWidth, clientHeight;
    }
  }

  class Renderer {
    const canvas: Canvas
    const settings: Settings
    var device: Device?
    var format: string
    var colorTexture: Option<Texture>
    var colorTextureView: Option<View>
    var renderPassDescriptor: Option<Descriptor>
    var renderTarget: Option<Texture>
    var renderTargetView: Option<View>
    var depthTexture: Option<Texture>
    var depthTextureView: Option<View>

    /** The state `resize` works on. */
    function Snapshot(): Targets
      reads this, canvas, device
    {
      Targets(canvas.width, canvas.height, renderTarget, renderTargetView,
              depthTexture, depthTextureView, if device == null then 0 else device.nextId)
    }

    ghost predicate Valid()
      reads this, canvas, device
    {
      && (renderPassDescriptor.Some? ==> Bindable(settings, renderPassDescriptor.value))
      && Consistent(Snapshot())
      && Paired(settings, Snapshot())
    }

    constructor (canvas: Canvas, settings: Settings)
      ensures this.canvas == canvas && this.settings == settings
      ensures device == null && renderPassDescriptor.None?
      ensures colorTexture.None? && colorTextureView.None?
      ensures renderTarget.None? && renderTargetView.None? && depthTexture.None? && depthTextureView.None?
      ensures Valid()
    {
      this.canvas, this.settings := canvas, settings;
      device := null;
      format := "";
      colorTexture, colorTextureView := None, None;
      renderPassDescriptor := None;
      renderTarget, renderTargetView := None, None;
      depthTexture, depthTextureView := None, None;
    }

    /** `new Renderer(canvas)`: the default settings. */
    constructor WithDefaults(canvas: Canvas)
      ensures this.canvas == canvas && settings == DefaultSettings
      ensures device == null && renderPassDescriptor.None?
      ensures colorTexture.None? && colorTextureView.None?
      ensures renderTarget.None? && renderTargetView.None? && depthTexture.None? && depthTextureView.None?
      ensures Valid()
    {
      this.canvas, settings := canvas, DefaultSettings;
      device := null;
      format := "";
      colorTexture, colorTextureView := None, None;
      renderPassDescriptor := None;
      renderTarget, renderTargetView := None, None;
      depthTexture, depthTextureView := None, None;
    }

    /** `init`: what `initAPI` leaves behind (a device and the preferred
        canvas format), then `initRenderPassDescriptor`. */
    method Init(device: Device, preferredFormat: string)
      requires Valid() && renderTarget.None? && depthTexture.None?
      modifies this`device, this`format, this`renderPassDescriptor
      ensures Valid()
      ensures this.device == device && format == preferredFormat
      ensures renderPassDescriptor == Some(ChooseDescriptor(settings, colorTextureView))
    {
      this.device := device;
      format := preferredFormat;
      InitRenderPassDescriptor();
    }

    /** `initRenderPassDescriptor`. */
    method InitRenderPassDescriptor()
      requires Valid()
      modifies this`renderPassDescriptor
      ensures Valid()
      ensures renderPassDescriptor == Some(ChooseDescriptor(settings, colorTextureView))
    {
      renderPassDescriptor := Some(ChooseDescriptor(settings, colorTextureView));
    }

    /** `resize`. */
    method Resize()
      requires Valid() && device != null
      modifies this`renderTarget, this`renderTargetView, this`depthTexture, this`depthTextureView
      modifies canvas`width, canvas`height, device`nextId, device`log
      ensures Valid()
      ensures var step := ResizeStep(settings, format, device.maxTextureDimension2D,
                                     canvas.clientWidth, canvas.clientHeight, old(Snapshot()));
        Snapshot() == step.after && device.log == old(device.log) + step.events
      ensures settings.sampleCount > 1 ==> renderTargetView.Some?
      ensures settings.sampleCount > 1 && settings.depth ==> depthTextureView.Some?
      ensures !NeedResize(settings, old(Snapshot()),
                          ClampDimension(device.maxTextureDimension2D, canvas.clientWidth),
                          ClampDimension(device.maxTextureDimension2D, canvas.clientHeight)) ==>
        unchanged(this`renderTarget, this`renderTargetView, this`depthTexture, this`depthTextureView,
                  canvas`width, canvas`height, device`nextId, device`log)
    {
      ghost var before := Snapshot();
      ghost var step := ResizeStep(settings, format, device.maxTextureDimension2D,
                                   canvas.clientWidth, canvas.clientHeight, before);
      ResizeDestroysBeforeCreating(settings, format, device.maxTextureDimension2D,
                                   canvas.clientWidth, canvas.clientHeight, before);
      ResizeLeavesViewsInPlace(settings, format, device.maxTextureDimension2D,
                               canvas.clientWidth, canvas.clientHeight, before);
      var width := ClampDimension(device.maxTextureDimension2D, canvas.clientWidth);
      var height := ClampDimension(device.maxTextureDimension2D, canvas.clientHeight);
      var needResize := NeedResize(settings, Snapshot(), width, height);
      if !needResize {
        assert step == Step(before, []);
        return;
      }
      ghost var sized := before.(canvasWidth := width * settings.dpr, canvasHeight := height * settings.dpr);
      ghost var target := RenderTargetRebuild(settings, format, sized);
      ghost var depth := DepthTextureRebuild(settings, target.after);
      assert step == Step(depth.after, target.events + depth.events);
      Rebuild(width, height);
    }

    /** The part of `resize` past the early return: set the canvas to the
        clamped size times `dpr`, then rebuild both targets. */
    method Rebuild(width: nat, height: nat)
      requires device != null
      modifies this`renderTarget, this`renderTargetView, this`depthTexture, this`depthTextureView
      modifies canvas`width, canvas`height, device`nextId, device`log
      ensures var sized := old(Snapshot()).(canvasWidth := width * settings.dpr, canvasHeight := height * settings.dpr);
        var target := RenderTargetRebuild(settings, format, sized);
        var depth := DepthTextureRebuild(settings, target.after);
        Snapshot() == depth.after && device.log == old(device.log) + target.events + depth.events
    {
      canvas.width := width * settings.dpr;
      canvas.height := height * settings.dpr;
      RebuildRenderTarget();
      RebuildDepthTexture();
    }

    /** The "Rebuild render target" block of `resize`. */
    method RebuildRenderTarget()
      requires device != null
      modifies this`renderTarget, this`renderTargetView, device`nextId, device`log
      ensures var step := RenderTargetRebuild(settings, format, old(Snapshot()));
        Snapshot() == step.after && device.log == old(device.log) + step.events
    {
      if renderTarget.Some? {
        device.Destroy(renderTarget.value);
      }
      if settings.sampleCount > 1 {
        var newRenderTarget := device.CreateTexture(Color(format), canvas.width, canvas.height, settings.sampleCount);
        renderTarget := Some(newRenderTarget);
        renderTargetView := Some(ViewOf(newRenderTarget));
      }
    }

    /** The "Rebuild depth texture" block of `resize`. */
    method RebuildDepthTexture()
      requires device != null
      modifies this`depthTexture, this`depthTextureView, device`nextId, device`log
      ensures var step := DepthTextureRebuild(settings, old(Snapshot()));
        Snapshot() == step.after && device.log == old(device.log) + step.events
    {
      if depthTexture.Some? {
        device.Destroy(depthTexture.value);
      }
      if settings.depth {
        var newDepthTexture := device.CreateTexture(Depth24Plus, canvas.width, canvas.height, settings.sampleCount);
        depthTexture := Some(newDepthTexture);
        depthTextureView := Some(ViewOf(newDepthTexture));
      }
    }

    /** `encodeCommands`: bind the frame's views into the descriptor, then
        record one pass over the scene's direct children. */
    method EncodeCommands(scene: Object3D, time: real, surface: Texture) returns (buffer: CommandBuffer)
      requires Valid() && renderPassDescriptor.Some?
      modifies this`colorTexture, this`colorTextureView, this`renderPassDescriptor
      ensures Valid()
      ensures colorTexture == Some(surface) && colorTextureView == Some(ViewOf(surface))
      ensures renderPassDescriptor ==
        Some(BindAttachments(old(renderPassDescriptor).value, settings, surface, renderTargetView, depthTextureView))
      ensures buffer == CommandBuffer(FramePass(renderPassDescriptor.value, scene.children, time))
    {
      colorTexture := Some(surface);
      colorTextureView := Some(ViewOf(surface));
      var d := renderPassDescriptor.value;
      if settings.sampleCount == 1 {
        d := d.(color := d.color.(view := Some(ViewOf(surface))));
      } else {
        d := d.(color := d.color.(view := renderTargetView, resolveTarget := Some(ViewOf(surface))));
        if settings.depth {
          d := d.(depthStencil := Some(d.depthStencil.value.(view := depthTextureView)));
        }
      }
      renderPassDescriptor := Some(d);
      var commands := [BeginPass(d)];
      var children := scene.children;
      for i := 0 to |children|
        invariant commands == [BeginPass(d)] + MeshRenders(children[..i], time)
      {
        assert children[..i + 1][..i] == children[..i];
        var node := children[i];
        if node.isMesh {
          commands := commands + [MeshRender(node, time)];
        }
      }
      assert children[..|children|] == children;
      buffer := CommandBuffer(commands + [EndPass]);
    }

    /** `render`: resize, encode, submit once. */
    method Render(scene: Object3D, time: real, surface: Texture)
      requires Valid() && device != null && renderPassDescriptor.Some?
      modifies this`renderTarget, this`renderTargetView, this`depthTexture, this`depthTextureView
      modifies this`colorTexture, this`colorTextureView, this`renderPassDescriptor
      modifies canvas`width, canvas`height, device`nextId, device`log
      ensures Valid()
      ensures device == old(device) && format == old(format)
      ensures settings.sampleCount > 1 ==> renderTargetView.Some?
      ensures settings.sampleCount > 1 && settings.depth ==> depthTextureView.Some?
      ensures colorTexture == Some(surface) && colorTextureView == Some(ViewOf(surface))
      ensures renderPassDescriptor ==
        Some(BindAttachments(old(renderPassDescriptor).value, settings, surface, renderTargetView, depthTextureView))
      ensures renderPassDescriptor.value.color.view.Some?
      ensures settings.sampleCount > 1 && settings.depth ==>
        renderPassDescriptor.value.depthStencil.Some? && renderPassDescriptor.value.depthStencil.value.view.Some?
      ensures Snapshot() == ResizeStep(settings, format, device.maxTextureDimension2D,
                                      canvas.clientWidth, canvas.clientHeight, old(Snapshot())).after
      ensures device.log == old(device.log) +
        FrameEvents(settings, format, device.maxTextureDimension2D, canvas.clientWidth, canvas.clientHeight,
                    old(Snapshot()), old(renderPassDescriptor).value, surface, old(scene.children), time)
    {
      Resize();
      EncodeAndSubmit(scene, time, surface);
    }

    /** The second half of `render`: encode the frame and submit its buffer. */
    method EncodeAndSubmit(scene: Object3D, time: real, surface: Texture)
      requires Valid() && device != null && renderPassDescriptor.Some?
      modifies this`colorTexture, this`colorTextureView, this`renderPassDescriptor, device`log
      ensures Valid() && Snapshot() == old(Snapshot())
      ensures colorTexture == Some(surface) && colorTextureView == Some(ViewOf(surface))
      ensures renderPassDescriptor ==
        Some(BindAttachments(old(renderPassDescriptor).value, settings, surface, renderTargetView, depthTextureView))
      ensures device.log == old(device.log) + [Submitted(CommandBuffer(FramePass(
        BindAttachments(old(renderPassDescriptor).value, settings, surface, renderTargetView, depthTextureView),
        scene.children, time)))]
    {
      var commandBuffer := EncodeCommands(scene, time, surface);
      device.Submit(commandBuffer);
    }
  }
}
