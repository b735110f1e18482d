/** The slice of the WebGPU device that the renderer drives, as opaque handles:
    textures carry an id handed out by the device, and every call the
    renderer makes on the device is appended to a ghost event log, so that
    the renderer's contracts can say what it destroyed, created and
    submitted, and in which order. */
module Gpu {
  import opened SceneGraph

  /** The two texture formats in play: the canvas' preferred colour format
      and the fixed `"depth24plus"` depth format. */
  datatype Format = Color(name: string) | Depth24Plus

  /** A texture handle: the id the device gave it, its format, its size
      `[width, height]` and its sample count. */
  datatype Texture = Texture(id: nat, format: Format, width: nat, height: nat, sampleCount: nat)

  /** `texture.createView()`. */
  datatype View = ViewOf(texture: Texture)

  /** One recorded command of a render pass. */
  datatype Command =
    | BeginPass(descriptor: Descriptor)
    | MeshRender(node: Object3D, time: real)
    | EndPass

  /** What `commandEncoder.finish()` hands back. */
  datatype CommandBuffer = CommandBuffer(commands: seq<Command>)

  /** `GPURenderPassColorAttachment`; clear value, load and store ops are
      constant literals and are not modelled. */
  datatype ColorAttachment = ColorAttachment(view: Option<View>, resolveTarget: Option<View>)

  /** `GPURenderPassDepthStencilAttachment`; clear value and ops not modelled. */
  datatype DepthAttachment = DepthAttachment(view: Option<View>)

  /** `GPURenderPassDescriptor` with its single colour attachment. */
  datatype Descriptor = Descriptor(passLabel: string, color: ColorAttachment, depthStencil: Option<DepthAttachment>)

  datatype Option<T> = None | Some(value: T)

  /** What the device sees, in order. */
  datatype Event =
    | Destroyed(texture: Texture)
    | Created(texture: Texture)
    | Submitted(buffer: CommandBuffer)

  /** The device: its one limit that the renderer reads, a handle counter,
      and the log of calls made on it. */
  class Device {
    const maxTextureDimension2D: nat
    var nextId: nat
    ghost var log: seq<Event>

    constructor (maxTextureDimension2D: nat)
      ensures this.maxTextureDimension2D == maxTextureDimension2D
      ensures nextId == 0 && log == []
    {
      this.maxTextureDimension2D := maxTextureDimension2D;
      nextId := 0;
      log := [];
    }

    /** `device.createTexture(...)`: a handle never handed out before. */
    method CreateTexture(format: Format, width: nat, height: nat, sampleCount: nat) returns (t: Texture)
      modifies this`nextId, this`log
      ensures t == Texture(old(nextId), format, width, height, sampleCount)
      ensures nextId == old(nextId) + 1
      ensures log == old(log) + [Created(t)]
    {
      t := Texture(nextId, format, width, height, sampleCount);
      nextId := nextId + 1;
      log := log + [Created(t)];
    }

    /** `texture.destroy()`. */
    method Destroy(t: Texture)
      modifies this`log
      ensures log == old(log) + [Destroyed(t)]
    {
      log := log + [Destroyed(t)];
    }

    /** `device.queue.submit([buffer])`. */
    method Submit(buffer: CommandBuffer)
      modifies this`log
      ensures log == old(log) + [Submitted(buffer)]
    {
      log := log + [Submitted(buffer)];
    }
  }
}
