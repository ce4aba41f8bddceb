// The Vulkan device and command buffers as seen by VKDL: every call into
// the driver becomes an event appended to one trace, and every object the
// driver creates is a fresh handle number. What the driver does with the
// events (and the fences and semaphores between CPU and GPU) is not
// modelled.
module Gpu {
  import opened Uuid
  import opened Vk
  import opened Transform
  import opened Color

  /** A Vulkan handle (buffer, image, fence, semaphore, ...). */
  type Handle = nat

  /** The address of a `Texture` object, which draw commands refer to. */
  type TextureId = nat

  /** The built-in render pass and pipelines. Their definitions
      (core/builtin_objects.h) are not part of this model; here they are
      four distinct non-empty ids. */
  const BuiltinRenderPass0: UUID := UUID(0, 1)
  const BuiltinPipeline0: UUID := UUID(0, 2)
  const BuiltinPipeline1: UUID := UUID(0, 3)
  const BuiltinPipeline2: UUID := UUID(0, 4)

  datatype Event =
    // recorded into the current command buffer
    | BeginRenderPass(renderPass: UUID, area: Rect2D)
    | EndRenderPass
    | BindPipeline(pipeline: UUID)
    | SetViewport(viewport: Viewport)
    | SetScissor(scissor: Rect2D)
    | BindVertexBuffer
    | BindIndexBuffer
    | BindTexture(texture: TextureId)
    | PushTextureSize(texture: TextureId)
    | PushTransform(transform: Transform2D)
    | PushTextureView(transform: Transform2D, color: Color, vertices: seq<Vec2f>)
    | DrawIndexed(indexCount: nat, firstIndex: nat)
    | DrawVertices(vertexCount: nat)
    // command buffers, queues and synchronisation
    | BeginCommandBuffer(cmd: Handle)
    | EndCommandBuffer(cmd: Handle)
    | WaitFence(fence: Handle)
    | ResetFence(fence: Handle)
    | AcquireImage(semaphore: Handle)
    | Submit(cmd: Handle, wait: Handle, signal: Handle, fence: Handle)
    | Present(wait: Handle, image: nat)
    | WaitIdle
    | CreateSwapchain(imageCount: nat, extent: Extent2D, presentMode: nat, concurrent: bool, oldSwapchain: Handle)
    | FreeCommandBuffer(pool: Handle, cmd: Handle)
    // resources
    | UploadGeometry(vertexCount: nat, indexCount: nat)
    | Created(handle: Handle)
    | CreateBuffer(size: nat, usage: nat, sharing: SharingMode)
    | AllocateMemory(size: nat, memoryType: nat)
    | BindBufferMemory(buffer: Handle, memory: Handle)
    | CopyBuffer(src: Handle, dst: Handle, size: nat)
    | Destroyed(handle: Handle)
    | RegisterBuiltinPipeline(pipeline: UUID)
    | RegisterBuiltinRenderPass(renderPass: UUID)

  /** The transform draws start from: framebuffer pixels to clip space,
      `Transform2D().translate(-1, -1).scale(2 / fb.x, 2 / fb.y)`. */
  function BaseTransform(fb: Extent2D): Transform2D
  {
    Then(Then(Identity, Translate(Vec2f(-1.0, -1.0))), ScaleInverse(2.0, fb.width, fb.height))
  }

  /** The device: the trace of calls made so far and the next handle value
      the driver will hand out. */
  class Device {
    var trace: seq<Event>
    var nextHandle: Handle

    constructor ()
      ensures trace == [] && nextHandle == 1
    {
      trace := [];
      nextHandle := 1;
    }

    /** One call into the driver. */
    method Record(e: Event)
      modifies this
      ensures trace == old(trace) + [e] && nextHandle == old(nextHandle)
    {
      trace := trace + [e];
    }

    /** A call that creates an object: a handle never handed out before. */
    method NewHandle() returns (h: Handle)
      modifies this
      ensures h == old(nextHandle) && nextHandle == h + 1
      ensures trace == old(trace) + [Created(h)]
    {
      h := nextHandle;
      nextHandle := nextHandle + 1;
      trace := trace + [Created(h)];
    }
  }
}
