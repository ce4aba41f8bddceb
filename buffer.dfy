// `Buffer<T>` (include/vkdl/core/buffer.h): a Vulkan buffer of `T`s with
// its own device memory. The buffer object is remade on every size change;
// the memory is reallocated only when the new buffer needs more than is
// allocated, so the allocation only ever grows until `clear`.
//
// `sizeof(T)` is the constant `elemSize`. Usage and memory-property masks
// are numbers, 0 being the empty mask. What the driver answers (the
// memory requirement of a new buffer, and the memory type the context
// finds for it, or the error it raises) is a parameter.
module Buffer {
  import opened Wrappers
  import opened Vk
  import opened Gpu

  /** The allocation after a buffer that needs `required` bytes is bound:
      it grows to the requirement when that is larger, and never shrinks. */
  function Allocation(current: nat, required: nat): (r: nat)
    ensures r >= current && r >= required
    ensures r == current || r == required
  {
    if current < required then required else current
  }

  /** Only a larger requirement moves the allocation, and growing twice is
      growing once to the larger requirement. */
  lemma AllocationMonotone(current: nat, req1: nat, req2: nat)
    ensures Allocation(current, req1) == current <==> req1 <= current
    ensures Allocation(Allocation(current, req1), req2) == Allocation(current, if req1 < req2 then req2 else req1)
  {
  }

  class Buffer {
    const elemSize: nat
    var buffer: Handle
    var memory: Handle
    var usage: nat
    var memoryProps: nat
    var sharingMode: SharingMode
    var actualSize: nat
    var allocatedSize: nat

    /** The allocation holds the elements the size promises. */
    predicate Valid()
      reads this
    {
      elemSize > 0 && elemSize * actualSize <= allocatedSize
    }

    /** `size()`. */
    function Size(): nat
      reads this
    {
      actualSize
    }

    /** `size_in_byte()`. */
    function SizeInByte(): nat
      reads this
    {
      elemSize * actualSize
    }

    /** `capacity()`: how many whole elements the allocation holds. */
    function Capacity(): (c: nat)
      requires elemSize > 0
      reads this
      ensures c * elemSize <= allocatedSize < (c + 1) * elemSize
    {
      allocatedSize / elemSize
    }

    /** A valid buffer's capacity is at least its size. */
    lemma CapacityCoversSize()
      requires Valid()
      ensures Capacity() >= Size()
    {
    }

    /** `empty()`. */
    predicate Empty()
      reads this
    {
      buffer == 0
    }

    /** The check of `init` and `resize`, which fires when usage and memory
        properties are both set. */
    predicate Rejected()
      reads this
    {
      usage != 0 && memoryProps != 0
    }

    /** `Buffer()`, and `Buffer(usage, memory_props, sharing_mode)`: no
        buffer, no memory, size and allocation zero. */
    constructor (elemSize: nat, usage: nat, memoryProps: nat, sharingMode: SharingMode)
      requires elemSize > 0
      ensures this.elemSize == elemSize && this.usage == usage && this.memoryProps == memoryProps
      ensures this.sharingMode == sharingMode
      ensures buffer == 0 && memory == 0 && actualSize == 0 && allocatedSize == 0
      ensures Empty() && Valid()
    {
      this.elemSize := elemSize;
      buffer := 0;
      memory := 0;
      this.usage := usage;
      this.memoryProps := memoryProps;
      this.sharingMode := sharingMode;
      actualSize := 0;
      allocatedSize := 0;
    }

    /** `Buffer(Buffer&& rhs)`: handles, usage, sharing mode and sizes are
        handed over and the source's are reset. The memory properties are
        not among the members it initialises, so they start out empty. */
    constructor Moved(rhs: Buffer)
      modifies rhs
      ensures elemSize == rhs.elemSize && buffer == old(rhs.buffer) && memory == old(rhs.memory)
      ensures usage == old(rhs.usage) && sharingMode == old(rhs.sharingMode) && memoryProps == 0
      ensures actualSize == old(rhs.actualSize) && allocatedSize == old(rhs.allocatedSize)
      ensures rhs.buffer == 0 && rhs.memory == 0 && rhs.usage == 0 && rhs.sharingMode == Exclusive
      ensures rhs.actualSize == 0 && rhs.allocatedSize == 0 && rhs.memoryProps == old(rhs.memoryProps)
      ensures rhs.Empty()
    {
      elemSize := rhs.elemSize;
      buffer := rhs.buffer;
      memory := rhs.memory;
      usage := rhs.usage;
      memoryProps := 0;
      sharingMode := rhs.sharingMode;
      actualSize := rhs.actualSize;
      allocatedSize := rhs.allocatedSize;
      new;
      rhs.buffer := 0;
      rhs.memory := 0;
      rhs.usage := 0;
      rhs.sharingMode := Exclusive;
      rhs.actualSize := 0;
      rhs.allocatedSize := 0;
    }

    /** `clear()`: wait for the device, destroy the buffer, free the memory
        and forget both. */
    method Clear(device: Device)
      modifies this, device
      ensures device.trace == old(device.trace) + [WaitIdle, Destroyed(old(buffer)), Destroyed(old(memory))]
      ensures device.nextHandle == old(device.nextHandle)
      ensures buffer == 0 && memory == 0 && actualSize == 0 && allocatedSize == 0 && Empty()
      ensures usage == old(usage) && memoryProps == old(memoryProps) && sharingMode == old(sharingMode)
    {
      device.Record(WaitIdle);
      device.Record(Destroyed(buffer));
      device.Record(Destroyed(memory));
      buffer := 0;
      memory := 0;
      actualSize := 0;
      allocatedSize := 0;
    }

    /** `init(usage, memory_props, sharing_mode)`: rejected when both masks
        are set; otherwise the buffer is cleared and takes the three. */
    method Init(device: Device, usage: nat, memoryProps: nat, sharingMode: SharingMode) returns (r: Result<()>)
      modifies this, device
      ensures r.Err? <==> usage != 0 && memoryProps != 0
      ensures r.Err? ==> unchanged(this) && unchanged(device)
      ensures r.Ok? ==>
        device.trace == old(device.trace) + [WaitIdle, Destroyed(old(buffer)), Destroyed(old(memory))] &&
        buffer == 0 && memory == 0 && actualSize == 0 && allocatedSize == 0 &&
        this.usage == usage && this.memoryProps == memoryProps && this.sharingMode == sharingMode
    {
      if usage != 0 && memoryProps != 0 {
        return Err("error");
      }
      Clear(device);
      this.usage := usage;
      this.memoryProps := memoryProps;
      this.sharingMode := sharingMode;
      r := Ok(());
    }

    /** `resize(n)`, the driver asking `required` bytes for the new buffer
        and the context answering with a memory type or an error: rejected
        when both masks are set; nothing to do at the same size; otherwise
        the buffer is remade for n elements, the memory reallocated if the
        requirement exceeds the allocation, and the buffer bound to it. */
    method Resize(device: Device, n: nat, required: nat, memoryType: Result<nat>) returns (r: Result<()>)
      requires required >= elemSize * n
      modifies this, device
      ensures Rejected() ==> r == Err("error") && unchanged(this) && unchanged(device)
      ensures !Rejected() && old(actualSize) == n ==> r.Ok? && unchanged(this) && unchanged(device)
      ensures usage == old(usage) && memoryProps == old(memoryProps) && sharingMode == old(sharingMode)
      ensures !Rejected() && old(actualSize) != n ==>
        buffer == old(device.nextHandle) && actualSize == n && SizeInByte() == elemSize * n &&
        |device.trace| >= |old(device.trace)| + 3 &&
        device.trace[..|old(device.trace)| + 3] == old(device.trace) +
          [Destroyed(old(buffer)), CreateBuffer(elemSize * n, usage, sharingMode), Created(old(device.nextHandle))]
      ensures !Rejected() && old(actualSize) != n ==> (r.Err? <==> old(allocatedSize) < required && memoryType.Err?)
      ensures r.Err? && !Rejected() ==>
        memory == old(memory) && allocatedSize == old(allocatedSize) &&
        device.trace[|old(device.trace)| + 3..] == [Destroyed(old(memory))]
      ensures r.Ok? && old(actualSize) != n && old(allocatedSize) < required ==>
        memory == old(device.nextHandle) + 1 && allocatedSize == required &&
        device.trace[|old(device.trace)| + 3..] ==
          [Destroyed(old(memory)), AllocateMemory(required, memoryType.value), Created(memory), BindBufferMemory(buffer, memory)]
      ensures r.Ok? && old(actualSize) != n && old(allocatedSize) >= required ==>
        memory == old(memory) && allocatedSize == old(allocatedSize) &&
        device.trace[|old(device.trace)| + 3..] == [BindBufferMemory(buffer, memory)]
      ensures r.Ok? ==> allocatedSize == Allocation(old(allocatedSize), if old(actualSize) == n then 0 else required)
      ensures r.Ok? && old(Valid()) ==> Valid()
    {
      if usage != 0 && memoryProps != 0 {
        return Err("error");
      }
      if actualSize == n {
        return Ok(());
      }
      ghost var t0 := device.trace;
      device.Record(Destroyed(buffer));
      device.Record(CreateBuffer(elemSize * n, usage, sharingMode));
      buffer := device.NewHandle();
      actualSize := n;
      ghost var t1 := device.trace;
      if allocatedSize < required {
        device.Record(Destroyed(memory));
        if memoryType.Err? {
          assert device.trace[|t0| + 3..] == [Destroyed(old(memory))];
          return Err(memoryType.message);
        }
        device.Record(AllocateMemory(required, memoryType.value));
        memory := device.NewHandle();
        allocatedSize := required;
      }
      device.Record(BindBufferMemory(buffer, memory));
      assert device.trace[..|t0| + 3] == t1;
      r := Ok(());
    }

    /** `~Buffer()`: the buffer destroyed and the memory freed. */
    method Release(device: Device)
      modifies device
      ensures device.trace == old(device.trace) + [Destroyed(buffer), Destroyed(memory)]
      ensures device.nextHandle == old(device.nextHandle)
    {
      device.Record(Destroyed(buffer));
      device.Record(Destroyed(memory));
    }
  }

  /** `Buffer(size, usage, memory_props, sharing_mode)`: a buffer of the
      three, resized to size. */
  method NewSized(device: Device, elemSize: nat, size: nat, usage: nat, memoryProps: nat, sharingMode: SharingMode,
                  required: nat, memoryType: Result<nat>) returns (b: Buffer, r: Result<()>)
    requires elemSize > 0 && required >= elemSize * size
    modifies device
    ensures fresh(b) && b.elemSize == elemSize && b.usage == usage && b.memoryProps == memoryProps
    ensures b.sharingMode == sharingMode
    ensures r.Err? <==> (usage != 0 && memoryProps != 0) || (size > 0 && memoryType.Err?)
    ensures r.Ok? ==> b.Size() == size && b.Valid() && (size > 0 ==> b.allocatedSize == required)
  {
    b := new Buffer(elemSize, usage, memoryProps, sharingMode);
    r := b.Resize(device, size, required, memoryType);
  }

  /** `Buffer(const Buffer& rhs)`: a buffer of rhs's usage, properties and
      sharing mode, resized to rhs's size, then a copy of rhs's bytes into
      it. When the resize raises, the copy is never made. */
  method CopyOf(device: Device, rhs: Buffer, required: nat, memoryType: Result<nat>) returns (b: Buffer, r: Result<()>)
    requires rhs.elemSize > 0 && required >= rhs.elemSize * rhs.actualSize
    modifies device
    ensures fresh(b) && b.usage == rhs.usage && b.memoryProps == rhs.memoryProps && b.sharingMode == rhs.sharingMode
    ensures r.Err? <==> rhs.Rejected() || (rhs.actualSize > 0 && memoryType.Err?)
    ensures r.Ok? ==> b.Size() == rhs.Size() && b.Valid()
    ensures r.Ok? ==> |device.trace| > 0 && device.trace[|device.trace| - 1] == CopyBuffer(rhs.buffer, b.buffer, rhs.elemSize * rhs.actualSize)
  {
    b, r := NewSized(device, rhs.elemSize, rhs.actualSize, rhs.usage, rhs.memoryProps, rhs.sharingMode, required, memoryType);
    if r.Ok? {
      device.Record(CopyBuffer(rhs.buffer, b.buffer, b.SizeInByte()));
    }
  }
}
