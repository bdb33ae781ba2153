/** src/gpu/buffer.cc: choosing a memory type for a buffer, the steps of
    constructing a host-visible buffer, and uploading bytes into it. The
    driver's answers (whether each call succeeds, the memory requirements
    it reports, the device's memory-type table) are inputs. */
module Buffer {
  import opened Results

  /** VK_MAX_MEMORY_TYPES: the size of the memoryTypes array in
      VkPhysicalDeviceMemoryProperties (Vulkan 1.0, section 10.2). */
  const MaxMemoryTypes: nat := 32

  /** VkMemoryPropertyFlagBits values used by the buffer code. */
  const MemoryPropertyHostVisible: bv32 := 0x2
  const MemoryPropertyHostCoherent: bv32 := 0x4

  /** The property mask every buffer asks for, whatever its usage. */
  const HostMemoryFlags: bv32 := MemoryPropertyHostCoherent | MemoryPropertyHostVisible

  /** VkMemoryType. */
  datatype MemoryType = MemoryType(propertyFlags: bv32, heapIndex: nat)

  /** VkPhysicalDeviceMemoryProperties (the heaps are not used here). */
  datatype MemoryProperties = MemoryProperties(memoryTypeCount: nat, memoryTypes: seq<MemoryType>)

  /** What the Vulkan specification guarantees of a reported table: the
      fixed-size array, of which the first memoryTypeCount entries are valid. */
  predicate WellFormed(p: MemoryProperties)
  {
    |p.memoryTypes| == MaxMemoryTypes && p.memoryTypeCount <= MaxMemoryTypes
  }

  /** Memory type `i` is allowed by the buffer's memoryTypeBits and its
      property flags include every flag of `extra`. */
  predicate Qualifies(p: MemoryProperties, supportedBits: bv32, extra: bv32, i: nat)
    requires WellFormed(p) && i < MaxMemoryTypes
  {
    supportedBits & ((1 as bv32) << i) != 0 && p.memoryTypes[i].propertyFlags & extra == extra
  }

  /** Some valid entry of the table qualifies. */
  predicate SomeTypeQualifies(p: MemoryProperties, supportedBits: bv32, extra: bv32)
    requires WellFormed(p)
  {
    exists j :: 0 <= j < p.memoryTypeCount && Qualifies(p, supportedBits, extra, j)
  }

  datatype BufferError =
    | CreateBufferFailed
    | NoSuitableMemoryType(supportedBits: bv32, extra: bv32)
    | AllocateMemoryFailed
    | BindMemoryFailed

  /** `find_memory_type_index`: the first memory type, in table order, that
      qualifies; the C++ code throws when there is none. */
  method FindMemoryTypeIndex(p: MemoryProperties, supportedBits: bv32, extra: bv32)
    returns (r: Result<nat, BufferError>)
    requires WellFormed(p)
    ensures r.Ok? ==> r.value < p.memoryTypeCount && Qualifies(p, supportedBits, extra, r.value)
    ensures r.Ok? ==> forall j :: 0 <= j < r.value ==> !Qualifies(p, supportedBits, extra, j)
    ensures r.Err? ==> r.error == NoSuitableMemoryType(supportedBits, extra)
    ensures r.Err? <==> forall j :: 0 <= j < p.memoryTypeCount ==> !Qualifies(p, supportedBits, extra, j)
  {
    var i := 0;
    while i < p.memoryTypeCount
      invariant 0 <= i <= p.memoryTypeCount
      invariant forall j :: 0 <= j < i ==> !Qualifies(p, supportedBits, extra, j)
    {
      var supportsMemType := supportedBits & ((1 as bv32) << i) != 0;
      var supportsExtra := p.memoryTypes[i].propertyFlags & extra == extra;
      if supportsMemType && supportsExtra {
        assert Qualifies(p, supportedBits, extra, i);
        return Ok(i);
      }
      i := i + 1;
    }
    return Err(NoSuitableMemoryType(supportedBits, extra));
  }

  datatype SharingMode = Exclusive | Concurrent

  /** VkBufferCreateInfo, as far as the constructor fills it in. */
  datatype BufferCreateInfo = BufferCreateInfo(size: nat, usage: bv32, sharingMode: SharingMode)

  /** VkMemoryRequirements, as reported by the driver for the new buffer. */
  datatype MemoryRequirements = MemoryRequirements(size: nat, alignment: nat, memoryTypeBits: bv32)

  /** VkMemoryAllocateInfo. */
  datatype MemoryAllocateInfo = MemoryAllocateInfo(allocationSize: nat, memoryTypeIndex: nat)

  /** The fallible driver calls the constructor makes, in the order made. */
  datatype DriverCall =
    | CreateBuffer(createInfo: BufferCreateInfo)
    | AllocateMemory(allocateInfo: MemoryAllocateInfo)
    | BindBufferMemory(memoryOffset: nat)

  /** The driver's side of construction: whether each call succeeds, the
      requirements it reports for the new buffer, and the memory-type table
      of the physical device. */
  datatype BufferDriver = BufferDriver(
    createSucceeds: bool,
    requirements: MemoryRequirements,
    memoryProperties: MemoryProperties,
    allocateSucceeds: bool,
    bindSucceeds: bool)

  /** A constructed `Buffer`: the create and allocate requests it was made
      with and the bytes of its allocation (`allocation_`). */
  class Buffer {
    const createInfo: BufferCreateInfo
    const allocateInfo: MemoryAllocateInfo
    const memory: array<bv8>

    constructor (createInfo: BufferCreateInfo, allocateInfo: MemoryAllocateInfo)
      ensures this.createInfo == createInfo && this.allocateInfo == allocateInfo
      ensures fresh(memory) && memory.Length == allocateInfo.allocationSize
    {
      this.createInfo := createInfo;
      this.allocateInfo := allocateInfo;
      memory := new bv8[allocateInfo.allocationSize];
    }

    /** `upload_memory(data, size)`: map the allocation, copy the first
        `size` bytes of `data` to its start, unmap. Nothing checks that
        `size` fits the allocation, so the caller must. */
    method UploadMemory(data: seq<bv8>, size: nat)
      requires size <= |data|
      requires size <= memory.Length
      modifies memory
      ensures memory[..size] == data[..size]
      ensures memory[size..] == old(memory[size..])
    {
      var i := 0;
      while i < size
        invariant 0 <= i <= size
        invariant memory[..i] == data[..i]
        invariant memory[size..] == old(memory[size..])
      {
        memory[i] := data[i];
        i := i + 1;
        assert memory[..i] == memory[..i - 1] + [data[i - 1]];
        assert data[..i] == data[..i - 1] + [data[i - 1]];
      }
    }
  }

  /** `Buffer::Buffer(size, usage, device, physical_device)`: create the
      buffer handle with exactly `size` bytes, the given usage and exclusive
      sharing; pick the first memory type allowed by the reported
      requirements that is host-coherent and host-visible, whatever the
      usage; allocate the reported requirement size (not `size`); bind at
      offset 0. The first step that fails throws, and no later call is made.
      `calls` lists the driver calls made. */
  method NewBuffer(size: nat, usage: bv32, driver: BufferDriver)
    returns (r: Result<Buffer, BufferError>, calls: seq<DriverCall>)
    requires WellFormed(driver.memoryProperties)
    ensures |calls| >= 1 && calls[0] == CreateBuffer(BufferCreateInfo(size, usage, Exclusive))
    ensures !driver.createSucceeds ==> r == Err(CreateBufferFailed) && |calls| == 1
    ensures driver.createSucceeds && r.Err? && r.error.NoSuitableMemoryType? ==>
      |calls| == 1 && r.error == NoSuitableMemoryType(driver.requirements.memoryTypeBits, HostMemoryFlags)
    ensures driver.createSucceeds ==>
      (r == Err(NoSuitableMemoryType(driver.requirements.memoryTypeBits, HostMemoryFlags)) <==>
       forall j :: 0 <= j < driver.memoryProperties.memoryTypeCount ==>
         !Qualifies(driver.memoryProperties, driver.requirements.memoryTypeBits, HostMemoryFlags, j))
    ensures driver.createSucceeds && SomeTypeQualifies(driver.memoryProperties, driver.requirements.memoryTypeBits, HostMemoryFlags) ==>
      |calls| >= 2
    ensures r.Ok? <==>
      && driver.createSucceeds
      && SomeTypeQualifies(driver.memoryProperties, driver.requirements.memoryTypeBits, HostMemoryFlags)
      && driver.allocateSucceeds
      && driver.bindSucceeds
    ensures |calls| >= 2 ==>
      && calls[1].AllocateMemory?
      && calls[1].allocateInfo.allocationSize == driver.requirements.size
      && var index := calls[1].allocateInfo.memoryTypeIndex;
      && index < driver.memoryProperties.memoryTypeCount
      && Qualifies(driver.memoryProperties, driver.requirements.memoryTypeBits, HostMemoryFlags, index)
      && forall j :: 0 <= j < index ==>
           !Qualifies(driver.memoryProperties, driver.requirements.memoryTypeBits, HostMemoryFlags, j)
    ensures |calls| >= 2 && !driver.allocateSucceeds ==> r == Err(AllocateMemoryFailed) && |calls| == 2
    ensures |calls| >= 2 && driver.allocateSucceeds ==> |calls| == 3 && calls[2] == BindBufferMemory(0)
    ensures |calls| == 3 ==> (r.Ok? <==> driver.bindSucceeds)
    ensures |calls| == 3 && !driver.bindSucceeds ==> r == Err(BindMemoryFailed)
    ensures r.Ok? ==>
      && |calls| == 3
      && fresh(r.value) && fresh(r.value.memory)
      && r.value.createInfo == calls[0].createInfo
      && r.value.allocateInfo == calls[1].allocateInfo
      && r.value.memory.Length == driver.requirements.size
  {
    var createInfo := BufferCreateInfo(size, usage, Exclusive);
    calls := [CreateBuffer(createInfo)];
    if !driver.createSucceeds {
      return Err(CreateBufferFailed), calls;
    }
    var requirements := driver.requirements;
    var index := FindMemoryTypeIndex(driver.memoryProperties, requirements.memoryTypeBits, HostMemoryFlags);
    if index.Err? {
      return Err(index.error), calls;
    }
    var allocateInfo := MemoryAllocateInfo(requirements.size, index.value);
    calls := calls + [AllocateMemory(allocateInfo)];
    if !driver.allocateSucceeds {
      return Err(AllocateMemoryFailed), calls;
    }
    calls := calls + [BindBufferMemory(0)];
    if !driver.bindSucceeds {
      return Err(BindMemoryFailed), calls;
    }
    var buffer := new Buffer(createInfo, allocateInfo);
    r := Ok(buffer);
  }
}
