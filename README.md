# villa-cpp core, modelled in Dafny

This project models the core of villa-cpp, a small C++ Vulkan engine that
runs on Win32. It covers five parts.

- **Slab allocator** (`src/util/slab.h`). A vector of slots is threaded by an
  intrusive LIFO free list headed by `next_available_`. The model has
  `emplace`, `release`, `get` and the destructor, which marks the free slots
  and releases the rest. The allocator is a class (`Slab.Slab`) over a
  sequence of tagged slots. Each method is proved against a function on an
  immutable `SlabState`. The ghost free-list chain and the counts of values
  constructed and destroyed are invariants of the class.
- **Buffer** (`src/gpu/buffer.cc`). This part chooses a memory type: the
  first type allowed by the buffer's requirements that has the requested
  property flags. It also covers the steps of the `Buffer` constructor, in
  order, each with its failure, and `upload_memory` as a byte copy into the
  allocation.
- **Device bring-up** (`src/gpu/vk/gpu.cc`). This part covers:
  - the validation-layer check
  - the search for a graphics queue family
  - the choice of physical device
  - the logical-device request
  - `Gpu::init` with its fixed failure order
  - the teardown order of `~Gpu`

  The driver's answers are inputs.
- **Win32 window** (`src/window/win32/window.cc`, `window.h`). The state
  that `window_proc` keeps is a value (`WindowState`) with a transition
  function. The `Window` class has the same fields and a `pressed_keys_`
  array. `WindowProc` updates the class as the transition says. The model
  proves:
  - round trips for the packed LPARAM of WM_SIZE and WM_MOUSEMOVE
  - per-key independence of the key table
  - that a closed window stays closed
- **Example** (`example/main.cc`). This is the geometry bookkeeping of the
  demo's main loop. Each click appends a triangle. Uploads go through a
  64 KiB staging buffer. Vertex and index buffers are replaced by ones of
  the current size.

The Win32 and Vulkan calls are left out. In `Buffer.NewBuffer`,
`Gpu.Gpu.Init`, `Window.NewWindow` and `Window.Window.Poll`, whether each
call succeeds, and the values it reports, are parameters. Elsewhere some
calls are assumed to succeed: vkMapMemory in `Buffer.Buffer.UploadMemory`
and the example's own GPU calls, as listed under "## Left out".

## Model

| member | source | states |
|---|---|---|
| Slab.Slab.constructor | src/util/slab.h:14-16 | A new slab has no slots, its free-list head is kInvalidSlabKey, and the class invariant holds. |
| Slab.Slab.Get | src/util/slab.h:35-37 | For a live key, `get` returns exactly the value the live-key map binds to that key. |
| Slab.Slab.Emplace | src/util/slab.h:39-52 | The new state is `Emplaced(old, v)`. The key returned is the free-list head, or the old size when the list is empty. The free-list and accounting invariant is kept, and one more value has been constructed. |
| Slab.Slab.Release | src/util/slab.h:54-59 | For a live key, the slot becomes a free link to the old head and the key becomes the head. The invariant is kept, and one more value has been destroyed. |
| Slab.EmplaceKeepsFreeList | src/util/slab.h:39-52 | `emplace` keeps the free list well formed. The list loses its head, or stays empty when a slot is appended. |
| Slab.ReleaseKeepsFreeList | src/util/slab.h:54-59 | Releasing a live key keeps the free list well formed, with the key pushed on the front. |
| Slab.EmplaceLive | src/util/slab.h:39-52 | The key `emplace` hands out was not live and is now bound to the new value. Every other key keeps its value. The vector grows by one slot exactly when the free list was empty. Otherwise the key is the old head. |
| Slab.ReleaseLive | src/util/slab.h:54-59 | `release` removes exactly the released key from the live map. Other keys keep their values, and the vector keeps its length. |
| Slab.ReleaseThenEmplace | src/util/slab.h:39-59 | LIFO reuse: an `emplace` right after a `release` returns the released key. The free-list head is as it was before the release. |
| Slab.EmplaceCount | src/util/slab.h:39-52 | `emplace` raises the number of occupied slots by exactly one. |
| Slab.ReleaseCount | src/util/slab.h:54-59 | Releasing a live key lowers the number of occupied slots by exactly one. |
| Slab.Slab.InUseFlags | src/util/slab.h:18-26 | The free-list walk in the destructor terminates. It produces one flag per slot, and a flag is true exactly when its slot holds a value. |
| Slab.Slab.ReleaseMarked | src/util/slab.h:28-32 | The release loop in the destructor releases, in index order, exactly the slots marked in use. It ends in `SweptTo(old, n)`, and the invariant is kept. |
| Slab.LiveKeysBelowSpec | src/util/slab.h:28-32 | The keys that the release loop releases come in strictly increasing order. They are exactly the live keys below the bound. |
| Slab.SweptToFrees | src/util/slab.h:28-32 | After the sweep has visited `n` slots, all of them are free and every later slot is unchanged. |
| Slab.Slab.Destroy | src/util/slab.h:18-33 | After `~Slab` every slot is free. Each key live on entry was released exactly once, in increasing order, and no other key was released. Destroyed values equal constructed values. |
| Buffer.FindMemoryTypeIndex | src/gpu/buffer.cc:12-30 | On success it returns the lowest index below memoryTypeCount whose bit is set in the supported bits and whose flags contain all the extra flags. It fails with those bits and flags if and only if no index qualifies. |
| Buffer.NewBuffer | src/gpu/buffer.cc:34-70 | The buffer is created with exactly `size`, the given usage and exclusive sharing. The allocation has the reported requirement size, from the lowest qualifying host-coherent, host-visible type, whatever the usage. Memory is bound at offset 0. The first step that fails is the error, and no later driver call is made. When creation succeeds and some type qualifies, the allocation is attempted. The result is Ok exactly when creation, the type search, allocation and binding all succeed. |
| Buffer.Buffer.UploadMemory | src/gpu/buffer.cc:72-77 | The first `size` bytes of the allocation become the first `size` bytes of the data. The remaining bytes are unchanged. |
| Gpu.EnsureValidationLayersSupported | src/gpu/vk/gpu.cc:18-39 | It passes if and only if every requested layer is available. On failure it names the first requested layer that is missing. |
| Gpu.GraphicsTestIsBitTest | src/gpu/vk/gpu.cc:50 | Comparing the masked queue flags with 1 is the same as testing the graphics bit. |
| Gpu.GraphicsQueueFamilyFrom | src/gpu/vk/gpu.cc:49-55 | Returns the first family at or after `i` with the graphics bit, or none when no such family exists. |
| Gpu.GraphicsQueueFamily | src/gpu/vk/gpu.cc:42-56 | Returns the lowest family index with the graphics bit. It returns none if and only if no family has it. |
| Gpu.FirstSuitableFrom | src/gpu/vk/gpu.cc:73-83 | Returns the first device at or after `i` that has a graphics family, paired with that family, or none when no such device exists. |
| Gpu.FindBestPhysicalDevice | src/gpu/vk/gpu.cc:63-84 | Fails with NoVulkanDevices if and only if no device is enumerated. Otherwise it returns the first device in enumeration order that has a graphics queue family, with that family, or none. |
| Gpu.DeviceRequestIsOneGraphicsQueue | src/gpu/vk/gpu.cc:86-107 | The logical-device request asks for exactly one queue, on the selected device, from a family of that device that has the graphics bit. |
| Gpu.Gpu.constructor | src/gpu/vk/gpu.cc:119-121 | All four handles start as VK_NULL_HANDLE. |
| Gpu.Gpu.Init | src/gpu/vk/gpu.cc:123-157 | Steps fail in this order: layers (debug only), instance, no devices, no suitable device, logical device. Each failure makes no later call and leaves later handles unset. When the layers, the instance and a suitable device are all present, the logical device is requested. `init` passes exactly when, in addition, the logical device is created. On success the instance and device handles are set, and queue 0 of the graphics family is fetched. `physical_device_` and `surface_` are never assigned. |
| Gpu.Gpu.Destroy | src/gpu/vk/gpu.cc:159-171 | Calls run in the order device, surface, instance. Every non-null handle is destroyed once, null handles are skipped, and the surface is destroyed with the instance that owns it. |
| Window.WindowProc | src/window/win32/window.cc:29-72 | For a handled message, the attached window's state becomes `Transition(old, m)` and 0 is returned. Any other message goes to DefWindowProc and changes nothing. A handled message with no window attached throws. |
| Window.PackedWords | src/window/win32/window.cc:37-38 | LOWORD and HIWORD read back the two words in the low 32 bits of any LPARAM. This holds both for MAKELPARAM's zero-extended value and for sign-extended ones. |
| Window.SizeRoundTrip | src/window/win32/window.cc:36-43 | For any LPARAM whose low 32 bits hold height above width, WM_SIZE reads back exactly that width and height. No other field changes. |
| Window.MouseMoveRoundTrip | src/window/win32/window.cc:45-52 | For any LPARAM whose low 32 bits hold the two 16-bit coordinates, WM_MOUSEMOVE reads back exactly those signed coordinates, negative ones included. No other field changes. |
| Window.DestroyCloses | src/window/win32/window.cc:31-34 | WM_DESTROY closes the window and keeps every other field. |
| Window.ClosedStaysClosed | src/window/win32/window.cc:29-72 | No sequence of messages reopens a closed window. |
| Window.KeyMessageSetsOneKey | src/window/win32/window.cc:62-68 | A key-down (key-up) sets exactly the entry of `(uint8_t)wParam` to down (up). Every other field and key is unchanged. |
| Window.KeyUntouchedKeepsState | src/window/win32/window.cc:62-68 | A key's entry keeps its value through any run of messages that contains no key message for that key. |
| Window.UnhandledKeepsState | src/window/win32/window.cc:71 | A message that `window_proc` does not handle leaves the state unchanged. |
| Window.Window.constructor | src/window/win32/window.cc:74-75 | The member initializers give a window that is closed and not clicking, with the mouse at (0, 0) and all 256 keys up. |
| Window.NewWindow | src/window/win32/window.cc:74-101 | A failed RegisterClass or CreateWindowEx throws, in that order. Otherwise the window is open, with the state the initializers give. |
| Window.Window.Poll | src/window/win32/window.cc:103-112 | With no pending message the state is unchanged. Otherwise the state is `Transition(old, m)`. Either way the result is the current `open_`. |
| Window.Window.Width | src/window/win32/window.h:29-31 | Returns the stored width, a WORD widened to int, so it lies in [0, 65535]. |
| Window.Window.Height | src/window/win32/window.h:33-35 | Returns the stored height, a WORD widened to int, so it lies in [0, 65535]. |
| Window.Window.MouseX | src/window/win32/window.h:37-39 | Returns the stored mouse x coordinate. |
| Window.Window.MouseY | src/window/win32/window.h:41-43 | Returns the stored mouse y coordinate. |
| Window.Window.LeftClicking | src/window/win32/window.h:53-55 | Returns the stored left-button state. |
| Window.Window.IsKeyDown | src/window/win32/window.h:57-59 | Returns the key table's entry for a uint8_t key code, which is always within the 256 entries. |
| Window.VulkanExtensions | src/window/win32/window.h:19-21 | Exactly VK_KHR_surface, then VK_KHR_win32_surface. |
| Example.VerticesAfterLength | example/main.cc:64-66 | Each click adds exactly three vertices, and other frames add none. |
| Example.VerticesOnlyGrow | example/main.cc:56-84 | Vertices are only ever appended: the array after `k` frames is a prefix of the array after any later frame. |
| Example.IdleFramesKeepVertices | example/main.cc:56-57 | Frames without a click leave the vertex array and the click count unchanged. |
| Example.FirstClosedIsFirst | example/main.cc:56 | The loop stops at the first frame in which `poll` reports the window closed. No earlier frame is closed. |
| Example.ClickUploadSizes | example/main.cc:73-80 | An arithmetic helper on the upload schedule: positions 2c + 2 and 2c + 3 are sized for 3(c + 2) vertices and 3(c + 2) indices. |
| Example.IndexUploadFits | example/main.cc:73-80 | Take a log of uploads that fitted and that ends with a vertex upload. If indices are no wider than vertices, the next index upload fits the staging buffer too. |
| Example.AddTriangle | example/main.cc:57-84 | A click appends the frame's three vertices and the indices n, n+1, n+2. It uploads vertices, then indices, each sized element size × count. It reports the first upload that would overflow 64 KiB: this click's vertex upload, or its index upload after the vertex upload was logged. Indices stay equal to their positions. |
| Example.RunExample | example/main.cc:29-91 | Indices always equal their positions, and there are as many indices as vertices. Every logged upload fits the staging buffer and has its scheduled size. An overflow names the upload that would not fit. It happens either in the two initial uploads, or in the click of frame `processed`, after that frame's triangle was added. With indices no wider than vertices, the upload that overflows is always a vertex upload. Unless an upload overflowed, the run stops at the first closed frame, the vertices are the initial triangle followed by each click's triangle in order, and both GPU buffers hold the current counts. |

## Left out

- Vulkan and Win32 calls are foreign code and are not modelled. This covers vkCreate*, vkAllocateMemory, vkBindBufferMemory, RegisterClass, CreateWindowEx, PeekMessage, DispatchMessage and DefWindowProc. In `Buffer.NewBuffer`, `Gpu.Gpu.Init`, `Window.NewWindow` and `Window.Window.Poll`, their success or failure, and the values they report, are parameters. `Example.RunExample` has no such parameters (see below).
- Buffer.Buffer.UploadMemory: assumes vkMapMemory succeeds. The C++ code ignores its VkResult, so after a failed map it would copy through an uninitialised pointer. That case is not modelled.
- The layer, physical-device and queue-family enumeration calls are not logged in `Gpu.Gpu.Init`'s call list, because their results are the `GpuDriver` inputs.
- The VkApplicationInfo fields and the queue priority (a float 1.0) are not modelled.
- `Window::create_surface` and `Gpu::connect_to_surface` are not modelled. As a result, `surface_` is never set by the modelled code and is only destroyed by `Gpu.Gpu.Destroy`.
- `delta_mouse_x`, `delta_mouse_y`, `set_capture_mouse` and `request_close` are not modelled. `window.h` declares them, and `window.cc` neither defines them nor writes the fields they read.
- Re-entrant messages are not modelled: DefWindowProc turning WM_CLOSE into WM_DESTROY, and messages for other windows. `Window.Window.Poll` takes the message it dispatches as an input.
- Window.WindowProc: the `PostQuitMessage(0)` call on WM_DESTROY is not modelled. It only posts WM_QUIT to the message queue, which is outside the model, and it changes no window field.
- Slab.Slab.Get: returns a copy of the value. The C++ `get` returns a `T&`, through which callers can update a live value in place. No member of the model writes a live value.
- Window.Window.constructor: nothing is promised about `width_` and `height_`, because the C++ constructor leaves them uninitialised.
- Gpu.Gpu.Init: when vkCreateInstance fails, `vk_instance_` is modelled as unchanged. The Vulkan specification does not promise what the output handle holds after a failure.
- Slab.Slab.Emplace: the value's constructor is assumed not to throw. In the C++ code, `store_value` runs after the slot was appended (slab.h line 42) or popped off the free list (line 49). A throw there leaves that slot without a value and off the free list, and `~Slab` then marks it in use and calls `~T` on it. So `Slab.Slab.Destroy`'s promise that each live value is destroyed exactly once relies on this assumption.
- Slab.Slab.Emplace: keys are unbounded integers. The C++ `int` key would overflow after 2^31 slots, which is not modelled.
- Slab: the raw storage bytes shared between the free-list link and the value are modelled as a tagged slot. The value's constructor and destructor calls are counted (`constructed`, `destroyed`) rather than run.
- Slab.Slab.ReleaseMarked: it reads the in-use marks from a snapshot sequence of the flags array rather than from the array. Nothing writes the array during that loop.
- Buffer.NewBuffer: when a later step fails, the handles already created are not cleaned up, because the C++ code does not clean them up either. The leak itself is not modelled.
- Buffer.Buffer.UploadMemory: it requires that `size` fits both the data and the allocation. The C++ code does not check this; any other call is undefined behaviour there.
- The Vulkan copy from the staging buffer into the vertex and index buffers, and the draw calls, are not modelled. `Example.RunExample` records the element counts of the buffers it creates.
- Example.RunExample: vertex contents are opaque, because positions and colours are floats and `randf` is random. The sizes of `Vertex` and `IndexType` are parameters.
- Example.RunExample: when an upload is larger than the 64 KiB staging buffer, the run stops with `StagingOverflow`. The C++ code then asks vkMapMemory for more bytes than the buffer was created with. The allocation is `requirements.size`, at least 64 KiB, so the copy may also run past the allocation. Vulkan leaves what follows undefined.
- Example.RunExample: the `IndexType` wrap-around of `indices.size()` is not modelled. For a 16-bit or wider index type, the index upload overflows the staging buffer (more than 32768 indices) before any index could wrap.
- Example.RunExample: the vertex- and index-buffer creations and copies in the click branch are assumed to succeed. This covers `create_vertex_buffer`, `create_index_buffer` and `buffer_copy`. In the C++ code, a failure there throws out of the loop in the middle of the click, after the arrays were extended and staged, and `main` reports the error and returns. The same holds for the initial buffers and copies before the loop.
- Example.RunExample: the frames are a finite input. A window that is still open when they run out ends with `OutOfInput`.
- Memory-type selection: the C++ code always requests host-coherent, host-visible memory, for vertex and index buffers too. The model follows the code, not a device-local design.
- Only the Win32 windowing backend is modelled. Other files of the repository are not part of this model: `player.cc`, `app.h`, the vector types, the UI and the swapchain, command-pool and shader headers.
