# Direct3D 11 texture handoff of the VLC Unity plug-in, in Dafny

`RenderAPI_D3D11` is the Direct3D 11 back end of the plug-in that lets Unity show video decoded by
libvlc. VLC renders into the back one of two `TextureBuffer`s. Each buffer is a Unity-side texture,
a shader view Unity samples, the NT handle that shares the texture, and a render-target view that
VLC draws through. `Swap` exchanges front and back and sets `m_updated`. Unity fetches the front
buffer's shader view with `getVideoFrame`. Unity's device events create the resources
(`CreateResources`, which ends in `Update(100, 100)`) and tear them down (`ReleaseResources`). The
decoder's callbacks (`UpdateOutput`, `StartRendering`, `SelectPlane`, `Setup`, `Resize`) rebuild the
buffers at the decoded size, bind the render target and report the size.

The project has four modules:

- `Driver` (driver.dfy): the Direct3D runtime as the object sees it. Every COM object or handle is
  an opaque number from a counter. The runtime keeps the set of live handles, the kind of each one
  and the log of releases in order. "Released at most once" means the log has no repeats and none
  of its entries is still live.
- `RenderModel` (render_model.dfy): the object as a value `State`, with one function per member.
  The caller decides which Direct3D calls fail. A failure that the code answers with `abort()`
  becomes `Aborted(call)`. A null dereference becomes `Crashed(pointer)`. After either, the object
  takes no further calls.
- `RenderProperties` (render_properties.dfy): what the members guarantee. This covers each member
  on its own, and also every sequence of calls from construction (`Run`). An invariant is proved to
  hold after each step.
- `RenderApiD3D11` (render_api.dfy): the object with the two defects under "## Findings"
  corrected. `TextureBuffer` and `RenderApi` are classes whose methods update fields in place.
  Each method is proved to move the object's abstract value `Abs()` exactly as the matching
  `RenderModel` function moves a `State`. So everything proved in `RenderProperties` about the
  corrected functions holds of this object.

Two places where the code differs from what it evidently intends are under "## Findings". Both are
modelled as written and as intended. The object and the call-sequence model use the intended
versions.

`Update` never calls `m_ReportSize`; only `Resize` reports a size, once, when it is given a
callback. `RenderModel.Resize` appends exactly one report when the callback is non-null and none
when it is null, and `Update` leaves `reports` unchanged.

A buffer is "complete" (`Ready`) when its texture and shared handle exist and every resource it
names is held and of its kind at the current size. A view whose creation failed stays null,
because lines 382-390 and 397-401 only log that failure.

## Model

| member | source | states |
|---|---|---|
| RenderApiD3D11.TextureBuffer.constructor | Plugin/RenderAPI_D3D11.cpp:28-34 | a new TextureBuffer has all four resources null |
| RenderApiD3D11.RenderApi.constructor | Plugin/RenderAPI_D3D11.cpp:62-79 | a new object has every pointer null, size 0x0, no callback, `m_updated` false |
| RenderApiD3D11.RenderApi.ReleaseBuffer | Plugin/RenderAPI_D3D11.cpp:283-308 | releasing a buffer in place has exactly the effect of `RenderModel.ReleaseBuffer`; a null buffer pointer is a crash |
| RenderApiD3D11.RenderApi.InitBuffer | Plugin/RenderAPI_D3D11.cpp:310-404 | initialising a buffer in place, step by step, has exactly the effect of `RenderModel.InitBuffer`, failures included |
| RenderApiD3D11.RenderApi.Update | Plugin/RenderAPI_D3D11.cpp:183-199 | the in-place resize has exactly the effect of `RenderModel.Update`, and both buffer pointers are kept |
| RenderApiD3D11.RenderApi.CreateVlcDevice | Plugin/RenderAPI_D3D11.cpp:221-237 | creating VLC's device and context matches `RenderModel.CreateVlcDevice`, aborting when creation fails |
| RenderApiD3D11.RenderApi.NewBuffers | Plugin/RenderAPI_D3D11.cpp:212-216 | Unity's device and context are stored and both pointers name new, distinct, empty TextureBuffers |
| RenderApiD3D11.RenderApi.CreateResources | Plugin/RenderAPI_D3D11.cpp:201-251 | Initialize's set-up matches `RenderModel.CreateResources`, and both buffers are newly allocated |
| RenderApiD3D11.RenderApi.DeleteBuffer | Plugin/RenderAPI_D3D11.cpp:256-268 | one guarded block releases the buffer's resources and nulls that pointer; the other pointer is kept |
| RenderApiD3D11.RenderApi.ReleaseVlcDevice | Plugin/RenderAPI_D3D11.cpp:270-274 | VLC's device is released once if set, and its pointer is nulled |
| RenderApiD3D11.RenderApi.ReleaseVlcContext | Plugin/RenderAPI_D3D11.cpp:276-280 | VLC's context is released once if set, and its pointer is nulled (the intended line 279) |
| RenderApiD3D11.RenderApi.ReleaseResources | Plugin/RenderAPI_D3D11.cpp:253-281 | the in-place shutdown matches the corrected `RenderModel.ReleaseResources` |
| RenderApiD3D11.RenderApi.UpdateOutput | Plugin/RenderAPI_D3D11.cpp:406-422 | matches `RenderModel.UpdateOutput`: resize, then report the fixed format and succeed |
| RenderApiD3D11.RenderApi.ProcessDeviceEvent | Plugin/RenderAPI_D3D11.cpp:137-181 | the in-place dispatch matches `RenderModel.ProcessDeviceEvent` |
| RenderApiD3D11.RenderApi.Swap | Plugin/RenderAPI_D3D11.cpp:424-431 | the pointer exchange matches `RenderModel.Swap` |
| RenderApiD3D11.RenderApi.GetVideoFrame | Plugin/RenderAPI_D3D11.cpp:486-493 | the returned view and flag are those of `RenderModel.GetVideoFrame` |
| RenderApiD3D11.RenderApi.StartRendering | Plugin/RenderAPI_D3D11.cpp:433-445 | binding and clearing match `RenderModel.StartRendering` |
| RenderApiD3D11.RenderApi.SelectPlane | Plugin/RenderAPI_D3D11.cpp:447-453 | the result and the binding match `RenderModel.SelectPlane` |
| RenderApiD3D11.RenderApi.Setup | Plugin/RenderAPI_D3D11.cpp:455-459 | succeeds and hands out VLC's device context pointer |
| RenderApiD3D11.RenderApi.Resize | Plugin/RenderAPI_D3D11.cpp:466-484 | storing the callback and reporting the size match `RenderModel.Resize` |
| RenderModel.Init | Plugin/RenderAPI_D3D11.cpp:62-79 | the field initialisers: every pointer null, nothing held or released, no callback, `m_updated` false, and the invariant holds |
| RenderModel.InitTextureAsWritten | Plugin/RenderAPI_D3D11.cpp:328-340 | as written: with the Unity device present, a failed CreateTexture2D ends in the null-texture crash; otherwise it behaves as the corrected InitBuffer |
| Driver.Acquire | Plugin/RenderAPI_D3D11.cpp:328 | a created resource is new (never live before), live afterwards, of the requested kind; nothing is released |
| Driver.Release | Plugin/RenderAPI_D3D11.cpp:287 | a released resource is no longer live and is the last entry of the release log; a live resource released from a consistent runtime keeps "released at most once" |
| RenderModel.ReleaseIfSet | Plugin/RenderAPI_D3D11.cpp:285-289 | a guarded release gives back the resource exactly when the field is set, and keeps "released at most once" for a held resource |
| RenderModel.ReleaseHandles | Plugin/RenderAPI_D3D11.cpp:285-307 | the four guarded releases give back exactly the buffer's resources, in the order render target, shader view, texture, shared handle; each resource is released once when the buffer owns them |
| RenderModel.ReleaseBuffer | Plugin/RenderAPI_D3D11.cpp:283-308 | all four fields end null, nothing of the other buffer or any other field changes, the log grows by exactly the buffer's resources in that order; a null buffer pointer crashes |
| RenderModel.AcquireUnless | Plugin/RenderAPI_D3D11.cpp:382-401 | a view creation that fails leaves its field null and the runtime unchanged; otherwise one new live view of the right kind |
| RenderModel.CreateViews | Plugin/RenderAPI_D3D11.cpp:377-403 | each view exists exactly when its creation succeeded; both views are held and distinct, and the VLC-side texture is given back |
| RenderModel.OpenShared | Plugin/RenderAPI_D3D11.cpp:366-403 | runs on exactly when OpenSharedResource1 succeeds and aborts otherwise; on success the interface and the VLC-side texture are no longer held and only the views are new |
| RenderModel.OpenOnVlcDevice | Plugin/RenderAPI_D3D11.cpp:357-403 | completes exactly when VLC's device exists and both calls succeed; otherwise it aborts on a failed call or crashes on the null device |
| RenderModel.ShareTexture | Plugin/RenderAPI_D3D11.cpp:338-403 | completes exactly when the texture exists, VLC's device exists and no fatal call fails; a missing texture is the null-texture crash |
| RenderModel.InitTexture | Plugin/RenderAPI_D3D11.cpp:310-404 | corrected InitBuffer: completes exactly when both devices exist, CreateTexture2D succeeds and no fatal call fails; it never dereferences a null texture |
| RenderModel.InitBuffer | Plugin/RenderAPI_D3D11.cpp:310-404 | only the driver, that buffer and the status change; the buffer pointer stays set |
| RenderModel.Update | Plugin/RenderAPI_D3D11.cpp:183-199 | only the size, the driver, the buffers and the status change |
| RenderModel.CreateVlcDevice | Plugin/RenderAPI_D3D11.cpp:221-237 | a failed D3D11CreateDevice aborts and changes nothing else; otherwise a device and a context of their kinds are newly held and nothing but those fields changes |
| RenderModel.NewBuffers | Plugin/RenderAPI_D3D11.cpp:212-216 | Unity's device and context are stored and both buffers are empty |
| RenderModel.CreateResources | Plugin/RenderAPI_D3D11.cpp:201-251 | Unity's device and context are stored; a failed device creation aborts with no resource acquired; no callback, flag or binding changes |
| RenderModel.DeleteBuffer | Plugin/RenderAPI_D3D11.cpp:256-268 | that pointer ends null, the other is kept, and the resources it named are no longer held |
| RenderModel.ReleaseVlcDevice | Plugin/RenderAPI_D3D11.cpp:270-274 | VLC's device pointer ends null and nothing else but the driver changes |
| RenderModel.ReleaseBuffersAndDevice | Plugin/RenderAPI_D3D11.cpp:255-274 | both buffer pointers and VLC's device end null and nothing else but the driver changes |
| RenderModel.ReleaseVlcContext | Plugin/RenderAPI_D3D11.cpp:276-280 | VLC's context pointer ends null (as intended) and nothing else but the driver changes |
| RenderModel.ReleaseResources | Plugin/RenderAPI_D3D11.cpp:253-281 | corrected shutdown: every pointer VLC owns ends null, Unity's and the callbacks are kept |
| RenderModel.ReleaseResourcesAsWritten | Plugin/RenderAPI_D3D11.cpp:276-280 | as written, the context pointer keeps its value after the context is released |
| RenderModel.Swap | Plugin/RenderAPI_D3D11.cpp:424-431 | crashes exactly when VLC's context is null; otherwise exchanges front and back, sets the flag, and changes nothing else |
| RenderModel.GetVideoFrame | Plugin/RenderAPI_D3D11.cpp:486-493 | reports `m_updated` without clearing it and returns the front buffer's shader view, changing nothing; a null front pointer crashes |
| RenderModel.UpdateOutput | Plugin/RenderAPI_D3D11.cpp:406-422 | always returns true with the fixed RGBA / full-range / BT.709 / linear format, and records the decoder's size; its state is exactly `Update` at that size, so both buffers are rebuilt (line 411) |
| RenderModel.StartRendering | Plugin/RenderAPI_D3D11.cpp:433-445 | returns true exactly when it does not crash; leaving changes nothing; entering succeeds exactly when VLC's context and the back buffer exist, crashes on a null context, and binds and clears the back buffer's render target and nothing else |
| RenderModel.SelectPlane | Plugin/RenderAPI_D3D11.cpp:447-453 | true exactly for plane 0 when nothing crashes; another plane changes nothing; plane 0 succeeds exactly when VLC's context and the back buffer exist, crashes on a null context, and binds the back buffer's render target and nothing else |
| RenderModel.Setup | Plugin/RenderAPI_D3D11.cpp:455-459 | always succeeds and hands out VLC's device context |
| RenderModel.Resize | Plugin/RenderAPI_D3D11.cpp:466-484 | stores the callback and its argument; a non-null callback is called exactly once with the current size; nothing else changes |
| RenderModel.ProcessDeviceEvent | Plugin/RenderAPI_D3D11.cpp:137-181 | Initialize with a device and a context is CreateResources on them, Initialize without either changes nothing, Shutdown is ReleaseResources, and the reset events change nothing |
| RenderProperties.OpenOnVlcDeviceViews | Plugin/RenderAPI_D3D11.cpp:357-403 | after the VLC-device stage only the views are newly held, each exists exactly when its creation succeeded, and they are distinct |
| RenderProperties.ShareTextureViews | Plugin/RenderAPI_D3D11.cpp:338-403 | after the sharing stage the shared handle is held and distinct from both views; the temporary interfaces are not held |
| RenderProperties.InitTextureReady | Plugin/RenderAPI_D3D11.cpp:310-404 | a completed InitBuffer leaves texture and shared handle set, every resource held and of its kind at the current size, and each view set exactly when its creation succeeded |
| RenderProperties.InitTextureHoldsOnlyBuffer | Plugin/RenderAPI_D3D11.cpp:355-403 | after a completed InitBuffer exactly the buffer's own resources are newly held: the temporaries were released before return |
| RenderProperties.ReleaseBoth | Plugin/RenderAPI_D3D11.cpp:191-192 | releasing both buffers gives back exactly their resources, front first, each once, and keeps VLC's device and context |
| RenderProperties.InitStep | Plugin/RenderAPI_D3D11.cpp:196-197 | one InitBuffer completes exactly when its calls succeed, otherwise aborts on one of them, and on success holds a complete buffer at the current size |
| RenderProperties.UpdateConfigured | Plugin/RenderAPI_D3D11.cpp:183-199 | on a configured object Update records the size, never crashes or releases twice, and completes exactly when both initialisations succeed |
| RenderProperties.UpdateRebuildsBoth | Plugin/RenderAPI_D3D11.cpp:183-199 | a completed Update leaves both buffers complete at the same, new size and disjoint, and no resource of the old buffers is still held |
| RenderProperties.ReleaseResourcesConfigured | Plugin/RenderAPI_D3D11.cpp:253-281 | shutdown of a configured object releases every resource it holds exactly once, in order, and none stays held |
| RenderProperties.ReleaseResourcesUnconfigured | Plugin/RenderAPI_D3D11.cpp:256-280 | shutdown of an object with nothing set changes nothing |
| RenderProperties.ReleaseResourcesIdempotent | Plugin/RenderAPI_D3D11.cpp:253-281 | with the intended line 279, a second shutdown releases nothing |
| RenderProperties.CreateVlcDeviceFresh | Plugin/RenderAPI_D3D11.cpp:221-230 | VLC's device and context are resources not held before, and the runtime stays consistent |
| RenderProperties.CreateResourcesKeepsInv | Plugin/RenderAPI_D3D11.cpp:201-251 | Initialize keeps the object's invariant |
| RenderProperties.CreateResourcesSized | Plugin/RenderAPI_D3D11.cpp:249 | a completed Initialize leaves the size at 100x100, both buffers complete at that size and apart, and VLC's device and context held |
| RenderProperties.InitializeHoldsOwnResources | Plugin/RenderAPI_D3D11.cpp:201-251 | after a fault-free Initialize from construction, the object holds exactly VLC's device, its context and the two buffers' resources |
| RenderProperties.ShutdownStep | Plugin/RenderAPI_D3D11.cpp:167-171 | the Shutdown event on a running object is ReleaseResources |
| RenderProperties.ShutdownHoldsNothing | Plugin/RenderAPI_D3D11.cpp:253-281 | Shutdown of a configured object that holds only its own resources leaves nothing held and nothing released twice |
| RenderProperties.InitializeThenShutdownHoldsNothing | Plugin/RenderAPI_D3D11.cpp:143-171 | construction, a fault-free Initialize, then Shutdown: nothing is held any more and nothing was released twice |
| RenderProperties.UpdateUnconfigured | Plugin/RenderAPI_D3D11.cpp:183-191 | Update before Initialize or after Shutdown crashes on the null front buffer |
| RenderProperties.UpdateKeepsInv | Plugin/RenderAPI_D3D11.cpp:183-199 | Update keeps the invariant |
| RenderProperties.ReleaseResourcesKeepsInv | Plugin/RenderAPI_D3D11.cpp:253-281 | Shutdown keeps the invariant |
| RenderProperties.StepKeepsInv | Plugin/RenderAPI_D3D11.cpp:137-181 | every entry point keeps the invariant |
| RenderProperties.RunKeepsInv | Plugin/RenderAPI_D3D11.cpp:137-493 | any sequence of calls keeps the invariant |
| RenderProperties.Reachable | Plugin/RenderAPI_D3D11.cpp:183-199 | from construction, whatever the calls, no resource is released twice, and while running the two buffers are disjoint, complete and of the same current size |
| RenderProperties.FrameViewHeld | Plugin/RenderAPI_D3D11.cpp:486-493 | the shader view getVideoFrame hands to Unity is still held, or null |
| RenderProperties.SetupContextHeld | Plugin/RenderAPI_D3D11.cpp:455-459 | with the corrected shutdown, the context Setup hands to VLC is still held, or null before Initialize or after Shutdown |
| RenderProperties.ReleaseBufferTwice | Plugin/RenderAPI_D3D11.cpp:283-308 | a second ReleaseBuffer on the same buffer releases nothing |
| RenderProperties.SwapTwice | Plugin/RenderAPI_D3D11.cpp:424-431 | two swaps restore front and back |
| RenderProperties.StepUpdated | Plugin/RenderAPI_D3D11.cpp:424-431 | after one call `m_updated` is set exactly when it was set before or the call was a completed Swap |
| RenderProperties.UpdatedIffSwapped | Plugin/RenderAPI_D3D11.cpp:79 | `m_updated` is set exactly when it was set at the start or some completed Swap occurred |
| RenderProperties.FrameUpdatedIffSwapped | Plugin/RenderAPI_D3D11.cpp:486-493 | getVideoFrame reports false until the first Swap and true after it |
| RenderProperties.RenderAfterShutdownCrashes | Plugin/RenderAPI_D3D11.cpp:439-451 | after the corrected Shutdown, StartRendering, SelectPlane(0) and getVideoFrame dereference a null pointer |
| RenderProperties.ShutdownTwiceAsWritten | Plugin/RenderAPI_D3D11.cpp:276-280 | as written, a second shutdown of a configured object releases VLC's context a second time |
| RenderProperties.ContextAfterShutdownAsWritten | Plugin/RenderAPI_D3D11.cpp:276-280 | as written, after Shutdown the context pointer still names the released context: Setup (line 457) hands it to VLC and Swap (line 427) flushes through it |
| RenderProperties.CreateTextureFailureAsWritten | Plugin/RenderAPI_D3D11.cpp:328-344 | as written, a failed CreateTexture2D leads to a call through the null texture; as intended it aborts |

## Left out

- The Direct3D 11, DXGI and COM calls themselves are foreign code. Each is modelled as acquiring or
  releasing an opaque handle, and the caller says which calls fail. Reference counting is not
  modelled, so a `Release` is taken to end the resource. `OMSetRenderTargets` and
  `ClearRenderTargetView` become the `boundTarget` and `cleared` fields. `Flush` (line 427) is
  modelled only as the crash it causes on a null VLC context; no field records that it ran.
- The critical sections `m_outputLock` and `m_sizeLock`, and all concurrency. Every member is one
  atomic step. In particular, `getVideoFrame` reads `m_frontBuffer` after leaving the lock (lines
  491-492). Because each call is atomic, the model cannot show a `Swap` racing with that read.
- The C-style callback trampolines, `CreateRenderAPI_D3D11` and `setVlcContext` (lines 85-135). They
  only forward calls.
- How `ProcessDeviceEvent` looks up `IUnityGraphicsD3D11`, the device and the immediate context
  (lines 145-163). Each arrives as an optional handle on the `Initialize` event.
- The multithread-protection query (lines 239-247). It is best-effort and leaves no state the rest
  of the code reads.
- The critical-section initialisation in `CreateResources` (lines 207-210). Before the first
  Initialize, `Resize`, `Update`, `Swap` and `getVideoFrame` enter critical sections that were
  never initialised (lines 470, 186, 426, 488). The model assumes Initialize comes first in that respect: it lets `Resize`
  run normally from the constructed state and report 0x0.
- `Cleanup` (lines 461-464). Its body is empty.
- `DEBUG` logging, `DebugInUnity`, the floating-point clear colour (line 437) and the unused
  `BORDER_*` macros (lines 23-26). Clearing is recorded without a colour.
- The texture description of `InitBuffer` (lines 316-326) is kept only as the texture's size. The
  view descriptions are not modelled.
- The colour constants of `UpdateOutput` are enumerations with one value each. The `hdr10` argument
  of `StartRendering` and the `cfg` argument of `Setup` are not read by the code and are not
  modelled.
- RenderModel.CreateResources: `new TextureBuffer` replaces whatever the pointers held before
  without releasing it, and lines 221-230 overwrite `m_d3deviceVLC` and `m_d3dctxVLC` the same way
  (RenderModel.CreateVlcDevice keeps that too). A second Initialize without a Shutdown in between
  therefore leaks the old buffers' resources and the old VLC device and context. The model keeps
  this behaviour. The invariant does not claim that the live set equals what the object points
  to, only that what it points to is live.
- Integer widths: `m_width` and `m_height` are `unsigned`, modelled as the newtype `u32` over
  [0, 2^32). The size is only copied, never computed, so nothing wraps.

## Findings

| source | as written | input that shows it | evidently intended | confidence | as-written member | corrected member |
|---|---|---|---|---|---|---|
| Plugin/RenderAPI_D3D11.cpp:279 | the block that releases `m_d3dctxVLC` then nulls `m_d3deviceVLC`, so the context pointer keeps its released value | Initialize, then Shutdown twice: the second Shutdown releases VLC's device context again | null `m_d3dctxVLC`, so a second Shutdown releases nothing; as written the stale pointer also reaches Setup and Swap (ContextAfterShutdownAsWritten); StartRendering and SelectPlane crash on the null back buffer first | not executed | RenderProperties.ShutdownTwiceAsWritten | RenderProperties.ReleaseResourcesIdempotent |
| Plugin/RenderAPI_D3D11.cpp:328-340 | a failed `CreateTexture2D` is only logged, and line 340 then calls `QueryInterface` through the null `m_textureUnity` | Update with CreateTexture2D failing on the Unity device | abort() like every other fatal call in `InitBuffer` | not executed | RenderProperties.CreateTextureFailureAsWritten | RenderModel.InitTexture |
