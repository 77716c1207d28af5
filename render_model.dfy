/** The behaviour of the Direct3D 11 render back end of the Unity plug-in
    (class `RenderAPI_D3D11` and its `TextureBuffer`s), one function per member,
    over a value `State` that holds every field of the object together with the
    driver state it can observe. Direct3D calls become handle acquisitions and
    releases on a `Driver.Runtime`; which of them fail is an input. */
module RenderModel {
  import opened Driver

  /** SCREEN_WIDTH and SCREEN_HEIGHT: the size the buffers get when the device is created. */
  const ScreenWidth: u32 := 100
  const ScreenHeight: u32 := 100

  /** The identity of a size-report function pointer handed over by the decoder. */
  type Callback = nat
  /** The decoder's `void *report_opaque`. */
  type Opaque = nat

  /** One `TextureBuffer`: the Unity-side texture, its shader view, the NT handle that
      shares it, and the render-target view VLC writes through. */
  datatype Buffer = Buffer(
    texture: Option<Handle>,
    shaderView: Option<Handle>,
    sharedHandle: Option<Handle>,
    renderTarget: Option<Handle>)

  const EmptyBuffer: Buffer := Buffer(None, None, None, None)

  /** The Direct3D / DXGI calls whose failure the code reacts to. */
  datatype D3DCall =
    | CreateDevice        // D3D11CreateDevice for the VLC side
    | CreateTexture       // CreateTexture2D on the Unity device
    | QueryResource       // QueryInterface for IDXGIResource1
    | CreateSharedHandle  // IDXGIResource1::CreateSharedHandle
    | QueryDevice1        // QueryInterface for ID3D11Device1 on the VLC device
    | OpenSharedResource  // ID3D11Device1::OpenSharedResource1
    | CreateShaderView    // CreateShaderResourceView
    | CreateRenderTarget  // CreateRenderTargetView

  /** InitBuffer completes: the Unity texture is created and no fatal call fails (a failed view
      creation only leaves that view null). */
  predicate InitSucceeds(fails: set<D3DCall>)
  {
    CreateTexture !in fails && NoFatal(fails)
  }

  /** None of the calls after whose failure InitBuffer calls abort() fails. */
  predicate NoFatal(fails: set<D3DCall>)
  {
    QueryResource !in fails && CreateSharedHandle !in fails && QueryDevice1 !in fails && OpenSharedResource !in fails
  }

  /** The pointer a crashing call dereferences while it is null. */
  datatype NullPointer = NullBuffer | NullTexture | NullUnityDevice | NullVlcDevice | NullVlcContext

  /** A process that aborted or dereferenced a null pointer runs nothing further. */
  datatype Status = Running | Aborted(call: D3DCall) | Crashed(pointer: NullPointer)

  /** Which calls fail while the front and while the back buffer is initialised. */
  datatype Faults = Faults(front: set<D3DCall>, back: set<D3DCall>)

  const NoFaults: Faults := Faults({}, {})

  /** One invocation of the decoder's size-report callback. */
  datatype Report = Report(callback: Callback, data: Opaque, width: u32, height: u32)

  datatype SurfaceFormat = R8G8B8A8Unorm
  datatype ColorSpace = ColorSpaceBT709
  datatype Primaries = PrimariesBT709
  datatype Transfer = TransferLinear

  /** What `UpdateOutput` writes to `libvlc_video_output_cfg_t`. */
  datatype OutputFormat = OutputFormat(
    surface: SurfaceFormat, fullRange: bool, colorspace: ColorSpace, primaries: Primaries, transfer: Transfer)

  const RenderFormat: OutputFormat :=
    OutputFormat(R8G8B8A8Unorm, true, ColorSpaceBT709, PrimariesBT709, TransferLinear)

  datatype Slot = Front | Back

  function Other(slot: Slot): Slot
  {
    if slot == Front then Back else Front
  }

  /** The fields of `RenderAPI_D3D11` (buffers as values, `None` for nullptr), plus the driver
      state (`gpu`), the render target bound on the VLC context, the render targets cleared on it,
      the size reports delivered to the decoder, and whether the process is still running. */
  datatype State = State(
    gpu: Runtime,
    unityDevice: Option<Handle>,
    unityContext: Option<Handle>,
    vlcDevice: Option<Handle>,
    vlcContext: Option<Handle>,
    front: Option<Buffer>,
    back: Option<Buffer>,
    width: u32,
    height: u32,
    reportSize: Option<Callback>,
    reportOpaque: Opaque,
    updated: bool,
    boundTarget: Option<Handle>,
    cleared: seq<Option<Handle>>,
    reports: seq<Report>,
    status: Status)
  {
    function Get(slot: Slot): Option<Buffer>
    {
      if slot == Front then front else back
    }

    function Put(slot: Slot, b: Buffer): State
    {
      if slot == Front then this.(front := Some(b)) else this.(back := Some(b))
    }
  }

  /** A freshly constructed object: every pointer null, size 0x0, no frame yet. */
  function Init(): (r: State)
    ensures Inv(r) && Unconfigured(r) && r.status.Running? && !r.updated && r.reportSize.None?
    ensures r.gpu.live == {} && r.gpu.released == []
  {
    State(Fresh, None, None, None, None, None, None, 0, 0, None, 0, false, None, [], [], Running)
  }

  /** Only the driver, the two buffer pointers and the status may differ. */
  predicate OnlyBuffersChange(s: State, r: State)
  {
    r == s.(gpu := r.gpu, front := r.front, back := r.back, status := r.status)
  }

  // ---------------------------------------------------------------------------
  // Handles held by a buffer

  function Opt(h: Option<Handle>): set<Handle>
  {
    if h.Some? then {h.value} else {}
  }

  function OptSeq(h: Option<Handle>): seq<Handle>
  {
    if h.Some? then [h.value] else []
  }

  function Handles(b: Buffer): set<Handle>
  {
    Opt(b.texture) + Opt(b.shaderView) + Opt(b.sharedHandle) + Opt(b.renderTarget)
  }

  /** The order in which ReleaseBuffer gives the buffer's resources back. */
  function ReleaseOrder(b: Buffer): seq<Handle>
  {
    OptSeq(b.renderTarget) + OptSeq(b.shaderView) + OptSeq(b.texture) + OptSeq(b.sharedHandle)
  }

  predicate Differ(a: Option<Handle>, b: Option<Handle>)
  {
    a.Some? && b.Some? ==> a.value != b.value
  }

  /** The buffer holds each of its resources, and no two fields name the same one. */
  predicate Owns(g: Runtime, b: Buffer)
  {
    && Handles(b) <= g.live
    && Differ(b.renderTarget, b.shaderView) && Differ(b.renderTarget, b.texture)
    && Differ(b.renderTarget, b.sharedHandle) && Differ(b.shaderView, b.texture)
    && Differ(b.shaderView, b.sharedHandle) && Differ(b.texture, b.sharedHandle)
  }

  predicate Within(h: Option<Handle>, lo: nat, hi: nat)
  {
    h.Some? ==> lo <= h.value < hi
  }

  /** Every resource of the buffer was handed out while the driver's counter ran from `lo` to `hi`. */
  predicate AllWithin(b: Buffer, lo: nat, hi: nat)
  {
    && Within(b.texture, lo, hi) && Within(b.shaderView, lo, hi)
    && Within(b.sharedHandle, lo, hi) && Within(b.renderTarget, lo, hi)
  }

  predicate Holds(g: Runtime, h: Option<Handle>, k: Kind)
  {
    h.Some? ==> h.value in g.live && h.value in g.kind && g.kind[h.value] == k
  }

  /** An initialised buffer of the given size: texture and shared handle present, views present
      unless their creation failed, every resource held and of the right kind. */
  predicate Ready(g: Runtime, b: Buffer, size: Size)
  {
    && b.texture.Some? && b.sharedHandle.Some?
    && Holds(g, b.texture, Texture(size)) && Holds(g, b.sharedHandle, SharedHandle)
    && Holds(g, b.shaderView, ShaderView) && Holds(g, b.renderTarget, RenderTargetView)
  }

  // ---------------------------------------------------------------------------
  // ReleaseBuffer

  function ReleaseIfSet(g: Runtime, h: Option<Handle>): (r: Runtime)
    ensures r.live == g.live - Opt(h) && r.released == g.released + OptSeq(h)
    ensures r.next == g.next && r.kind == g.kind
    ensures WellFormed(g) && NoDoubleRelease(g) && Opt(h) <= g.live ==> WellFormed(r) && NoDoubleRelease(r)
  {
    if h.Some? then Release(g, h.value) else g
  }

  /** The four guarded releases of ReleaseBuffer: render target, shader view, texture, then
      CloseHandle on the shared handle; each only when non-null. */
  function ReleaseHandles(g: Runtime, b: Buffer): (r: Runtime)
    ensures r.live == g.live - Handles(b)
    ensures r.released == g.released + ReleaseOrder(b)
    ensures r.next == g.next && r.kind == g.kind
    ensures WellFormed(g) && NoDoubleRelease(g) && Owns(g, b) ==> WellFormed(r) && NoDoubleRelease(r)
  {
    var g1 := ReleaseIfSet(g, b.renderTarget);
    var g2 := ReleaseIfSet(g1, b.shaderView);
    var g3 := ReleaseIfSet(g2, b.texture);
    ReleaseIfSet(g3, b.sharedHandle)
  }

  /** ReleaseBuffer(buffer) on the front or back buffer pointer. */
  function ReleaseBuffer(s: State, slot: Slot): (r: State)
    requires s.status.Running?
    ensures OnlyBuffersChange(s, r) && r.Get(Other(slot)) == s.Get(Other(slot))
    ensures s.Get(slot).None? ==> r == s.(status := Crashed(NullBuffer))
    ensures s.Get(slot).Some? ==>
      && r.status.Running? && r.Get(slot) == Some(EmptyBuffer)
      && r.gpu.live == s.gpu.live - Handles(s.Get(slot).value)
      && r.gpu.released == s.gpu.released + ReleaseOrder(s.Get(slot).value)
      && r.gpu.next == s.gpu.next && r.gpu.kind == s.gpu.kind
  {
    match s.Get(slot)
    case None => s.(status := Crashed(NullBuffer))
    case Some(b) => s.(gpu := ReleaseHandles(s.gpu, b)).Put(slot, EmptyBuffer)
  }

  // ---------------------------------------------------------------------------
  // InitBuffer

  /** A creation call that may fail without aborting: on failure the field stays null. */
  function AcquireUnless(g: Runtime, k: Kind, fails: bool): (r: (Runtime, Option<Handle>))
    ensures fails ==> r == (g, None)
    ensures !fails ==> r.1.Some? && r.1.value >= g.next && r.0.live == g.live + {r.1.value}
    ensures !fails ==> r.1.value in r.0.kind && r.0.kind[r.1.value] == k
    ensures r.0.released == g.released && g.next <= r.0.next
    ensures WellFormed(g) ==> WellFormed(r.0) && KindsKept(g, r.0) && (r.1.Some? ==> r.1.value !in g.live)
    ensures WellFormed(g) && NoDoubleRelease(g) ==> NoDoubleRelease(r.0)
  {
    if fails then (g, None)
    else
      var (g1, h) := Acquire(g, k);
      (g1, Some(h))
  }

  /** Lines 377-403: the shader view over the Unity texture and the render-target view over the
      VLC-side texture (each left null if its creation fails), then the VLC-side texture is released. */
  function CreateViews(g: Runtime, textureVlc: Handle, fails: set<D3DCall>): (r: (Runtime, Option<Handle>, Option<Handle>))
    ensures r.1.Some? <==> CreateShaderView !in fails
    ensures r.2.Some? <==> CreateRenderTarget !in fails
    ensures g.next <= r.0.next
    ensures WellFormed(g) && NoDoubleRelease(g) && textureVlc in g.live ==>
      && WellFormed(r.0) && NoDoubleRelease(r.0) && KindsKept(g, r.0)
      && Holds(r.0, r.1, ShaderView) && Holds(r.0, r.2, RenderTargetView) && Differ(r.1, r.2)
      && r.0.live == g.live - {textureVlc} + Opt(r.1) + Opt(r.2)
      && Within(r.1, g.next, r.0.next) && Within(r.2, g.next, r.0.next)
  {
    var (g1, view) := AcquireUnless(g, ShaderView, CreateShaderView in fails);
    var (g2, target) := AcquireUnless(g1, RenderTargetView, CreateRenderTarget in fails);
    (Release(g2, textureVlc), view, target)
  }

  /** What one InitBuffer call leaves behind: the driver, the buffer, and whether the process lives. */
  datatype BufferInit = BufferInit(gpu: Runtime, buffer: Buffer, status: Status)

  /** Lines 366-403: open the shared texture through the ID3D11Device1 interface `device1`, drop
      that interface, create both views, drop the VLC-side texture. */
  function OpenShared(g: Runtime, b: Buffer, device1: Handle, size: Size, fails: set<D3DCall>): (r: BufferInit)
    ensures r.status.Running? <==> OpenSharedResource !in fails
    ensures !r.status.Running? ==> r.status == Aborted(OpenSharedResource)
    ensures WellFormed(g) && NoDoubleRelease(g) && device1 in g.live ==>
      && WellFormed(r.gpu) && NoDoubleRelease(r.gpu) && KindsKept(g, r.gpu) && g.next <= r.gpu.next
    ensures WellFormed(g) && NoDoubleRelease(g) && device1 in g.live && r.status.Running? ==>
      && r.buffer == b.(shaderView := r.buffer.shaderView, renderTarget := r.buffer.renderTarget)
      && Holds(r.gpu, r.buffer.shaderView, ShaderView) && Holds(r.gpu, r.buffer.renderTarget, RenderTargetView)
      && (r.buffer.shaderView.Some? <==> CreateShaderView !in fails)
      && (r.buffer.renderTarget.Some? <==> CreateRenderTarget !in fails)
      && Differ(r.buffer.shaderView, r.buffer.renderTarget)
      && r.gpu.live == g.live - {device1} + Opt(r.buffer.shaderView) + Opt(r.buffer.renderTarget)
      && Within(r.buffer.shaderView, g.next, r.gpu.next) && Within(r.buffer.renderTarget, g.next, r.gpu.next)
  {
    if OpenSharedResource in fails then BufferInit(g, b, Aborted(OpenSharedResource))
    else
      var (g1, textureVlc) := Acquire(g, Texture(size));
      var g2 := Release(g1, device1);
      var (g3, view, target) := CreateViews(g2, textureVlc, fails);
      BufferInit(g3, b.(shaderView := view, renderTarget := target), Running)
  }

  /** Lines 357-403: query ID3D11Device1 on the VLC device, then open the shared texture on it. */
  function OpenOnVlcDevice(g: Runtime, b: Buffer, vlcDevice: Option<Handle>, size: Size, fails: set<D3DCall>): (r: BufferInit)
    ensures r.status.Running? <==> vlcDevice.Some? && QueryDevice1 !in fails && OpenSharedResource !in fails
    ensures r.status.Aborted? ==> r.status.call in fails
    ensures r.status.Crashed? ==> r.status == Crashed(NullVlcDevice)
    ensures WellFormed(g) && NoDoubleRelease(g) ==>
      && WellFormed(r.gpu) && NoDoubleRelease(r.gpu) && KindsKept(g, r.gpu) && g.next <= r.gpu.next
  {
    if vlcDevice.None? then BufferInit(g, b, Crashed(NullVlcDevice))
    else if QueryDevice1 in fails then BufferInit(g, b, Aborted(QueryDevice1))
    else
      var (g1, device1) := Acquire(g, Interface);
      OpenShared(g1, b, device1, size, fails)
  }

  /** Lines 338-403 from the texture on: query IDXGIResource1 on it, export the NT shared handle,
      then open it on the VLC device. */
  function ShareTexture(g: Runtime, b: Buffer, vlcDevice: Option<Handle>, size: Size, fails: set<D3DCall>): (r: BufferInit)
    ensures r.status.Running? <==> b.texture.Some? && vlcDevice.Some? && NoFatal(fails)
    ensures r.status.Aborted? ==> r.status.call in fails
    ensures r.status == Crashed(NullTexture) <==> b.texture.None?
    ensures r.status.Crashed? ==> r.status == Crashed(NullTexture) || r.status == Crashed(NullVlcDevice)
    ensures WellFormed(g) && NoDoubleRelease(g) ==>
      && WellFormed(r.gpu) && NoDoubleRelease(r.gpu) && KindsKept(g, r.gpu) && g.next <= r.gpu.next
  {
    if b.texture.None? then BufferInit(g, b, Crashed(NullTexture))
    else if QueryResource in fails then BufferInit(g, b, Aborted(QueryResource))
    else
      var (g1, resource) := Acquire(g, Interface);
      if CreateSharedHandle in fails then BufferInit(g1, b, Aborted(CreateSharedHandle))
      else
        var (g2, shared) := Acquire(g1, SharedHandle);
        var g3 := Release(g2, resource);
        assert WellFormed(g) && NoDoubleRelease(g) ==> WellFormed(g3) && NoDoubleRelease(g3) && KindsKept(g, g3);
        OpenOnVlcDevice(g3, b.(sharedHandle := Some(shared)), vlcDevice, size, fails)
  }

  /** InitBuffer on one buffer, as it should be: a failed CreateTexture2D aborts like the other
      fatal calls instead of being dereferenced. */
  function InitTexture(g: Runtime, b: Buffer, unityDevice: Option<Handle>, vlcDevice: Option<Handle>,
                       size: Size, fails: set<D3DCall>): (r: BufferInit)
    ensures r.status.Running? <==>
      unityDevice.Some? && vlcDevice.Some? && CreateTexture !in fails && NoFatal(fails)
    ensures r.status != Crashed(NullTexture)
    ensures r.status.Aborted? ==> r.status.call in fails
    ensures WellFormed(g) && NoDoubleRelease(g) ==>
      && WellFormed(r.gpu) && NoDoubleRelease(r.gpu) && KindsKept(g, r.gpu) && g.next <= r.gpu.next
  {
    if unityDevice.None? then BufferInit(g, b, Crashed(NullUnityDevice))
    else if CreateTexture in fails then BufferInit(g, b, Aborted(CreateTexture))
    else
      var (g1, texture) := Acquire(g, Texture(size));
      ShareTexture(g1, b.(texture := Some(texture)), vlcDevice, size, fails)
  }

  /** InitBuffer on one buffer as written (lines 328-340): a failed CreateTexture2D is only logged,
      and the next statement calls QueryInterface through the null texture pointer. */
  function InitTextureAsWritten(g: Runtime, b: Buffer, unityDevice: Option<Handle>, vlcDevice: Option<Handle>,
                                size: Size, fails: set<D3DCall>): (r: BufferInit)
    ensures unityDevice.Some? && CreateTexture in fails ==> r.status == Crashed(NullTexture)
    ensures !(unityDevice.Some? && CreateTexture in fails) ==> r == InitTexture(g, b, unityDevice, vlcDevice, size, fails)
  {
    if unityDevice.Some? && CreateTexture in fails then
      ShareTexture(g, b.(texture := None), vlcDevice, size, fails)
    else
      InitTexture(g, b, unityDevice, vlcDevice, size, fails)
  }

  /** InitBuffer(buffer) on the front or back buffer, at the current m_width x m_height. */
  function InitBuffer(s: State, slot: Slot, fails: set<D3DCall>): (r: State)
    requires s.status.Running? && s.Get(slot).Some?
    ensures OnlyBuffersChange(s, r) && r.Get(Other(slot)) == s.Get(Other(slot)) && r.Get(slot).Some?
  {
    var o := InitTexture(s.gpu, s.Get(slot).value, s.unityDevice, s.vlcDevice, Size(s.width, s.height), fails);
    s.(gpu := o.gpu, status := o.status).Put(slot, o.buffer)
  }

  // ---------------------------------------------------------------------------
  // The object's invariant

  /** No VLC-side device and no buffers: before the first Initialize and after Shutdown. */
  predicate Unconfigured(s: State)
  {
    s.front.None? && s.back.None? && s.vlcDevice.None? && s.vlcContext.None?
  }

  /** Both devices and both buffers exist; every resource the object points to is held, VLC's
      device and context are of their kinds, and the two buffers share no resource. */
  predicate Configured(s: State)
  {
    && s.unityDevice.Some? && s.vlcDevice.Some? && s.vlcContext.Some? && s.front.Some? && s.back.Some?
    && Holds(s.gpu, s.vlcDevice, Device) && Holds(s.gpu, s.vlcContext, DeviceContext)
    && Handles(s.front.value) !! Handles(s.back.value)
  }

  /** Both buffers are complete textures of the current m_width x m_height. */
  predicate Sized(s: State)
    requires s.front.Some? && s.back.Some?
  {
    Ready(s.gpu, s.front.value, Size(s.width, s.height)) && Ready(s.gpu, s.back.value, Size(s.width, s.height))
  }

  /** What holds of every state the object can reach: nothing was ever released twice and, while
      the process runs, the object is either unconfigured or fully configured at its current size. */
  predicate Inv(s: State)
  {
    && WellFormed(s.gpu) && NoDoubleRelease(s.gpu)
    && (s.status.Running? ==> Unconfigured(s) || (Configured(s) && Sized(s)))
  }

  // ---------------------------------------------------------------------------
  // Resource lifecycle

  /** Update(width, height): record the new size, release both buffers, then initialise both
      again. Any step that crashes or aborts ends the process there. */
  function Update(s: State, width: u32, height: u32, faults: Faults): (r: State)
    requires s.status.Running?
    ensures OnlyBuffersChange(s.(width := width, height := height), r)
  {
    var s1 := s.(width := width, height := height);
    var s2 := ReleaseBuffer(s1, Front);
    if !s2.status.Running? then s2 else
    var s3 := ReleaseBuffer(s2, Back);
    if !s3.status.Running? then s3 else
    var s4 := InitBuffer(s3, Front, faults.front);
    if !s4.status.Running? then s4 else
    InitBuffer(s4, Back, faults.back)
  }

  /** Lines 221-237: D3D11CreateDevice creates VLC's own device and its immediate context;
      abort() if it fails. */
  function CreateVlcDevice(s: State, createFails: bool): (r: State)
    requires s.status.Running?
    ensures createFails ==> r == s.(status := Aborted(CreateDevice))
    ensures !createFails ==>
      && r == s.(gpu := r.gpu, vlcDevice := r.vlcDevice, vlcContext := r.vlcContext)
      && r.vlcDevice.Some? && r.vlcContext.Some?
      && Holds(r.gpu, r.vlcDevice, Device) && Holds(r.gpu, r.vlcContext, DeviceContext)
      && r.gpu.live == s.gpu.live + {r.vlcDevice.value, r.vlcContext.value}
  {
    if createFails then s.(status := Aborted(CreateDevice))
    else
      var (g1, vlcDevice) := Acquire(s.gpu, Device);
      var (g2, vlcContext) := Acquire(g1, DeviceContext);
      s.(gpu := g2, vlcDevice := Some(vlcDevice), vlcContext := Some(vlcContext))
  }

  /** The first part of CreateResources: keep Unity's device and context and point both buffer
      pointers at new, empty TextureBuffers (whatever they held before is dropped unreleased). */
  function NewBuffers(s: State, device: Handle, context: Handle): (r: State)
    ensures r.front == Some(EmptyBuffer) && r.back == Some(EmptyBuffer)
    ensures r == s.(unityDevice := Some(device), unityContext := Some(context), front := r.front, back := r.back)
  {
    s.(unityDevice := Some(device), unityContext := Some(context), front := Some(EmptyBuffer), back := Some(EmptyBuffer))
  }

  /** CreateResources(device, context): keep Unity's device and context, allocate two empty
      buffers, create VLC's own device and context, then Update(100, 100). */
  function CreateResources(s: State, device: Handle, context: Handle, createFails: bool, faults: Faults): (r: State)
    requires s.status.Running?
    ensures r.unityDevice == Some(device) && r.unityContext == Some(context)
    ensures createFails ==> r.status == Aborted(CreateDevice) && r.gpu == s.gpu
    ensures r == s.(gpu := r.gpu, unityDevice := r.unityDevice, unityContext := r.unityContext,
                    vlcDevice := r.vlcDevice, vlcContext := r.vlcContext, front := r.front, back := r.back,
                    width := r.width, height := r.height, status := r.status)
  {
    var s1 := NewBuffers(s, device, context);
    var s2 := CreateVlcDevice(s1, createFails);
    if !s2.status.Running? then s2 else Update(s2, ScreenWidth, ScreenHeight, faults)
  }

  /** One guarded block of ReleaseResources: if the pointer is set, ReleaseBuffer on it, delete
      the TextureBuffer and null the pointer. */
  function DeleteBuffer(s: State, slot: Slot): (r: State)
    ensures r.Get(slot).None? && r.Get(Other(slot)) == s.Get(Other(slot))
    ensures s.Get(slot).Some? ==> r.gpu.live == s.gpu.live - Handles(s.Get(slot).value)
    ensures s.Get(slot).None? ==> r == s
    ensures r == s.(gpu := r.gpu, front := r.front, back := r.back)
  {
    match s.Get(slot)
    case None => s
    case Some(b) =>
      var s1 := s.(gpu := ReleaseHandles(s.gpu, b));
      if slot == Front then s1.(front := None) else s1.(back := None)
  }

  /** The guarded block that releases VLC's device and nulls its pointer. */
  function ReleaseVlcDevice(s: State): (r: State)
    ensures r.vlcDevice.None? && r == s.(gpu := r.gpu, vlcDevice := None)
  {
    if s.vlcDevice.Some? then s.(gpu := Release(s.gpu, s.vlcDevice.value), vlcDevice := None) else s
  }

  /** The first three guarded blocks of ReleaseResources: both buffers, then VLC's device. */
  function ReleaseBuffersAndDevice(s: State): (r: State)
    ensures r.front.None? && r.back.None? && r.vlcDevice.None?
    ensures r == s.(gpu := r.gpu, front := None, back := None, vlcDevice := None)
  {
    ReleaseVlcDevice(DeleteBuffer(DeleteBuffer(s, Front), Back))
  }

  /** The last guarded block as it should be: release VLC's context and null its pointer. */
  function ReleaseVlcContext(s: State): (r: State)
    ensures r.vlcContext.None? && r == s.(gpu := r.gpu, vlcContext := None)
  {
    if s.vlcContext.Some? then s.(gpu := Release(s.gpu, s.vlcContext.value), vlcContext := None) else s
  }

  /** ReleaseResources as it should be: the last block nulls the context it just released. */
  function ReleaseResources(s: State): (r: State)
    ensures r.front.None? && r.back.None? && r.vlcDevice.None? && r.vlcContext.None?
    ensures r == s.(gpu := r.gpu, front := None, back := None, vlcDevice := None, vlcContext := None)
  {
    ReleaseVlcContext(ReleaseBuffersAndDevice(s))
  }

  /** ReleaseResources as written (line 279): after releasing m_d3dctxVLC it nulls m_d3deviceVLC,
      so the context pointer keeps its released value. */
  function ReleaseResourcesAsWritten(s: State): (r: State)
    ensures r.front.None? && r.back.None? && r.vlcDevice.None? && r.vlcContext == s.vlcContext
  {
    var s3 := ReleaseBuffersAndDevice(s);
    if s3.vlcContext.Some? then s3.(gpu := Release(s3.gpu, s3.vlcContext.value), vlcDevice := None) else s3
  }

  // ---------------------------------------------------------------------------
  // Frame handoff

  /** Swap: flush the VLC context, exchange the buffer pointers, note that a frame arrived. */
  function Swap(s: State): (r: State)
    requires s.status.Running?
    ensures s.vlcContext.None? <==> r.status == Crashed(NullVlcContext)
    ensures s.vlcContext.Some? ==> r.front == s.back && r.back == s.front && r.updated
    ensures s.vlcContext.Some? ==> r.(front := s.front, back := s.back, updated := s.updated) == s
  {
    if s.vlcContext.None? then s.(status := Crashed(NullVlcContext))
    else s.(front := s.back, back := s.front, updated := true)
  }

  /** What getVideoFrame hands to Unity: the front buffer's shader view, and the flag. */
  datatype Frame = Frame(view: Option<Handle>, updated: bool)

  /** getVideoFrame: read m_updated (without clearing it), then the front buffer's shader view. */
  function GetVideoFrame(s: State): (r: (State, Frame))
    requires s.status.Running?
    ensures r.1.updated == s.updated
    ensures s.front.Some? ==> r.0 == s && r.1.view == s.front.value.shaderView
    ensures s.front.None? ==> r.0 == s.(status := Crashed(NullBuffer))
  {
    if s.front.None? then (s.(status := Crashed(NullBuffer)), Frame(None, s.updated))
    else (s, Frame(s.front.value.shaderView, s.updated))
  }

  // ---------------------------------------------------------------------------
  // Decoder callbacks

  /** UpdateOutput(cfg, out): resize to the decoder's size and report the one fixed format. */
  function UpdateOutput(s: State, width: u32, height: u32, faults: Faults): (r: (State, bool, OutputFormat))
    requires s.status.Running?
    ensures r.1 && r.2 == RenderFormat
    ensures r.0.width == width && r.0.height == height
    ensures r.0 == Update(s, width, height, faults)
  {
    (Update(s, width, height, faults), true, RenderFormat)
  }

  /** StartRendering(enter): on entry bind the back buffer's render target on the VLC context and
      clear it to opaque black; true unless the process crashed on the way. */
  function StartRendering(s: State, enter: bool): (r: (State, bool))
    requires s.status.Running?
    ensures r.1 <==> r.0.status.Running?
    ensures !enter ==> r.0 == s
    ensures enter ==> (r.1 <==> s.vlcContext.Some? && s.back.Some?)
    ensures enter && s.vlcContext.None? ==> r.0.status == Crashed(NullVlcContext)
    ensures enter && r.1 ==>
      && s.back.Some?
      && r.0 == s.(boundTarget := s.back.value.renderTarget, cleared := s.cleared + [s.back.value.renderTarget])
  {
    if !enter then (s, true)
    else if s.vlcContext.None? then (s.(status := Crashed(NullVlcContext)), false)
    else if s.back.None? then (s.(status := Crashed(NullBuffer)), false)
    else
      var target := s.back.value.renderTarget;
      (s.(boundTarget := target, cleared := s.cleared + [target]), true)
  }

  /** SelectPlane(plane): only plane 0 of the packed RGBA format exists; for it, bind the back
      buffer's render target on the VLC context. */
  function SelectPlane(s: State, plane: nat): (r: (State, bool))
    requires s.status.Running?
    ensures r.1 <==> plane == 0 && r.0.status.Running?
    ensures plane != 0 ==> r.0 == s
    ensures plane == 0 ==> (r.1 <==> s.vlcContext.Some? && s.back.Some?)
    ensures plane == 0 && s.vlcContext.None? ==> r.0.status == Crashed(NullVlcContext)
    ensures r.1 ==> s.back.Some? && r.0 == s.(boundTarget := s.back.value.renderTarget)
  {
    if plane != 0 then (s, false)
    else if s.vlcContext.None? then (s.(status := Crashed(NullVlcContext)), false)
    else if s.back.None? then (s.(status := Crashed(NullBuffer)), false)
    else (s.(boundTarget := s.back.value.renderTarget), true)
  }

  /** Setup(cfg, out): hand VLC the context it is to render with; always succeeds. */
  function Setup(s: State): (r: (bool, Option<Handle>))
    ensures r.0 && r.1 == s.vlcContext
  {
    (true, s.vlcContext)
  }

  /** Resize(report_size_change, report_opaque): store the callback and its argument and, when
      the callback is not null, report the current size through it once. */
  function Resize(s: State, callback: Option<Callback>, data: Opaque): (r: State)
    ensures r.reportSize == callback && r.reportOpaque == data
    ensures r.reports == s.reports + (if callback.Some? then [Report(callback.value, data, s.width, s.height)] else [])
    ensures r == s.(reportSize := callback, reportOpaque := data, reports := r.reports)
  {
    s.(reportSize := callback, reportOpaque := data,
       reports := if callback.Some? then s.reports + [Report(callback.value, data, s.width, s.height)] else s.reports)
  }

  // ---------------------------------------------------------------------------
  // Device events

  /** Unity's graphics device events. `Initialize` carries what the IUnityGraphicsD3D11 interface
      yields (either may be missing) and the driver's behaviour during the set-up that follows. */
  datatype DeviceEvent =
    | Initialize(device: Option<Handle>, context: Option<Handle>, createFails: bool, faults: Faults)
    | Shutdown
    | BeforeReset
    | AfterReset

  /** ProcessDeviceEvent(type, interfaces). */
  function ProcessDeviceEvent(s: State, event: DeviceEvent): (r: State)
    requires s.status.Running?
    ensures event.Shutdown? ==> r == ReleaseResources(s)
    ensures event.BeforeReset? || event.AfterReset? ==> r == s
    ensures event.Initialize? && (event.device.None? || event.context.None?) ==> r == s
    ensures event.Initialize? && event.device.Some? && event.context.Some? ==>
      r == CreateResources(s, event.device.value, event.context.value, event.createFails, event.faults)
  {
    match event
    case Initialize(device, context, createFails, faults) =>
      if device.None? || context.None? then s
      else CreateResources(s, device.value, context.value, createFails, faults)
    case Shutdown => ReleaseResources(s)
    case BeforeReset => s
    case AfterReset => s
  }

  // ---------------------------------------------------------------------------
  // Arbitrary interleavings of the entry points

  /** One call into the object from Unity or from VLC. */
  datatype Call =
    | OnDeviceEvent(event: DeviceEvent)
    | OnUpdateOutput(width: u32, height: u32, faults: Faults)
    | OnSwap
    | OnStartRendering(enter: bool)
    | OnSelectPlane(plane: nat)
    | OnSetup
    | OnResize(callback: Option<Callback>, data: Opaque)
    | OnGetVideoFrame

  /** The state after one call; a process that has crashed or aborted takes no further calls. */
  function Step(s: State, c: Call): (r: State)
  {
    if !s.status.Running? then s
    else
      match c
      case OnDeviceEvent(event) => ProcessDeviceEvent(s, event)
      case OnUpdateOutput(width, height, faults) => UpdateOutput(s, width, height, faults).0
      case OnSwap => Swap(s)
      case OnStartRendering(enter) => StartRendering(s, enter).0
      case OnSelectPlane(plane) => SelectPlane(s, plane).0
      case OnSetup => s
      case OnResize(callback, data) => Resize(s, callback, data)
      case OnGetVideoFrame => GetVideoFrame(s).0
  }

  function Run(s: State, calls: seq<Call>): (r: State)
    decreases |calls|
  {
    if calls == [] then s else Run(Step(s, calls[0]), calls[1..])
  }
}
