/** The render back end as the object it is: `RenderAPI_D3D11` and its two heap-allocated
    `TextureBuffer`s, updated in place. Each method is proved to move the object's abstract value
    exactly as the matching function of RenderModel moves a `State`, so every property proved in
    RenderProperties holds of the object too. */
module RenderApiD3D11 {
  import opened Driver
  import RenderModel

  type Buffer = RenderModel.Buffer
  type State = RenderModel.State
  type Slot = RenderModel.Slot
  type Status = RenderModel.Status
  type Faults = RenderModel.Faults
  type D3DCall = RenderModel.D3DCall

  /** `struct TextureBuffer`: four nullable resources. */
  class TextureBuffer {
    var texture: Option<Handle>
    var shaderView: Option<Handle>
    var sharedHandle: Option<Handle>
    var renderTarget: Option<Handle>

    function Value(): Buffer
      reads this
    {
      RenderModel.Buffer(texture, shaderView, sharedHandle, renderTarget)
    }

    /** `new TextureBuffer`: every field null. */
    constructor ()
      ensures Value() == RenderModel.EmptyBuffer
    {
      texture, shaderView, sharedHandle, renderTarget := None, None, None, None;
    }
  }

  class RenderApi {
    /** The Direct3D runtime as this object sees it. */
    var gpu: Runtime
    var unityDevice: Option<Handle>
    var unityContext: Option<Handle>
    var vlcDevice: Option<Handle>
    var vlcContext: Option<Handle>
    var front: TextureBuffer?
    var back: TextureBuffer?
    var width: u32
    var height: u32
    var reportSize: Option<RenderModel.Callback>
    var reportOpaque: RenderModel.Opaque
    var updated: bool
    /** The render target last bound on the VLC context, and every one cleared on it. */
    var boundTarget: Option<Handle>
    var cleared: seq<Option<Handle>>
    /** Every call of the decoder's size-report callback, in order. */
    var reports: seq<RenderModel.Report>
    var status: Status

    /** The two buffer pointers never name the same TextureBuffer. */
    predicate Valid()
      reads this
    {
      front != null && back != null ==> front != back
    }

    function BufferValue(b: TextureBuffer?): Option<Buffer>
      reads b
    {
      if b == null then None else Some(b.Value())
    }

    /** The object's value. */
    function Abs(): State
      reads this, front, back
    {
      RenderModel.State(gpu, unityDevice, unityContext, vlcDevice, vlcContext, BufferValue(front), BufferValue(back),
                        width, height, reportSize, reportOpaque, updated, boundTarget, cleared, reports, status)
    }

    /** The buffer pointer `slot` names. */
    function Pointer(slot: Slot): TextureBuffer?
      reads this
    {
      if slot == RenderModel.Front then front else back
    }

    /** The constructor: every pointer null, size 0x0, no frame yet. */
    constructor ()
      ensures Valid() && Abs() == RenderModel.Init()
    {
      gpu := Fresh;
      unityDevice, unityContext, vlcDevice, vlcContext := None, None, None, None;
      front, back := null, null;
      width, height := 0, 0;
      reportSize, reportOpaque := None, 0;
      updated := false;
      boundTarget, cleared, reports := None, [], [];
      status := RenderModel.Running;
    }

    /** ReleaseBuffer(buffer), called with the front or the back buffer pointer. */
    method ReleaseBuffer(buffer: TextureBuffer?, ghost slot: Slot)
      requires Valid() && status.Running? && buffer == Pointer(slot)
      modifies this, buffer
      ensures Valid() && front == old(front) && back == old(back)
      ensures Abs() == RenderModel.ReleaseBuffer(old(Abs()), slot)
    {
      if buffer == null {
        status := RenderModel.Crashed(RenderModel.NullBuffer);
        return;
      }
      // Each guarded block releases its resource when it is set, then nulls the field.
      gpu := RenderModel.ReleaseIfSet(gpu, buffer.renderTarget);
      buffer.renderTarget := None;
      gpu := RenderModel.ReleaseIfSet(gpu, buffer.shaderView);
      buffer.shaderView := None;
      gpu := RenderModel.ReleaseIfSet(gpu, buffer.texture);
      buffer.texture := None;
      gpu := RenderModel.ReleaseIfSet(gpu, buffer.sharedHandle);
      buffer.sharedHandle := None;
    }

    /** Writes the driver, the status and the four fields of the buffer `slot` names. */
    method Store(buffer: TextureBuffer, ghost slot: Slot, g: Runtime, b: Buffer, st: Status)
      requires Valid() && buffer == Pointer(slot)
      modifies this, buffer
      ensures Valid() && front == old(front) && back == old(back)
      ensures Abs() == old(Abs()).(gpu := g, status := st).Put(slot, b)
    {
      gpu, status := g, st;
      buffer.texture, buffer.shaderView := b.texture, b.shaderView;
      buffer.sharedHandle, buffer.renderTarget := b.sharedHandle, b.renderTarget;
    }

    /** InitBuffer(buffer), called with the front or the back buffer pointer, at m_width x m_height.
        `fails` names the Direct3D calls that fail during this call. The steps run on local copies of
        the driver and the buffer, stored back when the call returns or the process ends. */
    method InitBuffer(buffer: TextureBuffer?, ghost slot: Slot, fails: set<D3DCall>)
      requires Valid() && status.Running? && buffer == Pointer(slot) && buffer != null
      modifies this, buffer
      ensures Valid() && front == old(front) && back == old(back)
      ensures Abs() == RenderModel.InitBuffer(old(Abs()), slot, fails)
    {
      var size := Size(width, height);
      var g, b := gpu, buffer.Value();
      ghost var spec := RenderModel.InitTexture(g, b, unityDevice, vlcDevice, size, fails);
      // CreateTexture2D on the Unity device
      if unityDevice.None? {
        Store(buffer, slot, g, b, RenderModel.Crashed(RenderModel.NullUnityDevice));
        return;
      }
      if RenderModel.CreateTexture in fails {
        Store(buffer, slot, g, b, RenderModel.Aborted(RenderModel.CreateTexture));
        return;
      }
      var (g1, texture) := Acquire(g, Texture(size));
      g, b := g1, b.(texture := Some(texture));
      assert spec == RenderModel.ShareTexture(g, b, vlcDevice, size, fails);
      // QueryInterface for IDXGIResource1, then CreateSharedHandle
      if RenderModel.QueryResource in fails {
        Store(buffer, slot, g, b, RenderModel.Aborted(RenderModel.QueryResource));
        return;
      }
      var (g2, resource) := Acquire(g, Interface);
      if RenderModel.CreateSharedHandle in fails {
        Store(buffer, slot, g2, b, RenderModel.Aborted(RenderModel.CreateSharedHandle));
        return;
      }
      var (g3, shared) := Acquire(g2, SharedHandle);
      g := Release(g3, resource);
      b := b.(sharedHandle := Some(shared));
      assert spec == RenderModel.OpenOnVlcDevice(g, b, vlcDevice, size, fails);
      // QueryInterface for ID3D11Device1 on the VLC device, then OpenSharedResource1
      if vlcDevice.None? {
        Store(buffer, slot, g, b, RenderModel.Crashed(RenderModel.NullVlcDevice));
        return;
      }
      if RenderModel.QueryDevice1 in fails {
        Store(buffer, slot, g, b, RenderModel.Aborted(RenderModel.QueryDevice1));
        return;
      }
      var (g4, device1) := Acquire(g, Interface);
      assert spec == RenderModel.OpenShared(g4, b, device1, size, fails);
      if RenderModel.OpenSharedResource in fails {
        Store(buffer, slot, g4, b, RenderModel.Aborted(RenderModel.OpenSharedResource));
        return;
      }
      var (g5, textureVlc) := Acquire(g4, Texture(size));
      g := Release(g5, device1);
      // the two views; a failure is only logged and leaves the field null
      var (g6, view) := RenderModel.AcquireUnless(g, ShaderView, RenderModel.CreateShaderView in fails);
      var (g7, target) := RenderModel.AcquireUnless(g6, RenderTargetView, RenderModel.CreateRenderTarget in fails);
      b := b.(shaderView := view, renderTarget := target);
      g := Release(g7, textureVlc);
      Store(buffer, slot, g, b, RenderModel.Running);
    }

    /** Update(width, height): record the size, release both buffers, initialise both again. */
    method Update(width: u32, height: u32, faults: Faults)
      requires Valid() && status.Running?
      modifies this, front, back
      ensures Valid() && front == old(front) && back == old(back)
      ensures Abs() == RenderModel.Update(old(Abs()), width, height, faults)
    {
      this.width, this.height := width, height;
      ReleaseBuffer(front, RenderModel.Front);
      if !status.Running? {
        return;
      }
      ReleaseBuffer(back, RenderModel.Back);
      if !status.Running? {
        return;
      }
      InitBuffer(front, RenderModel.Front, faults.front);
      if !status.Running? {
        return;
      }
      InitBuffer(back, RenderModel.Back, faults.back);
    }

    /** Lines 221-237: create VLC's device and context, or abort(). */
    method CreateVlcDevice(createFails: bool)
      requires Valid() && status.Running?
      modifies this
      ensures Valid() && front == old(front) && back == old(back)
      ensures Abs() == RenderModel.CreateVlcDevice(old(Abs()), createFails)
    {
      if createFails {
        status := RenderModel.Aborted(RenderModel.CreateDevice);
        return;
      }
      var (g1, d) := Acquire(gpu, Device);
      var (g2, c) := Acquire(g1, DeviceContext);
      gpu, vlcDevice, vlcContext := g2, Some(d), Some(c);
    }

    /** The first part of CreateResources: keep Unity's device and context, then
        `new TextureBuffer` for each buffer pointer. */
    method NewBuffers(device: Handle, context: Handle)
      modifies this
      ensures Valid() && fresh(front) && fresh(back)
      ensures Abs() == RenderModel.NewBuffers(old(Abs()), device, context)
    {
      unityDevice, unityContext := Some(device), Some(context);
      var f := new TextureBuffer();
      var b := new TextureBuffer();
      front, back := f, b;
    }

    /** CreateResources(device, context): keep Unity's device and context, allocate two new empty
        buffers, create VLC's device and context, then Update(SCREEN_WIDTH, SCREEN_HEIGHT). */
    method CreateResources(device: Handle, context: Handle, createFails: bool, faults: Faults)
      requires Valid() && status.Running?
      modifies this
      ensures Valid() && fresh(front) && fresh(back)
      ensures Abs() == RenderModel.CreateResources(old(Abs()), device, context, createFails, faults)
    {
      NewBuffers(device, context);
      CreateVlcDevice(createFails);
      if !status.Running? {
        return;
      }
      Update(RenderModel.ScreenWidth, RenderModel.ScreenHeight, faults);
    }

    /** One guarded block of ReleaseResources: ReleaseBuffer on a set pointer, delete the
        TextureBuffer, null the pointer. */
    method DeleteBuffer(slot: Slot)
      requires Valid() && status.Running?
      modifies this, front, back
      ensures Valid() && Abs() == RenderModel.DeleteBuffer(old(Abs()), slot)
      ensures Pointer(slot) == null && Pointer(RenderModel.Other(slot)) == old(Pointer(RenderModel.Other(slot)))
    {
      var buffer := Pointer(slot);
      if buffer == null {
        return;
      }
      ReleaseBuffer(buffer, slot);
      if slot == RenderModel.Front {
        front := null;
      } else {
        back := null;
      }
    }

    /** ReleaseResources: release and delete each buffer, release VLC's device and context, and
        null each pointer (the context pointer included, as line 279 intends). */
    method ReleaseResources()
      requires Valid() && status.Running?
      modifies this, front, back
      ensures Valid() && Abs() == RenderModel.ReleaseResources(old(Abs()))
    {
      DeleteBuffer(RenderModel.Front);
      DeleteBuffer(RenderModel.Back);
      ReleaseVlcDevice();
      ReleaseVlcContext();
    }

    /** The guarded block that releases VLC's device and nulls its pointer. */
    method ReleaseVlcDevice()
      modifies this
      ensures Valid() == old(Valid()) && Abs() == RenderModel.ReleaseVlcDevice(old(Abs()))
    {
      if vlcDevice.Some? {
        gpu := Release(gpu, vlcDevice.value);
        vlcDevice := None;
      }
    }

    /** The last guarded block, nulling the context pointer as line 279 intends. */
    method ReleaseVlcContext()
      modifies this
      ensures Valid() == old(Valid()) && Abs() == RenderModel.ReleaseVlcContext(old(Abs()))
    {
      if vlcContext.Some? {
        gpu := Release(gpu, vlcContext.value);
        vlcContext := None;
      }
    }

    /** UpdateOutput(cfg, out): Update to the decoder's size, report the fixed format, succeed. */
    method UpdateOutput(width: u32, height: u32, faults: Faults) returns (ok: bool, format: RenderModel.OutputFormat)
      requires Valid() && status.Running?
      modifies this, front, back
      ensures Valid() && (Abs(), ok, format) == RenderModel.UpdateOutput(old(Abs()), width, height, faults)
    {
      Update(width, height, faults);
      ok, format := true, RenderModel.RenderFormat;
    }

    /** ProcessDeviceEvent(type, interfaces). */
    method ProcessDeviceEvent(event: RenderModel.DeviceEvent)
      requires Valid() && status.Running?
      modifies this, front, back
      ensures Valid() && Abs() == RenderModel.ProcessDeviceEvent(old(Abs()), event)
    {
      match event
      case Initialize(device, context, createFails, faults) =>
        if device.None? || context.None? {
          return;
        }
        CreateResources(device.value, context.value, createFails, faults);
      case Shutdown =>
        ReleaseResources();
      case BeforeReset =>
      case AfterReset =>
    }

    /** Swap: flush, exchange the buffer pointers, set m_updated. */
    method Swap()
      requires Valid() && status.Running?
      modifies this
      ensures Valid() && Abs() == RenderModel.Swap(old(Abs()))
    {
      if vlcContext.None? {
        status := RenderModel.Crashed(RenderModel.NullVlcContext);
        return;
      }
      front, back := back, front;
      updated := true;
    }

    /** getVideoFrame(out_updated): the front buffer's shader view, and m_updated. */
    method GetVideoFrame() returns (view: Option<Handle>, frameUpdated: bool)
      requires Valid() && status.Running?
      modifies this
      ensures Valid() && (Abs(), RenderModel.Frame(view, frameUpdated)) == RenderModel.GetVideoFrame(old(Abs()))
    {
      frameUpdated := updated;
      if front == null {
        status := RenderModel.Crashed(RenderModel.NullBuffer);
        view := None;
        return;
      }
      view := front.shaderView;
    }

    /** StartRendering(enter, hdr10): bind and clear the back buffer's render target on entry. */
    method StartRendering(enter: bool) returns (ok: bool)
      requires Valid() && status.Running?
      modifies this
      ensures Valid() && (Abs(), ok) == RenderModel.StartRendering(old(Abs()), enter)
    {
      if enter {
        if vlcContext.None? {
          status := RenderModel.Crashed(RenderModel.NullVlcContext);
          return false;
        }
        if back == null {
          status := RenderModel.Crashed(RenderModel.NullBuffer);
          return false;
        }
        boundTarget := back.renderTarget;
        cleared := cleared + [back.renderTarget];
      }
      return true;
    }

    /** SelectPlane(plane): only plane 0 exists; bind the back buffer's render target for it. */
    method SelectPlane(plane: nat) returns (ok: bool)
      requires Valid() && status.Running?
      modifies this
      ensures Valid() && (Abs(), ok) == RenderModel.SelectPlane(old(Abs()), plane)
    {
      if plane != 0 {
        return false;
      }
      if vlcContext.None? {
        status := RenderModel.Crashed(RenderModel.NullVlcContext);
        return false;
      }
      if back == null {
        status := RenderModel.Crashed(RenderModel.NullBuffer);
        return false;
      }
      boundTarget := back.renderTarget;
      return true;
    }

    /** Setup(cfg, out): hand out the VLC device context. */
    method Setup() returns (ok: bool, deviceContext: Option<Handle>)
      ensures (ok, deviceContext) == RenderModel.Setup(Abs())
    {
      ok, deviceContext := true, vlcContext;
    }

    /** Resize(report_size_change, report_opaque): store both, report the current size once. */
    method Resize(callback: Option<RenderModel.Callback>, data: RenderModel.Opaque)
      requires Valid()
      modifies this
      ensures Valid() && Abs() == RenderModel.Resize(old(Abs()), callback, data)
    {
      reportSize := callback;
      reportOpaque := data;
      if reportSize.Some? {
        reports := reports + [RenderModel.Report(reportSize.value, reportOpaque, width, height)];
      }
    }
  }
}
