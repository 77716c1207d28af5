/** What the render back end guarantees, proved about the functions of RenderModel. */
module RenderProperties {
  import opened Driver
  import opened RenderModel

  /** Lines 357-403 completed: the views exist unless their creation failed, are held and of their
      kinds; the temporary interface and the VLC-side texture are no longer held. */
  lemma OpenOnVlcDeviceViews(g: Runtime, b: Buffer, vlcDevice: Option<Handle>, size: Size, fails: set<D3DCall>)
    requires WellFormed(g) && NoDoubleRelease(g)
    requires OpenOnVlcDevice(g, b, vlcDevice, size, fails).status.Running?
    ensures var r := OpenOnVlcDevice(g, b, vlcDevice, size, fails);
      && r.buffer == b.(shaderView := r.buffer.shaderView, renderTarget := r.buffer.renderTarget)
      && Holds(r.gpu, r.buffer.shaderView, ShaderView) && Holds(r.gpu, r.buffer.renderTarget, RenderTargetView)
      && (r.buffer.shaderView.Some? <==> CreateShaderView !in fails)
      && (r.buffer.renderTarget.Some? <==> CreateRenderTarget !in fails)
      && Differ(r.buffer.shaderView, r.buffer.renderTarget)
      && r.gpu.live == g.live + Opt(r.buffer.shaderView) + Opt(r.buffer.renderTarget)
      && Within(r.buffer.shaderView, g.next, r.gpu.next) && Within(r.buffer.renderTarget, g.next, r.gpu.next)
  {
    var (g1, device1) := Acquire(g, Interface);
    assert g1.live - {device1} == g.live;
    assert OpenOnVlcDevice(g, b, vlcDevice, size, fails) == OpenShared(g1, b, device1, size, fails);
  }

  /** Lines 338-403 completed: in addition the shared handle exists, is held, and differs from both
      views; the IDXGIResource1 interface is no longer held. */
  lemma ShareTextureViews(g: Runtime, b: Buffer, vlcDevice: Option<Handle>, size: Size, fails: set<D3DCall>)
    requires WellFormed(g) && NoDoubleRelease(g)
    requires ShareTexture(g, b, vlcDevice, size, fails).status.Running?
    ensures var r := ShareTexture(g, b, vlcDevice, size, fails);
      && r.buffer.texture == b.texture && r.buffer.sharedHandle.Some?
      && Holds(r.gpu, r.buffer.sharedHandle, SharedHandle)
      && Holds(r.gpu, r.buffer.shaderView, ShaderView) && Holds(r.gpu, r.buffer.renderTarget, RenderTargetView)
      && (r.buffer.shaderView.Some? <==> CreateShaderView !in fails)
      && (r.buffer.renderTarget.Some? <==> CreateRenderTarget !in fails)
      && Differ(r.buffer.shaderView, r.buffer.renderTarget) && Differ(r.buffer.shaderView, r.buffer.sharedHandle)
      && Differ(r.buffer.renderTarget, r.buffer.sharedHandle)
      && r.gpu.live == g.live + Opt(r.buffer.sharedHandle) + Opt(r.buffer.shaderView) + Opt(r.buffer.renderTarget)
      && Within(r.buffer.sharedHandle, g.next, r.gpu.next)
      && Within(r.buffer.shaderView, g.next, r.gpu.next) && Within(r.buffer.renderTarget, g.next, r.gpu.next)
  {
    var (g1, resource) := Acquire(g, Interface);
    var (g2, shared) := Acquire(g1, SharedHandle);
    var g3 := Release(g2, resource);
    var b3 := b.(sharedHandle := Some(shared));
    var r := OpenOnVlcDevice(g3, b3, vlcDevice, size, fails);
    assert WellFormed(g3) && NoDoubleRelease(g3) && shared in g3.live && g3.kind[shared] == SharedHandle;
    TemporaryDropped(g.live, resource, shared);
    assert g3.live == g.live + {shared} && g.next <= shared < g3.next;
    assert ShareTexture(g, b, vlcDevice, size, fails) == r;
    OpenOnVlcDeviceViews(g3, b3, vlcDevice, size, fails);
    AddShared(g, g3, shared, r);
  }

  /** A temporary interface acquired and released again around a creation leaves only the creation. */
  lemma TemporaryDropped(live: set<Handle>, temporary: Handle, created: Handle)
    requires temporary !in live && temporary != created
    ensures live + {temporary} + {created} - {temporary} == live + {created}
  {
  }

  /** The shared handle, created before the views, stays held and differs from both. */
  lemma AddShared(g: Runtime, g3: Runtime, shared: Handle, r: BufferInit)
    requires g3.live == g.live + {shared} && g.next <= shared < g3.next
    requires shared in g3.kind && g3.kind[shared] == SharedHandle
    requires r.buffer.sharedHandle == Some(shared) && KindsKept(g3, r.gpu) && g3.next <= r.gpu.next
    requires r.gpu.live == g3.live + Opt(r.buffer.shaderView) + Opt(r.buffer.renderTarget)
    requires Within(r.buffer.shaderView, g3.next, r.gpu.next) && Within(r.buffer.renderTarget, g3.next, r.gpu.next)
    ensures Holds(r.gpu, r.buffer.sharedHandle, SharedHandle)
    ensures Differ(r.buffer.shaderView, r.buffer.sharedHandle) && Differ(r.buffer.renderTarget, r.buffer.sharedHandle)
    ensures r.gpu.live == g.live + Opt(r.buffer.sharedHandle) + Opt(r.buffer.shaderView) + Opt(r.buffer.renderTarget)
    ensures Within(r.buffer.sharedHandle, g.next, r.gpu.next)
    ensures Within(r.buffer.shaderView, g.next, r.gpu.next) && Within(r.buffer.renderTarget, g.next, r.gpu.next)
  {
  }

  /** A successful InitBuffer leaves the buffer complete at the requested size: texture and shared
      handle present, each view present unless its creation failed, each of them held and of its kind. */
  lemma InitTextureReady(g: Runtime, b: Buffer, unityDevice: Option<Handle>, vlcDevice: Option<Handle>,
                         size: Size, fails: set<D3DCall>)
    requires WellFormed(g) && NoDoubleRelease(g)
    requires InitTexture(g, b, unityDevice, vlcDevice, size, fails).status.Running?
    ensures var r := InitTexture(g, b, unityDevice, vlcDevice, size, fails);
      && Ready(r.gpu, r.buffer, size)
      && (r.buffer.shaderView.Some? <==> CreateShaderView !in fails)
      && (r.buffer.renderTarget.Some? <==> CreateRenderTarget !in fails)
  {
    var (g1, texture) := Acquire(g, Texture(size));
    var r := ShareTexture(g1, b.(texture := Some(texture)), vlcDevice, size, fails);
    assert r == InitTexture(g, b, unityDevice, vlcDevice, size, fails);
    ShareTextureViews(g1, b.(texture := Some(texture)), vlcDevice, size, fails);
    assert KindsKept(g1, r.gpu);
  }

  /** After a successful InitBuffer exactly the buffer's four (or fewer) resources are newly held:
      the temporary interfaces and the VLC-side texture were released before it returned. */
  lemma InitTextureHoldsOnlyBuffer(g: Runtime, b: Buffer, unityDevice: Option<Handle>, vlcDevice: Option<Handle>,
                                   size: Size, fails: set<D3DCall>)
    requires WellFormed(g) && NoDoubleRelease(g)
    requires InitTexture(g, b, unityDevice, vlcDevice, size, fails).status.Running?
    ensures var r := InitTexture(g, b, unityDevice, vlcDevice, size, fails);
      && r.gpu.live == g.live + Handles(r.buffer)
      && AllWithin(r.buffer, g.next, r.gpu.next)
  {
    var (g1, texture) := Acquire(g, Texture(size));
    var r := ShareTexture(g1, b.(texture := Some(texture)), vlcDevice, size, fails);
    assert r == InitTexture(g, b, unityDevice, vlcDevice, size, fails);
    ShareTextureViews(g1, b.(texture := Some(texture)), vlcDevice, size, fails);
    LiveAfterInit(g, g1, texture, r);
  }

  lemma LiveAfterInit(g: Runtime, g1: Runtime, texture: Handle, r: BufferInit)
    requires g1.live == g.live + {texture} && g.next <= texture < g1.next
    requires r.buffer.texture == Some(texture) && g1.next <= r.gpu.next
    requires r.gpu.live == g1.live + Opt(r.buffer.sharedHandle) + Opt(r.buffer.shaderView) + Opt(r.buffer.renderTarget)
    requires Within(r.buffer.sharedHandle, g1.next, r.gpu.next)
    requires Within(r.buffer.shaderView, g1.next, r.gpu.next) && Within(r.buffer.renderTarget, g1.next, r.gpu.next)
    ensures r.gpu.live == g.live + Handles(r.buffer) && AllWithin(r.buffer, g.next, r.gpu.next)
  {
  }

  // ---------------------------------------------------------------------------
  // Update

  /** A complete buffer owns its resources: they are held and, being of four different kinds,
      pairwise distinct. */
  lemma ReadyOwns(g: Runtime, b: Buffer, size: Size)
    requires Ready(g, b, size)
    ensures Owns(g, b)
  {
  }

  /** What Update needs of the object: both devices, both buffers owned and apart, and VLC's
      device and context outside both buffers. */
  predicate Prepared(s: State)
  {
    && WellFormed(s.gpu) && NoDoubleRelease(s.gpu) && s.status.Running?
    && Configured(s) && Owns(s.gpu, s.front.value) && Owns(s.gpu, s.back.value)
    && s.vlcDevice.value !in Handles(s.front.value) + Handles(s.back.value)
    && s.vlcContext.value !in Handles(s.front.value) + Handles(s.back.value)
  }

  lemma SizedPrepared(s: State)
    requires WellFormed(s.gpu) && NoDoubleRelease(s.gpu) && s.status.Running?
    requires Configured(s) && Sized(s)
    ensures Prepared(s)
  {
    ReadyOwns(s.gpu, s.front.value, Size(s.width, s.height));
    ReadyOwns(s.gpu, s.back.value, Size(s.width, s.height));
  }

  /** The two ReleaseBuffer calls at the head of Update give back exactly the resources of both
      buffers, front first, each once, and keep VLC's device and context. */
  lemma ReleaseBoth(s: State)
    requires Prepared(s)
    ensures var r := ReleaseBuffer(ReleaseBuffer(s, Front), Back);
      && r.status.Running?
      && r == s.(gpu := r.gpu, front := Some(EmptyBuffer), back := Some(EmptyBuffer))
      && WellFormed(r.gpu) && NoDoubleRelease(r.gpu)
      && r.gpu.next == s.gpu.next && r.gpu.kind == s.gpu.kind
      && r.gpu.live == s.gpu.live - Handles(s.front.value) - Handles(s.back.value)
      && r.gpu.released == s.gpu.released + ReleaseOrder(s.front.value) + ReleaseOrder(s.back.value)
      && Holds(r.gpu, r.vlcDevice, Device) && Holds(r.gpu, r.vlcContext, DeviceContext)
  {
    var s1 := ReleaseBuffer(s, Front);
    assert s1.back == s.back;
    assert Owns(s1.gpu, s.back.value);
  }

  /** One InitBuffer call on a state whose devices exist: it either aborts on a failed call or
      leaves that buffer complete at the current size, holding exactly its own new resources. */
  lemma InitStep(s: State, slot: Slot, fails: set<D3DCall>)
    requires WellFormed(s.gpu) && NoDoubleRelease(s.gpu) && s.status.Running?
    requires s.unityDevice.Some? && s.vlcDevice.Some? && s.Get(slot).Some?
    ensures var r := InitBuffer(s, slot, fails);
      && WellFormed(r.gpu) && NoDoubleRelease(r.gpu) && KindsKept(s.gpu, r.gpu) && s.gpu.next <= r.gpu.next
      && (r.status.Running? <==> InitSucceeds(fails))
      && (!r.status.Running? ==> r.status.Aborted? && r.status.call in fails)
      && (r.status.Running? ==>
            && Ready(r.gpu, r.Get(slot).value, Size(s.width, s.height))
            && r.gpu.live == s.gpu.live + Handles(r.Get(slot).value)
            && AllWithin(r.Get(slot).value, s.gpu.next, r.gpu.next))
  {
    var size := Size(s.width, s.height);
    var o := InitTexture(s.gpu, s.Get(slot).value, s.unityDevice, s.vlcDevice, size, fails);
    if o.status.Running? {
      InitTextureReady(s.gpu, s.Get(slot).value, s.unityDevice, s.vlcDevice, size, fails);
      InitTextureHoldsOnlyBuffer(s.gpu, s.Get(slot).value, s.unityDevice, s.vlcDevice, size, fails);
    }
  }

  lemma HoldsKept(g: Runtime, g': Runtime, h: Option<Handle>, k: Kind)
    requires Holds(g, h, k) && KindsKept(g, g') && g.live <= g'.live
    ensures Holds(g', h, k)
  {
  }

  lemma ReadyKept(g: Runtime, g': Runtime, b: Buffer, size: Size)
    requires Ready(g, b, size) && KindsKept(g, g') && g.live <= g'.live
    ensures Ready(g', b, size)
  {
    HoldsKept(g, g', b.texture, Texture(size));
    HoldsKept(g, g', b.sharedHandle, SharedHandle);
    HoldsKept(g, g', b.shaderView, ShaderView);
    HoldsKept(g, g', b.renderTarget, RenderTargetView);
  }

  /** Buffers created one after the other share no resource. */
  lemma ApartByRange(a: Buffer, b: Buffer, lo: nat, mid: nat, hi: nat)
    requires AllWithin(a, lo, mid) && AllWithin(b, mid, hi)
    ensures Handles(a) !! Handles(b)
  {
  }

  /** The driver after Update's four steps holds nothing of the old buffers: what was released is
      gone, and what was created since is new. */
  lemma LiveAfterUpdate(g0: Runtime, g3: Runtime, g4: Runtime, g5: Runtime, old1: set<Handle>, old2: set<Handle>,
                        a: Buffer, b: Buffer)
    requires forall h :: h in old1 + old2 ==> h < g0.next
    requires g3.live == g0.live - old1 - old2 && g3.next == g0.next
    requires g4.live == g3.live + Handles(a) && AllWithin(a, g3.next, g4.next) && g3.next <= g4.next
    requires g5.live == g4.live + Handles(b) && AllWithin(b, g4.next, g5.next)
    ensures (old1 + old2) !! g5.live
    ensures g5.live == g0.live - old1 - old2 + Handles(a) + Handles(b)
  {
    HandlesWithin(a, g3.next, g4.next);
    HandlesWithin(b, g4.next, g5.next);
  }

  lemma HandlesWithin(b: Buffer, lo: nat, hi: nat)
    requires AllWithin(b, lo, hi)
    ensures forall h :: h in Handles(b) ==> lo <= h < hi
  {
  }

  lemma OwnedBelow(g: Runtime, b: Buffer)
    requires WellFormed(g) && Owns(g, b)
    ensures forall h :: h in Handles(b) ==> h < g.next
  {
  }

  /** The end of Update, over the four intermediate driver states: both new buffers complete and
      apart, VLC's device and context still held, the old buffers' resources all gone. */
  lemma UpdateTail(g0: Runtime, g3: Runtime, g4: Runtime, g5: Runtime, oldFront: Buffer, oldBack: Buffer,
                   front: Buffer, back: Buffer, device: Option<Handle>, context: Option<Handle>, size: Size)
    requires WellFormed(g0) && Owns(g0, oldFront) && Owns(g0, oldBack)
    requires g3.live == g0.live - Handles(oldFront) - Handles(oldBack) && g3.next == g0.next
    requires Holds(g3, device, Device) && Holds(g3, context, DeviceContext)
    requires KindsKept(g3, g4) && g3.next <= g4.next && KindsKept(g4, g5) && g4.next <= g5.next
    requires Ready(g4, front, size) && g4.live == g3.live + Handles(front) && AllWithin(front, g3.next, g4.next)
    requires Ready(g5, back, size) && g5.live == g4.live + Handles(back) && AllWithin(back, g4.next, g5.next)
    ensures Ready(g5, front, size) && Holds(g5, device, Device) && Holds(g5, context, DeviceContext)
    ensures Handles(front) !! Handles(back)
    ensures (Handles(oldFront) + Handles(oldBack)) !! g5.live
    ensures g5.live == g0.live - Handles(oldFront) - Handles(oldBack) + Handles(front) + Handles(back)
  {
    ReadyKept(g4, g5, front, size);
    HoldsKept(g3, g5, device, Device);
    HoldsKept(g3, g5, context, DeviceContext);
    ApartByRange(front, back, g3.next, g4.next, g5.next);
    OwnedBelow(g0, oldFront);
    OwnedBelow(g0, oldBack);
    LiveAfterUpdate(g0, g3, g4, g5, Handles(oldFront), Handles(oldBack), front, back);
  }

  /** Update(w, h) on a configured object: it records the size, gives back both old buffers, and
      either aborts on a failed Direct3D call or completes; it never dereferences a null pointer
      and never releases anything twice. */
  lemma UpdateConfigured(s: State, width: u32, height: u32, faults: Faults)
    requires Prepared(s)
    ensures var r := Update(s, width, height, faults);
      && WellFormed(r.gpu) && NoDoubleRelease(r.gpu)
      && r.width == width && r.height == height
      && (r.status.Running? <==> InitSucceeds(faults.front) && InitSucceeds(faults.back))
      && (!r.status.Running? ==> r.status.Aborted? && r.status.call in faults.front + faults.back)
  {
    var s1 := s.(width := width, height := height);
    var s3 := ReleaseBuffer(ReleaseBuffer(s1, Front), Back);
    ReleaseBoth(s1);
    var s4 := InitBuffer(s3, Front, faults.front);
    InitStep(s3, Front, faults.front);
    if s4.status.Running? {
      var s5 := InitBuffer(s4, Back, faults.back);
      InitStep(s4, Back, faults.back);
      assert Update(s, width, height, faults) == s5;
    } else {
      assert Update(s, width, height, faults) == s4;
    }
  }

  /** The second half of Update: both InitBuffer calls, from two empty buffers. */
  lemma InitBoth(s3: State, faults: Faults)
    requires WellFormed(s3.gpu) && NoDoubleRelease(s3.gpu) && s3.status.Running?
    requires s3.unityDevice.Some? && s3.vlcDevice.Some? && s3.front.Some? && s3.back.Some?
    requires InitBuffer(s3, Front, faults.front).status.Running?
    requires InitBuffer(InitBuffer(s3, Front, faults.front), Back, faults.back).status.Running?
    ensures var s4 := InitBuffer(s3, Front, faults.front);
      var s5 := InitBuffer(s4, Back, faults.back);
      && s5 == s3.(gpu := s5.gpu, front := s5.front, back := s5.back)
      && s5.front.Some? && s5.back.Some?
      && KindsKept(s3.gpu, s4.gpu) && s3.gpu.next <= s4.gpu.next
      && KindsKept(s4.gpu, s5.gpu) && s4.gpu.next <= s5.gpu.next
      && Ready(s4.gpu, s5.front.value, Size(s3.width, s3.height))
      && Ready(s5.gpu, s5.back.value, Size(s3.width, s3.height))
      && s4.gpu.live == s3.gpu.live + Handles(s5.front.value) && AllWithin(s5.front.value, s3.gpu.next, s4.gpu.next)
      && s5.gpu.live == s4.gpu.live + Handles(s5.back.value) && AllWithin(s5.back.value, s4.gpu.next, s5.gpu.next)
  {
    InitStep(s3, Front, faults.front);
    InitStep(InitBuffer(s3, Front, faults.front), Back, faults.back);
  }

  /** A completed Update(w, h) leaves both buffers complete at w x h and apart from each other,
      VLC's device and context still held, and nothing of the old buffers held. */
  lemma UpdateRebuildsBoth(s: State, width: u32, height: u32, faults: Faults)
    requires Prepared(s) && Update(s, width, height, faults).status.Running?
    ensures var r := Update(s, width, height, faults);
      && Configured(r) && Sized(r)
      && (Handles(s.front.value) + Handles(s.back.value)) !! r.gpu.live
      && r.gpu.live == s.gpu.live - Handles(s.front.value) - Handles(s.back.value)
                       + Handles(r.front.value) + Handles(r.back.value)
  {
    var s1 := s.(width := width, height := height);
    var s3 := ReleaseBuffer(ReleaseBuffer(s1, Front), Back);
    ReleaseBoth(s1);
    var s4 := InitBuffer(s3, Front, faults.front);
    var s5 := InitBuffer(s4, Back, faults.back);
    assert s4.status.Running? && Update(s, width, height, faults) == s5;
    InitBoth(s3, faults);
    UpdateTail(s.gpu, s3.gpu, s4.gpu, s5.gpu, s.front.value, s.back.value, s5.front.value, s5.back.value,
               s5.vlcDevice, s5.vlcContext, Size(width, height));
  }

  // ---------------------------------------------------------------------------
  // ReleaseResources

  /** Shutdown on a configured object gives back every resource it holds, each once: the front
      buffer's, the back buffer's, VLC's device, then its context; none of them stays held. */
  lemma ReleaseResourcesConfigured(s: State)
    requires Prepared(s)
    ensures var r := ReleaseResources(s);
      && Unconfigured(r) && WellFormed(r.gpu) && NoDoubleRelease(r.gpu)
      && r.gpu.live == s.gpu.live - Handles(s.front.value) - Handles(s.back.value)
                       - {s.vlcDevice.value, s.vlcContext.value}
      && r.gpu.released == s.gpu.released + ReleaseOrder(s.front.value) + ReleaseOrder(s.back.value)
                           + [s.vlcDevice.value, s.vlcContext.value]
  {
    var g := s.gpu;
    var f := s.front.value;
    var b := s.back.value;
    var device := s.vlcDevice.value;
    var context := s.vlcContext.value;
    assert ReleaseResources(s).gpu == Release(Release(ReleaseHandles(ReleaseHandles(g, f), b), device), context);
    ReleaseChain(g, f, b, device, context);
    ReleaseChainLog(g, f, b, device, context);
  }

  /** The four releases of ReleaseResources, over the driver alone: each releases a held handle. */
  lemma ReleaseChain(g: Runtime, f: Buffer, b: Buffer, device: Handle, context: Handle)
    requires WellFormed(g) && NoDoubleRelease(g) && Owns(g, f) && Owns(g, b) && Handles(f) !! Handles(b)
    requires device in g.live && context in g.live && device != context
    requires device !in Handles(f) + Handles(b) && context !in Handles(f) + Handles(b)
    ensures var r := Release(Release(ReleaseHandles(ReleaseHandles(g, f), b), device), context);
      WellFormed(r) && NoDoubleRelease(r)
  {
    var g1 := ReleaseHandles(g, f);
    assert Owns(g1, b);
    var g2 := ReleaseHandles(g1, b);
    assert WellFormed(g2) && NoDoubleRelease(g2);
    assert device in g2.live && context in g2.live;
    var g3 := Release(g2, device);
    assert WellFormed(g3) && NoDoubleRelease(g3) && context in g3.live;
  }

  /** What the four releases of ReleaseResources leave held, and the order they are issued in. */
  lemma ReleaseChainLog(g: Runtime, f: Buffer, b: Buffer, device: Handle, context: Handle)
    ensures var r := Release(Release(ReleaseHandles(ReleaseHandles(g, f), b), device), context);
      && r.live == g.live - Handles(f) - Handles(b) - {device, context}
      && r.released == g.released + ReleaseOrder(f) + ReleaseOrder(b) + [device, context]
  {
    var g2 := ReleaseHandles(ReleaseHandles(g, f), b);
    var g4 := Release(Release(g2, device), context);
    assert g4.live == g.live - Handles(f) - Handles(b) - {device} - {context};
    assert g4.released == g2.released + [device] + [context];
  }

  /** Shutdown on an unconfigured object releases nothing. */
  lemma ReleaseResourcesUnconfigured(s: State)
    requires Unconfigured(s)
    ensures ReleaseResources(s) == s
  {
  }

  /** The guard-then-null pattern makes a second shutdown release nothing. */
  lemma ReleaseResourcesIdempotent(s: State)
    ensures ReleaseResources(ReleaseResources(s)) == ReleaseResources(s)
  {
    ReleaseResourcesUnconfigured(ReleaseResources(s));
  }

  // ---------------------------------------------------------------------------
  // The invariant, call by call

  /** Creating VLC's device and context keeps the driver consistent and hands out two new handles. */
  lemma CreateVlcDeviceFresh(s: State)
    requires s.status.Running? && WellFormed(s.gpu) && NoDoubleRelease(s.gpu)
    ensures var r := CreateVlcDevice(s, false);
      && WellFormed(r.gpu) && NoDoubleRelease(r.gpu) && KindsKept(s.gpu, r.gpu)
      && r.vlcDevice.value !in s.gpu.live && r.vlcContext.value !in s.gpu.live
  {
    var (g1, d) := Acquire(s.gpu, Device);
    var (g2, c) := Acquire(g1, DeviceContext);
    assert CreateVlcDevice(s, false).gpu == g2;
  }

  /** Initialize: fresh VLC device and context, two empty buffers, then Update(100, 100). */
  lemma CreateResourcesKeepsInv(s: State, device: Handle, context: Handle, createFails: bool, faults: Faults)
    requires Inv(s) && s.status.Running?
    ensures Inv(CreateResources(s, device, context, createFails, faults))
  {
    if !createFails {
      var s1 := s.(unityDevice := Some(device), unityContext := Some(context),
                   front := Some(EmptyBuffer), back := Some(EmptyBuffer));
      var s2 := CreateVlcDevice(s1, createFails);
      CreateVlcDeviceFresh(s1);
      assert Prepared(s2);
      UpdateConfigured(s2, ScreenWidth, ScreenHeight, faults);
      if Update(s2, ScreenWidth, ScreenHeight, faults).status.Running? {
        UpdateRebuildsBoth(s2, ScreenWidth, ScreenHeight, faults);
      }
    }
  }

  /** A completed Initialize ends as Update(SCREEN_WIDTH, SCREEN_HEIGHT) leaves it: both buffers
      complete (each view present unless its creation failed) at 100 x 100 and apart, and VLC's
      device and context held. */
  lemma CreateResourcesSized(s: State, device: Handle, context: Handle, faults: Faults)
    requires Inv(s) && s.status.Running?
    requires CreateResources(s, device, context, false, faults).status.Running?
    ensures var r := CreateResources(s, device, context, false, faults);
      && r.width == ScreenWidth && r.height == ScreenHeight && Configured(r) && Sized(r)
  {
    CreateResourcesKeepsInv(s, device, context, false, faults);
  }

  /** Initialize with no failing call, from construction: the object holds exactly VLC's device,
      its context and the resources of the two buffers. */
  lemma InitializeHoldsOwnResources(device: Handle, context: Handle)
    ensures var r := CreateResources(Init(), device, context, false, NoFaults);
      && Prepared(r)
      && r.gpu.live == {r.vlcDevice.value, r.vlcContext.value} + Handles(r.front.value) + Handles(r.back.value)
  {
    var s1 := NewBuffers(Init(), device, context);
    var s2 := CreateVlcDevice(s1, false);
    CreateVlcDeviceFresh(s1);
    assert Prepared(s2);
    UpdateConfigured(s2, ScreenWidth, ScreenHeight, NoFaults);
    var s3 := Update(s2, ScreenWidth, ScreenHeight, NoFaults);
    UpdateRebuildsBoth(s2, ScreenWidth, ScreenHeight, NoFaults);
    assert s3 == CreateResources(Init(), device, context, false, NoFaults);
    SizedPrepared(s3);
  }

  /** Initialize with no failing call, then Shutdown: every resource the object created has been
      given back, each once, and nothing is held any more. */
  lemma InitializeThenShutdownHoldsNothing(device: Handle, context: Handle)
    ensures var s := Run(Init(), [OnDeviceEvent(Initialize(Some(device), Some(context), false, NoFaults)),
                                  OnDeviceEvent(Shutdown)]);
      s.status.Running? && s.gpu.live == {} && NoDoubleRelease(s.gpu)
  {
    var c0 := OnDeviceEvent(Initialize(Some(device), Some(context), false, NoFaults));
    var s3 := CreateResources(Init(), device, context, false, NoFaults);
    InitializeHoldsOwnResources(device, context);
    RunTwo(Init(), c0, OnDeviceEvent(Shutdown));
    assert Step(Init(), c0) == s3;
    ShutdownStep(s3);
    ShutdownHoldsNothing(s3);
  }

  /** Shutdown of a configured object that holds nothing but its own resources leaves nothing held. */
  lemma ShutdownHoldsNothing(s: State)
    requires Prepared(s)
    requires s.gpu.live == {s.vlcDevice.value, s.vlcContext.value} + Handles(s.front.value) + Handles(s.back.value)
    ensures var r := ReleaseResources(s);
      r.status.Running? && r.gpu.live == {} && NoDoubleRelease(r.gpu)
  {
    ReleaseResourcesConfigured(s);
  }

  /** Two calls in a row. */
  lemma RunTwo(s: State, c0: Call, c1: Call)
    ensures Run(s, [c0, c1]) == Step(Step(s, c0), c1)
  {
    assert [c0, c1][1..] == [c1] && [c1][1..] == [];
    assert Run(s, [c0, c1]) == Run(Step(s, c0), [c1]);
    assert Run(Step(s, c0), [c1]) == Run(Step(Step(s, c0), c1), []);
  }

  /** Shutdown on a running object is ReleaseResources. */
  lemma ShutdownStep(s: State)
    requires s.status.Running?
    ensures Step(s, OnDeviceEvent(Shutdown)) == ReleaseResources(s)
  {
  }

  /** Update on an object without buffers dereferences the null front buffer and changes nothing else. */
  lemma UpdateUnconfigured(s: State, width: u32, height: u32, faults: Faults)
    requires s.status.Running? && Unconfigured(s)
    ensures Update(s, width, height, faults) == s.(width := width, height := height, status := Crashed(NullBuffer))
  {
  }

  lemma UpdateKeepsInv(s: State, width: u32, height: u32, faults: Faults)
    requires Inv(s) && s.status.Running?
    ensures Inv(Update(s, width, height, faults))
  {
    if Configured(s) {
      SizedPrepared(s);
      UpdateConfigured(s, width, height, faults);
      if Update(s, width, height, faults).status.Running? {
        UpdateRebuildsBoth(s, width, height, faults);
      }
    } else {
      UpdateUnconfigured(s, width, height, faults);
    }
  }

  lemma ReleaseResourcesKeepsInv(s: State)
    requires Inv(s) && s.status.Running?
    ensures Inv(ReleaseResources(s))
  {
    if Configured(s) {
      SizedPrepared(s);
      ReleaseResourcesConfigured(s);
    } else {
      ReleaseResourcesUnconfigured(s);
    }
  }

  /** Every call keeps the invariant. */
  lemma StepKeepsInv(s: State, c: Call)
    requires Inv(s)
    ensures Inv(Step(s, c))
  {
    if s.status.Running? {
      match c
      case OnDeviceEvent(event) =>
        if event.Initialize? && event.device.Some? && event.context.Some? {
          CreateResourcesKeepsInv(s, event.device.value, event.context.value, event.createFails, event.faults);
        } else if event.Shutdown? {
          ReleaseResourcesKeepsInv(s);
        }
      case OnUpdateOutput(width, height, faults) => UpdateKeepsInv(s, width, height, faults);
      case OnSwap =>
      case OnStartRendering(enter) =>
      case OnSelectPlane(plane) =>
      case OnSetup =>
      case OnResize(callback, data) =>
      case OnGetVideoFrame =>
    }
  }

  /** Any sequence of calls keeps the invariant. */
  lemma {:induction false} RunKeepsInv(s: State, calls: seq<Call>)
    requires Inv(s)
    ensures Inv(Run(s, calls))
    decreases |calls|
  {
    if calls != [] {
      StepKeepsInv(s, calls[0]);
      RunKeepsInv(Step(s, calls[0]), calls[1..]);
    }
  }

  /** From construction on, whatever Unity and VLC call in whatever order, no resource is released
      twice and, while the process runs, both buffers are complete at the current size. */
  lemma Reachable(calls: seq<Call>)
    ensures var s := Run(Init(), calls);
      && NoDoubleRelease(s.gpu)
      && (s.status.Running? && s.front.Some? ==>
            && s.back.Some? && Handles(s.front.value) !! Handles(s.back.value)
            && Ready(s.gpu, s.front.value, Size(s.width, s.height))
            && Ready(s.gpu, s.back.value, Size(s.width, s.height)))
  {
    RunKeepsInv(Init(), calls);
  }

  /** getVideoFrame on a running object hands Unity a shader view that is still held, or null when
      its creation failed. */
  lemma FrameViewHeld(calls: seq<Call>)
    ensures var s := Run(Init(), calls);
      s.status.Running? && s.front.Some? ==> Holds(s.gpu, GetVideoFrame(s).1.view, ShaderView)
  {
    RunKeepsInv(Init(), calls);
  }

  /** Setup on a running object hands VLC its own device context, still held, or null before Initialize. */
  lemma SetupContextHeld(calls: seq<Call>)
    ensures var s := Run(Init(), calls);
      s.status.Running? ==> Holds(s.gpu, Setup(s).1, DeviceContext)
  {
    RunKeepsInv(Init(), calls);
  }

  // ---------------------------------------------------------------------------
  // Buffers

  /** A second ReleaseBuffer on the same buffer releases nothing and leaves it empty. */
  lemma ReleaseBufferTwice(s: State, slot: Slot)
    requires s.status.Running? && s.Get(slot).Some?
    ensures var r := ReleaseBuffer(s, slot);
      ReleaseBuffer(r, slot) == r
  {
    var r := ReleaseBuffer(s, slot);
    assert ReleaseHandles(r.gpu, EmptyBuffer) == r.gpu;
  }

  // ---------------------------------------------------------------------------
  // Swap and the update flag

  /** Two swaps restore the original front and back buffers. */
  lemma SwapTwice(s: State)
    requires s.status.Running? && s.vlcContext.Some?
    ensures Swap(Swap(s)) == s.(updated := true)
  {
  }

  /** A call that reaches Swap with the VLC context present. */
  predicate Swaps(s: State, c: Call)
  {
    s.status.Running? && c == OnSwap && s.vlcContext.Some?
  }

  /** Some call of the sequence, run from `s`, is a Swap that completes. */
  predicate SwapHappens(s: State, calls: seq<Call>)
    decreases |calls|
  {
    calls != [] && (Swaps(s, calls[0]) || SwapHappens(Step(s, calls[0]), calls[1..]))
  }

  /** Only a completed Swap sets m_updated, and nothing clears it. */
  lemma StepUpdated(s: State, c: Call)
    ensures Step(s, c).updated <==> s.updated || Swaps(s, c)
  {
    if s.status.Running? && c.OnUpdateOutput? {
      assert UpdateOutput(s, c.width, c.height, c.faults).0.updated == s.updated;
    }
  }

  /** m_updated is false until the first completed Swap and true forever after. */
  lemma {:induction false} UpdatedIffSwapped(s: State, calls: seq<Call>)
    ensures Run(s, calls).updated <==> s.updated || SwapHappens(s, calls)
    decreases |calls|
  {
    if calls != [] {
      StepUpdated(s, calls[0]);
      UpdatedIffSwapped(Step(s, calls[0]), calls[1..]);
    }
  }

  /** What getVideoFrame reports after any sequence of calls from construction. */
  lemma FrameUpdatedIffSwapped(calls: seq<Call>)
    ensures var s := Run(Init(), calls);
      s.status.Running? ==> (GetVideoFrame(s).1.updated <==> SwapHappens(Init(), calls))
  {
    UpdatedIffSwapped(Init(), calls);
  }

  // ---------------------------------------------------------------------------
  // Render callbacks after Shutdown

  /** After Shutdown the buffers are gone: rendering, plane selection and frame reads all crash. */
  lemma RenderAfterShutdownCrashes(s: State)
    requires s.status.Running?
    ensures StartRendering(ReleaseResources(s), true).0.status.Crashed?
    ensures SelectPlane(ReleaseResources(s), 0).0.status.Crashed?
    ensures GetVideoFrame(ReleaseResources(s)).0.status == Crashed(NullBuffer)
  {
  }

  // ---------------------------------------------------------------------------
  // The source as written

  /** With line 279 as written, a second shutdown of a configured object releases VLC's device
      context a second time. */
  lemma ShutdownTwiceAsWritten(s: State)
    requires Prepared(s)
    ensures var r := ReleaseResourcesAsWritten(ReleaseResourcesAsWritten(s));
      && !NoDoubleRelease(r.gpu)
      && r.gpu.released[|r.gpu.released| - 2] == r.gpu.released[|r.gpu.released| - 1] == s.vlcContext.value
  {
    var r1 := ReleaseResourcesAsWritten(s);
    var r := ReleaseResourcesAsWritten(r1);
    var c := s.vlcContext.value;
    assert r1.vlcContext == Some(c) && r1.gpu.released[|r1.gpu.released| - 1] == c;
    assert r.gpu == Release(r1.gpu, c);
    var n := |r.gpu.released|;
    assert r.gpu.released[n - 2] == r.gpu.released[n - 1];
  }

  /** With line 279 as written, Shutdown leaves the object pointing at VLC's released context:
      Setup hands it to VLC, and Swap goes on to flush through it without noticing. */
  lemma ContextAfterShutdownAsWritten(s: State)
    requires Prepared(s)
    ensures var r := ReleaseResourcesAsWritten(s);
      && Setup(r).1 == s.vlcContext && s.vlcContext.value !in r.gpu.live
      && Swap(r).status.Running?
  {
  }

  /** With lines 328-340 as written, a failed CreateTexture2D on the Unity device goes on to call
      QueryInterface through the null texture; as intended it ends the process with abort(). */
  lemma CreateTextureFailureAsWritten(g: Runtime, b: Buffer, unityDevice: Handle, vlcDevice: Option<Handle>,
                                      size: Size, fails: set<D3DCall>)
    requires CreateTexture in fails
    ensures InitTextureAsWritten(g, b, Some(unityDevice), vlcDevice, size, fails).status == Crashed(NullTexture)
    ensures InitTexture(g, b, Some(unityDevice), vlcDevice, size, fails).status == Aborted(CreateTexture)
  {
  }
}
