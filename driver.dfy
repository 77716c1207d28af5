/** The Direct3D 11 / DXGI runtime, as far as the render plug-in can observe it.
    Every COM reference or OS handle the plug-in obtains is an abstract handle; the
    runtime remembers which handles are still held (live), what kind of object each
    one names, and every release the plug-in has issued, in order. */
module Driver {

  /** The C `unsigned` / `UINT` used for frame dimensions. */
  newtype u32 = x: int | 0 <= x < 0x1_0000_0000

  datatype Option<T> = None | Some(value: T)

  /** A COM interface pointer or an OS handle; `None` plays the part of `nullptr`. */
  type Handle = nat

  datatype Size = Size(width: u32, height: u32)

  /** What a handle names. Both textures of a shared pair carry their size. */
  datatype Kind =
    | Device
    | DeviceContext
    | Interface          // a temporary QueryInterface result
    | Texture(size: Size)
    | SharedHandle
    | ShaderView
    | RenderTargetView

  /** `next` is the next handle the runtime hands out; handles are never reused. */
  datatype Runtime = Runtime(next: Handle, live: set<Handle>, kind: map<Handle, Kind>, released: seq<Handle>)

  const Fresh: Runtime := Runtime(0, {}, map[], [])

  /** Every handle that was ever handed out is below `next`, and every live one has a kind. */
  predicate WellFormed(g: Runtime)
  {
    && (forall h :: h in g.live ==> h in g.kind)
    && (forall h :: h in g.kind ==> h < g.next)
    && (forall i :: 0 <= i < |g.released| ==> g.released[i] < g.next)
  }

  predicate Distinct(s: seq<Handle>)
  {
    forall i, j :: 0 <= i < j < |s| ==> s[i] != s[j]
  }

  /** Each handle has been released at most once, and a released handle is no longer held. */
  predicate NoDoubleRelease(g: Runtime)
  {
    Distinct(g.released) && forall i :: 0 <= i < |g.released| ==> g.released[i] !in g.live
  }

  /** The kinds of the handles known to `g` are still known, unchanged, in `g'`. */
  predicate KindsKept(g: Runtime, g': Runtime)
  {
    forall h :: h in g.kind ==> h in g'.kind && g'.kind[h] == g.kind[h]
  }

  /** A successful creation call (or QueryInterface): a brand-new handle of kind `k`. */
  function Acquire(g: Runtime, k: Kind): (r: (Runtime, Handle))
    ensures r.1 >= g.next && r.1 in r.0.live && r.1 in r.0.kind && r.0.kind[r.1] == k
    ensures g.next < r.0.next && r.0.live == g.live + {r.1} && r.0.released == g.released
    ensures WellFormed(g) ==> r.1 !in g.live && WellFormed(r.0) && KindsKept(g, r.0)
    ensures WellFormed(g) && NoDoubleRelease(g) ==> NoDoubleRelease(r.0)
  {
    var h := g.next;
    (g.(next := h + 1, live := g.live + {h}, kind := g.kind[h := k]), h)
  }

  /** `Release()` on a COM reference or `CloseHandle` on an OS handle. It is recorded
      whether or not the handle is still held, so that a second release shows up in the log. */
  function Release(g: Runtime, h: Handle): (r: Runtime)
    ensures h !in r.live && |r.released| > 0 && r.released[|r.released| - 1] == h
    ensures r.live == g.live - {h} && r.released == g.released + [h] && r.next == g.next && r.kind == g.kind
    ensures WellFormed(g) && NoDoubleRelease(g) && h in g.live ==> WellFormed(r) && NoDoubleRelease(r)
  {
    g.(live := g.live - {h}, released := g.released + [h])
  }
}
