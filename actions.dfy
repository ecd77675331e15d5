/** The Win32, DXGI/D3D11, host and settings-file calls the add-on makes,
    as entries of an action log, and the sequences of calls each handler
    makes. */
module Actions {
  import opened Common
  import opened Geometry
  import opened SwapChains
  import opened Placement
  import opened Settings

  datatype Action =
    | RegisterWindowClass
      /** `CreateWindowExW` of the message-only owner window; `handle` is what it returned. */
    | CreateOwnerWindow(handle: Option<Hwnd>)
      /** `CreateWindowExW` of the mirror popup, owned by `owner`. */
    | CreateMirrorWindow(owner: Option<Hwnd>, handle: Option<Hwnd>)
      /** `SetWindowPos(window, HWND_BOTTOM, x, y, cx, cy, flags)` */
    | SetWindowPos(window: Option<Hwnd>, x: int, y: int, cx: int, cy: int, flags: bv32)
      /** The `register_event` calls for the device's events and the overlay. */
    | RegisterEvents
      /** `IDXGIFactory2::CreateSwapChainForHwnd(device, window, &desc, ...)` */
    | CreateSwapChain(window: Option<Hwnd>, desc: SwapChainDesc)
      /** `IDXGISwapChain::ResizeBuffers(count, width, height, format, flags)` */
    | ResizeBuffers(chain: SwapChainId, count: nat, width: nat, height: nat, format: nat, flags: bv32)
      /** `ID3D11DeviceContext::CopyResource` into buffer 0 of `chain` from the resource behind `source`. */
    | CopyResource(chain: SwapChainId, source: ViewId)
      /** `IDXGISwapChain::Present(syncInterval, flags)` */
    | Present(chain: SwapChainId, syncInterval: nat, presentFlags: nat)
    | ReleaseSwapChain(chain: SwapChainId)
    | DestroyWindow(window: Option<Hwnd>)
    | UnregisterWindowClass
      /** `save_settings` writing these values. */
    | Save(settings: Settings)

  predicate IsReposition(a: Action) { a.SetWindowPos? }
  predicate IsCopy(a: Action) { a.CopyResource? }
  predicate IsPresent(a: Action) { a.Present? }
  predicate IsSave(a: Action) { a.Save? }
  predicate IsCreateSwapChain(a: Action) { a.CreateSwapChain? }
  predicate IsResizeBuffers(a: Action) { a.ResizeBuffers? }
  predicate IsRegisterEvents(a: Action) { a.RegisterEvents? }

  /** How many entries of `log` satisfy `p`. */
  function Count(log: seq<Action>, p: Action -> bool): nat
  {
    if log == [] then 0
    else Count(log[..|log| - 1], p) + (if p(log[|log| - 1]) then 1 else 0)
  }

  lemma {:induction false} CountAppend(a: seq<Action>, b: seq<Action>, p: Action -> bool)
    ensures Count(a + b, p) == Count(a, p) + Count(b, p)
  {
    if b != [] {
      var n := |b| - 1;
      assert (a + b)[..|a + b| - 1] == a + b[..n];
      assert (a + b)[|a + b| - 1] == b[n];
      CountAppend(a, b[..n], p);
      assert Count(a + b, p) == Count(a + b[..n], p) + (if p(b[n]) then 1 else 0);
    } else {
      assert a + b == a;
    }
  }

  /** A single entry counts once if it satisfies `p`. */
  lemma CountSingle(x: Action, p: Action -> bool)
    ensures Count([x], p) == if p(x) then 1 else 0
  {
  }

  lemma CountTwo(x: Action, y: Action, p: Action -> bool)
    ensures Count([x, y], p) == (if p(x) then 1 else 0) + (if p(y) then 1 else 0)
  {
    assert [x, y] == [x] + [y];
    CountAppend([x], [y], p);
    CountSingle(x, p);
    CountSingle(y, p);
  }

  lemma CountThree(x: Action, y: Action, z: Action, p: Action -> bool)
    ensures Count([x, y, z], p) == (if p(x) then 1 else 0) + (if p(y) then 1 else 0) + (if p(z) then 1 else 0)
  {
    assert [x, y, z] == [x, y] + [z];
    CountAppend([x, y], [z], p);
    CountTwo(x, y, p);
    CountSingle(z, p);
  }

  /** What `display_changed` does after computing the anchor: move the
      mirror there when the window is hidden, and nothing otherwise. */
  function HideMove(hideWindow: bool, mirror: Option<Hwnd>, anchor: Point): seq<Action>
  {
    if hideWindow then [SetWindowPos(mirror, anchor.x, anchor.y, 0, 0, HiddenMoveFlags())] else []
  }

  /** The calls of a successful `init_device`. */
  function InitDeviceActions(s: Settings, owner: Option<Hwnd>, mirror: Option<Hwnd>, anchor: Point): seq<Action>
  {
    var target := Target(s.hideWindow, anchor.x, anchor.y, s.windowX, s.windowY);
    [RegisterWindowClass, CreateOwnerWindow(owner), CreateMirrorWindow(owner, mirror)]
    + HideMove(s.hideWindow, mirror, anchor)
    + [SetWindowPos(mirror, target.x, target.y, 0, 0, InitialMoveFlags(s.hideWindow)), RegisterEvents]
  }

  /** `init_device` creates the owner and then the mirror owned by it, and
      registers the events once. A visible mirror is positioned once, at
      the user's coordinates, and may activate; a hidden one is moved to
      the anchor twice (by `display_changed` and by the initial placement),
      never activating. The last placement is always at the target. */
  lemma InitDevicePlacement(s: Settings, owner: Option<Hwnd>, mirror: Option<Hwnd>, anchor: Point)
    ensures var acts := InitDeviceActions(s, owner, mirror, anchor);
      && acts[1] == CreateOwnerWindow(owner) && acts[2] == CreateMirrorWindow(owner, mirror)
      && Count(acts, IsRegisterEvents) == 1
      && Count(acts, IsReposition) == (if s.hideWindow then 2 else 1)
      && (forall i :: 0 <= i < |acts| && acts[i].SetWindowPos? ==>
            && acts[i].window == mirror
            && MovesWithoutResizing(acts[i].flags)
            && (HasFlag(acts[i].flags, SwpNoActivate) <==> s.hideWindow)
            && (s.hideWindow ==> acts[i].x == anchor.x && acts[i].y == anchor.y)
            && (!s.hideWindow ==> acts[i].x == s.windowX && acts[i].y == s.windowY))
  {
    var target := Target(s.hideWindow, anchor.x, anchor.y, s.windowX, s.windowY);
    var head := [RegisterWindowClass, CreateOwnerWindow(owner), CreateMirrorWindow(owner, mirror)];
    var hideMove := HideMove(s.hideWindow, mirror, anchor);
    var tail := [SetWindowPos(mirror, target.x, target.y, 0, 0, InitialMoveFlags(s.hideWindow)), RegisterEvents];
    assert InitDeviceActions(s, owner, mirror, anchor) == head + hideMove + tail;
    CountAppend(head, hideMove, IsRegisterEvents);
    CountAppend(head + hideMove, tail, IsRegisterEvents);
    CountAppend(head, hideMove, IsReposition);
    CountAppend(head + hideMove, tail, IsReposition);
    CountThree(head[0], head[1], head[2], IsRegisterEvents);
    CountThree(head[0], head[1], head[2], IsReposition);
    CountTwo(tail[0], tail[1], IsRegisterEvents);
    CountTwo(tail[0], tail[1], IsReposition);
    if s.hideWindow {
      CountSingle(hideMove[0], IsRegisterEvents);
      CountSingle(hideMove[0], IsReposition);
    }
  }

  /** The calls of `init_swapchain` for a swap chain other than the
      mirror's: creation or resize of the mirror's buffers, then sizing the
      mirror window to the game's client area. */
  function SwapchainActions(resize: bool, chain: Option<SwapChain>, mirror: Option<Hwnd>,
                            source: SwapChainDesc, client: Rect): seq<Action>
    requires resize ==> chain.Some?
  {
    (if resize then [ResizeBuffers(chain.value.handle, 0, source.width, source.height, source.format, 0)]
     else [CreateSwapChain(mirror, MirrorDesc(source))])
    + [SetWindowPos(mirror, 0, 0, client.right, client.bottom, ResizeFlags())]
  }

  /** The resize path resizes in place, keeping the buffer count and
      creating no swap chain; the create path creates exactly one swap
      chain for the mirror window. Both end by sizing, never moving, the
      mirror window to the game's client rectangle. */
  lemma SwapchainPaths(resize: bool, chain: Option<SwapChain>, mirror: Option<Hwnd>,
                       source: SwapChainDesc, client: Rect)
    requires resize ==> chain.Some?
    ensures var acts := SwapchainActions(resize, chain, mirror, source, client);
      && Count(acts, IsCreateSwapChain) == (if resize then 0 else 1)
      && Count(acts, IsResizeBuffers) == (if resize then 1 else 0)
      && (resize ==> acts[0].count == 0 && acts[0].width == source.width &&
                     acts[0].height == source.height && acts[0].format == source.format)
      && (!resize ==> acts[0].window == mirror && MirrorShape(acts[0].desc) && SameImage(acts[0].desc, source))
      && Count(acts, IsReposition) == 1
      && acts[|acts| - 1].window == mirror
      && acts[|acts| - 1].cx == client.right && acts[|acts| - 1].cy == client.bottom
      && HasFlag(acts[|acts| - 1].flags, SwpNoMove) && HasFlag(acts[|acts| - 1].flags, SwpNoActivate)
  {
    var acts := SwapchainActions(resize, chain, mirror, source, client);
    CountTwo(acts[0], acts[1], IsCreateSwapChain);
    CountTwo(acts[0], acts[1], IsResizeBuffers);
    CountTwo(acts[0], acts[1], IsReposition);
  }

  /** The two per-frame hooks: `reshade_begin_effects` runs before the
      effects, `reshade_finish_effects` after them. */
  datatype Hook = BeginEffects | FinishEffects

  /** Whether a hook does the copy: the begin hook when mirroring before
      the effects, the finish hook when mirroring after them, and neither
      for the mirror window's own runtime. */
  predicate HookActive(hook: Hook, afterEffects: bool, runtime: Option<Hwnd>, mirror: Option<Hwnd>) {
    (if hook == BeginEffects then !afterEffects else afterEffects) && runtime != mirror
  }

  function HookActions(hook: Hook, afterEffects: bool, runtime: Option<Hwnd>, mirror: Option<Hwnd>,
                       chain: Option<SwapChain>, view: ViewId): seq<Action>
    requires HookActive(hook, afterEffects, runtime, mirror) ==> chain.Some?
  {
    if HookActive(hook, afterEffects, runtime, mirror)
    then [CopyResource(chain.value.handle, view), Present(chain.value.handle, 0, 0)]
    else []
  }

  /** Over one frame (the begin hook, then the finish hook), exactly one
      copy followed by one unsynchronised present happens, whichever the
      timing; for the mirror window's own runtime, none. */
  lemma OneCopyPerFrame(afterEffects: bool, runtime: Option<Hwnd>, mirror: Option<Hwnd>,
                        chain: Option<SwapChain>, view: ViewId)
    requires runtime != mirror ==> chain.Some?
    ensures HookActive(BeginEffects, afterEffects, runtime, mirror) <==> !afterEffects && runtime != mirror
    ensures HookActive(FinishEffects, afterEffects, runtime, mirror) <==> afterEffects && runtime != mirror
    ensures var frame := HookActions(BeginEffects, afterEffects, runtime, mirror, chain, view)
                       + HookActions(FinishEffects, afterEffects, runtime, mirror, chain, view);
      && Count(frame, IsCopy) == (if runtime != mirror then 1 else 0)
      && Count(frame, IsPresent) == (if runtime != mirror then 1 else 0)
      && (runtime != mirror ==> frame == [CopyResource(chain.value.handle, view), Present(chain.value.handle, 0, 0)])
  {
    var b := HookActions(BeginEffects, afterEffects, runtime, mirror, chain, view);
    var f := HookActions(FinishEffects, afterEffects, runtime, mirror, chain, view);
    CountAppend(b, f, IsCopy);
    CountAppend(b, f, IsPresent);
    if runtime != mirror {
      var cp := [CopyResource(chain.value.handle, view), Present(chain.value.handle, 0, 0)];
      CountTwo(cp[0], cp[1], IsCopy);
      CountTwo(cp[0], cp[1], IsPresent);
      assert b + f == cp;
    } else {
      assert b + f == [];
    }
  }

  /** The calls `draw_settings` makes once the controls have been drawn:
      `s` are the settings after the controls, `hidden` the anchor. */
  function SettingsUiActions(afterClicked: bool, hideClicked: bool, positionEdited: bool,
                             mirror: Option<Hwnd>, hidden: Point, s: Settings): seq<Action>
  {
    var update := hideClicked || positionEdited;
    var activate := hideClicked && s.hideWindow;
    var target := Target(s.hideWindow, hidden.x, hidden.y, s.windowX, s.windowY);
    (if update then [SetWindowPos(mirror, target.x, target.y, 0, 0, SettingsMoveFlags(activate))] else [])
    + (if afterClicked || update then [Save(s)] else [])
  }

  /** The settings overlay repositions the mirror exactly once when "Hide
      window" was toggled or a coordinate was edited, and otherwise not at
      all; the position is the anchor when hidden and the coordinates when
      visible; activation is allowed only right after hiding. It saves the
      new settings exactly once when any control changed. */
  lemma SettingsUiEffects(afterClicked: bool, hideClicked: bool, positionEdited: bool,
                          mirror: Option<Hwnd>, hidden: Point, s: Settings)
    ensures var acts := SettingsUiActions(afterClicked, hideClicked, positionEdited, mirror, hidden, s);
      && Count(acts, IsReposition) == (if hideClicked || positionEdited then 1 else 0)
      && Count(acts, IsSave) == (if afterClicked || hideClicked || positionEdited then 1 else 0)
      && (forall i :: 0 <= i < |acts| && acts[i].Save? ==> acts[i].settings == s)
      && (forall i :: 0 <= i < |acts| && acts[i].SetWindowPos? ==>
            && acts[i].window == mirror
            && MovesWithoutResizing(acts[i].flags)
            && (!HasFlag(acts[i].flags, SwpNoActivate) <==> hideClicked && s.hideWindow)
            && (s.hideWindow ==> acts[i].x == hidden.x && acts[i].y == hidden.y)
            && (!s.hideWindow ==> acts[i].x == s.windowX && acts[i].y == s.windowY))
  {
    var update := hideClicked || positionEdited;
    var target := Target(s.hideWindow, hidden.x, hidden.y, s.windowX, s.windowY);
    var move := if update then [SetWindowPos(mirror, target.x, target.y, 0, 0, SettingsMoveFlags(hideClicked && s.hideWindow))] else [];
    var save := if afterClicked || update then [Save(s)] else [];
    var acts := SettingsUiActions(afterClicked, hideClicked, positionEdited, mirror, hidden, s);
    if update {
      assert acts == [move[0], Save(s)];
      CountTwo(move[0], Save(s), IsReposition);
      CountTwo(move[0], Save(s), IsSave);
      assert MovesWithoutResizing(move[0].flags);
    } else if afterClicked {
      assert acts == [Save(s)];
      CountSingle(Save(s), IsReposition);
      CountSingle(Save(s), IsSave);
    } else {
      assert acts == [];
    }
  }
}
