/** Sequences of host events driven through the handlers, showing what the
    handlers' contracts give a caller: duplicate device notifications are
    ignored, a destroyed device cannot be set up again, one frame mirrors
    once, and a create-then-resize. */
module Scenarios {
  import opened Common
  import opened Geometry
  import opened SwapChains
  import opened Placement
  import opened Settings
  import opened Actions
  import opened Addon

  /** A second device-ready notification after a successful one changes
      nothing and makes no call. */
  method InitDeviceTwice(m: Mirage, owner: Hwnd, mirror: Hwnd, monitors: seq<Rect>,
                         api2: DeviceApi, owner2: Option<Hwnd>, mirror2: Option<Hwnd>, monitors2: seq<Rect>)
    requires m.ownerWindow == None && m.mirrorWindow == None
    modifies m
    ensures m.ownerWindow == Some(owner) && m.mirrorWindow == Some(mirror)
    ensures m.log == old(m.log) + InitDeviceActions(m.CurrentSettings(), Some(owner), Some(mirror), Point(m.hiddenX, m.hiddenY))
  {
    m.InitDevice(D3D11, Some(owner), Some(mirror), monitors);
    m.InitDevice(api2, owner2, mirror2, monitors2);
  }

  /** Tearing the device down leaves the window handles set, so a new
      device afterwards is not set up: only the teardown calls appear. */
  method DestroyThenInitDevice(m: Mirage, api: DeviceApi, owner: Option<Hwnd>, mirror: Option<Hwnd>, monitors: seq<Rect>)
    requires m.mirrorSwapChain.Some?
    requires m.ownerWindow.Some?
    modifies m
    ensures m.ownerWindow == old(m.ownerWindow) && m.mirrorWindow == old(m.mirrorWindow)
    ensures m.mirrorSwapChain == old(m.mirrorSwapChain)
    ensures m.log == old(m.log) + [ReleaseSwapChain(m.mirrorSwapChain.value.handle), DestroyWindow(m.ownerWindow),
                                   UnregisterWindowClass, Save(m.CurrentSettings())]
  {
    m.DestroyDevice();
    m.InitDevice(api, owner, mirror, monitors);
  }

  /** One frame: the begin hook, then the finish hook. The game's frame is
      copied and the mirror presented exactly once, unless the frame is the
      mirror window's own. */
  method Frame(m: Mirage, runtime: Option<Hwnd>, view: ViewId)
    requires runtime != m.mirrorWindow ==> m.mirrorSwapChain.Some?
    modifies m
    ensures m.mirrorWindow == old(m.mirrorWindow) && m.mirrorSwapChain == old(m.mirrorSwapChain)
    ensures runtime != m.mirrorWindow ==>
      m.log == old(m.log) + [CopyResource(m.mirrorSwapChain.value.handle, view), Present(m.mirrorSwapChain.value.handle, 0, 0)]
    ensures runtime == m.mirrorWindow ==> m.log == old(m.log)
    ensures Count(m.log[|old(m.log)|..], IsCopy) == Count(m.log[|old(m.log)|..], IsPresent) == (if runtime != m.mirrorWindow then 1 else 0)
  {
    ghost var before := m.log;
    m.BeginEffects(runtime, view);
    m.FinishEffects(runtime, view);
    OneCopyPerFrame(m.afterEffects, runtime, m.mirrorWindow, m.mirrorSwapChain, view);
    assert m.log[|before|..] == HookActions(Hook.BeginEffects, m.afterEffects, runtime, m.mirrorWindow, m.mirrorSwapChain, view)
                               + HookActions(Hook.FinishEffects, m.afterEffects, runtime, m.mirrorWindow, m.mirrorSwapChain, view);
  }

  /** The game's swap chain is created at 1920x1080 with 4x multisampling
      and then resized to 2560x1440: the mirror ends up with 2560x1440
      single-sampled buffers, still two of them, and `multisampled` set. */
  method CreateThenResize(m: Mirage, game: Hwnd, source: SwapChainDesc, chain: SwapChainId, client: Rect, client2: Rect)
    requires m.Valid()
    requires m.mirrorWindow != Some(game)
    requires source.width == 1920 && source.height == 1080 && source.sampleCount == 4
    modifies m
    ensures m.Valid() && m.multisampled
    ensures m.mirrorSwapChain.Some? && m.mirrorSwapChain.value.handle == chain
    ensures var d := m.mirrorSwapChain.value.desc;
      d.width == 2560 && d.height == 1440 && d.sampleCount == 1 && d.bufferCount == 2
  {
    m.InitSwapchain(Some(game), source, false, Some(chain), client);
    m.InitSwapchain(Some(game), source.(width := 2560, height := 1440), true, None, client2);
  }

  /** From a hidden window, unticking "Hide window" with the coordinates at
      (50, 50) moves the mirror once, to (50, 50), without activating it,
      and saves once. */
  method ShowAtFiftyFifty(m: Mirage)
    requires m.hideWindow && m.visibleX == 50 && m.visibleY == 50
    modifies m
    ensures !m.hideWindow
    ensures |m.log| == |old(m.log)| + 2
    ensures var acts := m.log[|old(m.log)|..];
      && Count(acts, IsReposition) == 1 && Count(acts, IsSave) == 1
      && acts[0] == SetWindowPos(m.mirrorWindow, 50, 50, 0, 0, SettingsMoveFlags(false))
      && HasFlag(acts[0].flags, SwpNoActivate)
  {
    ghost var before := m.log;
    m.DrawSettings(false, true, None, None);
    SettingsUiEffects(false, true, false, m.mirrorWindow, Point(m.hiddenX, m.hiddenY), m.CurrentSettings());
    assert m.log[|before|..] == SettingsUiActions(false, true, false, m.mirrorWindow, Point(m.hiddenX, m.hiddenY), m.CurrentSettings());
  }

  /** Start-up with an unparsable settings file: the defaults stay and are
      written back at once. */
  method StartWithMalformedSettings() returns (m: Mirage)
    ensures m.CurrentSettings() == Settings(true, true, 0, 0)
    ensures m.log == [Save(Settings(true, true, 0, 0))]
  {
    m := new Mirage();
    m.LoadSettings(Malformed);
  }
}
