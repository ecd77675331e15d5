/** The add-on's process-wide state and its event handlers: the globals
    become the fields of `Mirage`, and the Win32, DXGI/D3D11, host and
    settings-file calls that decide what a handler does are appended to
    `log` (reference-count `Release`s and log messages are not). */
module Addon {
  import opened Common
  import opened Geometry
  import opened SwapChains
  import opened Placement
  import opened Settings
  import opened Actions

  /** `reshade::api::device_api` */
  datatype DeviceApi = D3D9 | D3D10 | D3D11 | D3D12 | OpenGL | Vulkan

  /** `init_device` sets nothing up for a non-D3D11 device or once either
      window handle is non-null. */
  predicate InitDeviceIgnored(api: DeviceApi, owner: Option<Hwnd>, mirror: Option<Hwnd>) {
    api != D3D11 || owner.Some? || mirror.Some?
  }

  class Mirage {
    var ownerWindow: Option<Hwnd>
    var mirrorWindow: Option<Hwnd>
    var mirrorSwapChain: Option<SwapChain>
    var hiddenX: int
    var hiddenY: int
    var multisampled: bool

    var afterEffects: bool
    var hideWindow: bool
    var visibleX: int
    var visibleY: int

    /** The calls made so far, oldest first. */
    var log: seq<Action>

    /** Every mirror swap chain the add-on holds has the forced mirror shape. */
    ghost predicate Valid()
      reads this`mirrorSwapChain
    {
      mirrorSwapChain.Some? ==> MirrorShape(mirrorSwapChain.value.desc)
    }

    function CurrentSettings(): Settings
      reads this`afterEffects, this`hideWindow, this`visibleX, this`visibleY
    {
      Settings(afterEffects, hideWindow, visibleX, visibleY)
    }

    /** The globals at load time: null handles, zero anchor, default settings. */
    constructor ()
      ensures Valid()
      ensures ownerWindow == None && mirrorWindow == None && mirrorSwapChain == None
      ensures hiddenX == 0 && hiddenY == 0 && !multisampled
      ensures CurrentSettings() == Defaults
      ensures log == []
    {
      ownerWindow, mirrorWindow, mirrorSwapChain := None, None, None;
      hiddenX, hiddenY, multisampled := 0, 0, false;
      afterEffects, hideWindow, visibleX, visibleY := true, true, 0, 0;
      log := [];
    }

    /** `save_settings`: writes the current settings. */
    method SaveSettings()
      modifies this`log
      ensures log == old(log) + [Save(CurrentSettings())]
    {
      log := log + [Save(CurrentSettings())];
    }

    /** The settings part of `load_settings` (the settings path is computed
        before it and is not modelled): the keys are read in order inside a
        `try`; an `invalid_argument` from `ini::open` or from a `get` ends
        the block, keeping what was read so far; a save always follows. */
    method LoadSettings(file: IniFile)
      modifies this`afterEffects, this`hideWindow, this`visibleX, this`visibleY, this`log
      ensures CurrentSettings() == Loaded(old(CurrentSettings()), file)
      ensures log == old(log) + [Save(CurrentSettings())]
    {
      if file.Parsed? {
        var section := file.section;
        var thrown := false;
        match section.afterEffects {
          case Unparsable => thrown := true;
          case Readable(v) => afterEffects := v;
          case Absent =>
        }
        if !thrown {
          match section.hideWindow {
            case Unparsable => thrown := true;
            case Readable(v) => hideWindow := v;
            case Absent =>
          }
        }
        if !thrown {
          match section.windowX {
            case Unparsable => thrown := true;
            case Readable(v) => visibleX := v;
            case Absent =>
          }
        }
        if !thrown {
          match section.windowY {
            case Unparsable => thrown := true;
            case Readable(v) => visibleY := v;
            case Absent =>
          }
        }
      }
      SaveSettings();
    }

    /** `display_changed`: the anchor is recomputed from the monitors, and a
        hidden mirror window is moved there without activation. */
    method DisplayChanged(monitors: seq<Rect>)
      modifies this`hiddenX, this`hiddenY, this`log
      ensures Point(hiddenX, hiddenY) == AnchorBelow(UnionAll(monitors))
      ensures log == old(log) + HideMove(hideWindow, mirrorWindow, Point(hiddenX, hiddenY))
    {
      var display := EnumerateDisplayUnion(monitors);
      hiddenX := display.left;
      hiddenY := display.bottom + HiddenMargin;
      if hideWindow {
        log := log + [SetWindowPos(mirrorWindow, hiddenX, hiddenY, 0, 0, HiddenMoveFlags())];
      }
    }

    /** `WM_DISPLAYCHANGE` in `wnd_proc`: handled only when it reaches the
        owner window. */
    method OnDisplayChange(window: Option<Hwnd>, monitors: seq<Rect>)
      modifies this`hiddenX, this`hiddenY, this`log
      ensures window != ownerWindow ==> hiddenX == old(hiddenX) && hiddenY == old(hiddenY) && log == old(log)
      ensures window == ownerWindow ==> Point(hiddenX, hiddenY) == AnchorBelow(UnionAll(monitors))
      ensures window == ownerWindow ==> log == old(log) + HideMove(hideWindow, mirrorWindow, Point(hiddenX, hiddenY))
    {
      if window == ownerWindow {
        DisplayChanged(monitors);
      }
    }

    /** `init_device`. `ownerCreated` and `mirrorCreated` are what the two
        `CreateWindowExW` calls return; `monitors` is what
        `EnumDisplayMonitors` enumerates. */
    method InitDevice(api: DeviceApi, ownerCreated: Option<Hwnd>, mirrorCreated: Option<Hwnd>, monitors: seq<Rect>)
      modifies this`ownerWindow, this`mirrorWindow, this`hiddenX, this`hiddenY, this`log
      ensures InitDeviceIgnored(api, old(ownerWindow), old(mirrorWindow)) ==>
        && ownerWindow == old(ownerWindow) && mirrorWindow == old(mirrorWindow)
        && hiddenX == old(hiddenX) && hiddenY == old(hiddenY) && log == old(log)
      ensures !InitDeviceIgnored(api, old(ownerWindow), old(mirrorWindow)) ==>
        && ownerWindow == ownerCreated && mirrorWindow == mirrorCreated
        && Point(hiddenX, hiddenY) == AnchorBelow(UnionAll(monitors))
        && log == old(log) + InitDeviceActions(CurrentSettings(), ownerCreated, mirrorCreated, Point(hiddenX, hiddenY))
    {
      if api != D3D11 { return; }
      if ownerWindow != None || mirrorWindow != None { return; }

      log := log + [RegisterWindowClass];
      ownerWindow := ownerCreated;
      log := log + [CreateOwnerWindow(ownerWindow)];
      mirrorWindow := mirrorCreated;
      log := log + [CreateMirrorWindow(ownerWindow, mirrorWindow)];

      DisplayChanged(monitors);

      var windowX := if hideWindow then hiddenX else visibleX;
      var windowY := if hideWindow then hiddenY else visibleY;
      var flags := SwpNoSize | SwpNoZOrder | SwpShowWindow | (if hideWindow then SwpNoActivate else 0);
      log := log + [SetWindowPos(mirrorWindow, windowX, windowY, 0, 0, flags), RegisterEvents];
    }

    /** `destroy_device`. The swap chain is released without a null check,
        so the caller must have created one. Destroying the owner also
        destroys the mirror window it owns. No handle is reset. */
    method DestroyDevice()
      requires mirrorSwapChain.Some?
      modifies this`log
      ensures log == old(log) + [ReleaseSwapChain(mirrorSwapChain.value.handle), DestroyWindow(ownerWindow),
                                 UnregisterWindowClass, Save(CurrentSettings())]
    {
      log := log + [ReleaseSwapChain(mirrorSwapChain.value.handle), DestroyWindow(ownerWindow), UnregisterWindowClass];
      SaveSettings();
    }

    /** `init_swapchain`. `window` is the swap chain's window, `source` its
        descriptor, `created` what `CreateSwapChainForHwnd` hands back and
        `client` the game window's client rectangle. The resize path
        dereferences the mirror swap chain without a null check. */
    method InitSwapchain(window: Option<Hwnd>, source: SwapChainDesc, resize: bool,
                         created: Option<SwapChainId>, client: Rect)
      requires Valid()
      requires window != mirrorWindow && resize ==> mirrorSwapChain.Some?
      modifies this`mirrorSwapChain, this`multisampled, this`log
      ensures Valid()
      ensures window == mirrorWindow ==>
        mirrorSwapChain == old(mirrorSwapChain) && multisampled == old(multisampled) && log == old(log)
      ensures window != mirrorWindow ==>
        log == old(log) + SwapchainActions(resize, old(mirrorSwapChain), mirrorWindow, source, client)
      ensures window != mirrorWindow && resize ==>
        && mirrorSwapChain.Some? && mirrorSwapChain.value.handle == old(mirrorSwapChain).value.handle
        && mirrorSwapChain.value.desc == ResizedDesc(old(mirrorSwapChain).value.desc, 0, source.width, source.height, source.format, 0)
        && multisampled == old(multisampled)
      ensures window != mirrorWindow && !resize ==>
        && mirrorSwapChain == (if created.Some? then Some(SwapChain(created.value, MirrorDesc(source))) else None)
        && multisampled == (source.sampleCount > 1)
      ensures window != mirrorWindow && mirrorSwapChain.Some? ==> SameImage(mirrorSwapChain.value.desc, source)
    {
      if window == mirrorWindow { return; }

      if resize {
        var chain := mirrorSwapChain.value;
        log := log + [ResizeBuffers(chain.handle, 0, source.width, source.height, source.format, 0)];
        mirrorSwapChain := Some(chain.(desc := ResizedDesc(chain.desc, 0, source.width, source.height, source.format, 0)));
        ResizeKeepsMirrorShape(chain.desc, source);
      } else {
        var mirrorDesc := MirrorDesc(source);
        log := log + [CreateSwapChain(mirrorWindow, mirrorDesc)];
        mirrorSwapChain := if created.Some? then Some(SwapChain(created.value, mirrorDesc)) else None;
        multisampled := source.sampleCount > 1;
      }

      log := log + [SetWindowPos(mirrorWindow, 0, 0, client.right, client.bottom,
                                 SwpNoMove | SwpNoZOrder | SwpNoActivate | SwpShowWindow)];
    }

    /** Copy the game's render target into the mirror's back buffer and
        present the mirror without waiting for vertical sync. */
    method CopyAndPresent(view: ViewId)
      requires mirrorSwapChain.Some?
      modifies this`log
      ensures log == old(log) + [CopyResource(mirrorSwapChain.value.handle, view), Present(mirrorSwapChain.value.handle, 0, 0)]
    {
      var chain := mirrorSwapChain.value.handle;
      log := log + [CopyResource(chain, view)];
      log := log + [Present(chain, 0, 0)];
    }

    /** `reshade_begin_effects`: acts only when mirroring before the effects,
        and never for the mirror window's own runtime. */
    method BeginEffects(runtime: Option<Hwnd>, view: ViewId)
      requires HookActive(Hook.BeginEffects, afterEffects, runtime, mirrorWindow) ==> mirrorSwapChain.Some?
      modifies this`log
      ensures log == old(log) + HookActions(Hook.BeginEffects, afterEffects, runtime, mirrorWindow, mirrorSwapChain, view)
    {
      if afterEffects || runtime == mirrorWindow { return; }
      CopyAndPresent(view);
    }

    /** `reshade_finish_effects`: acts only when mirroring after the
        effects, and never for the mirror window's own runtime. */
    method FinishEffects(runtime: Option<Hwnd>, view: ViewId)
      requires HookActive(Hook.FinishEffects, afterEffects, runtime, mirrorWindow) ==> mirrorSwapChain.Some?
      modifies this`log
      ensures log == old(log) + HookActions(Hook.FinishEffects, afterEffects, runtime, mirrorWindow, mirrorSwapChain, view)
    {
      if !afterEffects || runtime == mirrorWindow { return; }
      CopyAndPresent(view);
    }

    /** `draw_settings`. `afterClicked` and `hideClicked` are whether the two
        checkboxes were clicked (a click toggles the setting); `xEdit` and
        `yEdit` are the values the two integer fields report as changed. */
    method DrawSettings(afterClicked: bool, hideClicked: bool, xEdit: Option<int>, yEdit: Option<int>)
      modifies this`afterEffects, this`hideWindow, this`visibleX, this`visibleY, this`log
      ensures afterEffects == (old(afterEffects) != afterClicked)
      ensures hideWindow == (old(hideWindow) != hideClicked)
      ensures visibleX == xEdit.GetOr(old(visibleX)) && visibleY == yEdit.GetOr(old(visibleY))
      ensures log == old(log) + SettingsUiActions(afterClicked, hideClicked, xEdit.Some? || yEdit.Some?,
                                                  mirrorWindow, Point(hiddenX, hiddenY), CurrentSettings())
    {
      var settingsChanged := afterClicked;
      if afterClicked { afterEffects := !afterEffects; }
      var updateWindow := hideClicked;
      if hideClicked { hideWindow := !hideWindow; }
      var activate := updateWindow && hideWindow;
      if xEdit.Some? { visibleX := xEdit.value; }
      updateWindow := updateWindow || xEdit.Some?;
      if yEdit.Some? { visibleY := yEdit.value; }
      updateWindow := updateWindow || yEdit.Some?;
      settingsChanged := settingsChanged || updateWindow;

      if updateWindow {
        var windowX := if hideWindow then hiddenX else visibleX;
        var windowY := if hideWindow then hiddenY else visibleY;
        var flags := SwpNoSize | SwpNoZOrder | SwpShowWindow | (if activate then 0 else SwpNoActivate);
        log := log + [SetWindowPos(mirrorWindow, windowX, windowY, 0, 0, flags)];
      }

      if settingsChanged { SaveSettings(); }
    }
  }
}
