# Mirage: a Dafny model of the mirroring add-on

Mirage is a ReShade add-on for Direct3D 11 games. It copies the game's back
buffer into a second swap chain, each frame. That swap chain belongs to a
"mirror" window, which capture software can record without the overlays
drawn on the game window. The mirror window is usually parked just below the
virtual desktop: it stays a real, capturable window that no monitor shows.

This project models the decision logic of `mirage.cpp`, with the Win32,
DXGI/D3D11 and ImGui calls taken out:

- **Lifecycle.** The process-wide globals are the fields of the class
  `Addon.Mirage`: the owner window, the mirror window, the mirror swap chain,
  the hidden anchor, `multisampled` and the four settings. Each event handler
  is a method with a `modifies` frame. The outside calls that decide what
  the add-on does (`SetWindowPos`, `CreateSwapChainForHwnd`, `ResizeBuffers`,
  `CopyResource`, `Present`, the swap chain's `Release` in `destroy_device`,
  `DestroyWindow`, `save_settings`, ...) are appended to the field `log` as
  `Actions.Action`s. The contracts therefore state exactly which of these
  calls happen, with which arguments, and in what order. The reference-count
  `Release`s of temporary COM objects and the `reshade::log::message` calls
  are not logged (see "Left out").
- **Mirror descriptor.** `SwapChains.MirrorDesc` copies the game's
  `DXGI_SWAP_CHAIN_DESC1` and forces some fields. `SwapChains.ResizedDesc`
  gives what `ResizeBuffers` does to a descriptor. `SwapChains.MirrorShape`
  is the invariant every mirror keeps, and `Mirage.Valid()` carries it.
- **Hidden anchor.** `Geometry` models Win32 `UnionRect` and the fold that
  `display_changed` runs over the monitors. The anchor is the union's left
  edge and its bottom edge plus 100. The model proves that the anchor lies
  below every monitor.
- **Per-frame dispatch.** There are two hooks, before and after the effects.
  The `after_effects` setting selects the one that copies and presents.
  Neither hook acts for the mirror window's own runtime.
- **Settings.** `load_settings` and `draw_settings` change the four settings
  and decide when to reposition the window and when to save.

The module `Scenarios` drives the handlers through event sequences. Examples
are a duplicate device notification, teardown followed by a new device, one
frame, and a create-then-resize.

Handles (`HWND`, `IDXGISwapChain1*`, resource views) are abstract ids. A null
handle is `None`. Values that come from the OS or the GPU are parameters of
the handler that receives them:
- the handles that `CreateWindowExW` returns;
- the monitor rectangles that `EnumDisplayMonitors` reports;
- the game's swap-chain descriptor and its client rectangle;
- the handle that `CreateSwapChainForHwnd` returns;
- the outcome of the checkboxes and integer fields;
- the parsed settings file.

Quirks of the code are kept as written:
- `destroy_device` never resets the handles to null, so the guard in
  `init_device` blocks any later set-up (`Scenarios.DestroyThenInitDevice`).
- `destroy_device` releases the swap chain without a null check. The model
  makes this a precondition of `DestroyDevice` instead of a guard.
- `ResizeBuffers` is called on the mirror swap chain unchecked. The model
  makes this a precondition of the resize path of `InitSwapchain`.
- The two per-frame hooks call `GetBuffer` and `Present` on the mirror swap
  chain unchecked. The model makes this a precondition of `BeginEffects`,
  `FinishEffects` and `CopyAndPresent` whenever the hook acts.

`display_rect` in `display_changed` is left uninitialised in the source. The
model assumes the fold starts from the empty rectangle. Win32 `UnionRect`
ignores empty operands, so the result is the bounding box of the monitors,
or `(0, 100)` when there are none.

## Model

| member | source | states |
|---|---|---|
| Geometry.UnionRect | mirage.cpp:92 | Win32 `UnionRect`: the result is empty exactly when both operands are, and it is then the zero rectangle; it contains each non-empty operand, and each of its edges is an edge of a non-empty operand |
| Geometry.UnionAllIsBoundingBox | mirage.cpp:86-95 | folding `UnionRect` over the monitors from the empty rectangle gives the empty rectangle exactly when no monitor has an area, and otherwise the bounding box of the monitors (contains every one, each edge attained by one) |
| Geometry.EnumerateDisplayUnion | mirage.cpp:86-95 | the enumeration loop accumulates exactly that fold; the result is empty iff every monitor is |
| Geometry.AnchorHidesFromAllMonitors | mirage.cpp:96-97 | the anchor (union left, union bottom + 100) is covered by no monitor and lies at least 100 below each one; its x is the leftmost monitor edge; with no monitor it is (0, 100) |
| Geometry.SideBySideAnchor | mirage.cpp:84-97 | monitors (0,0,1920,1080) and (1920,0,3840,1080) give the anchor (0, 1180) |
| Placement.HiddenMoveFlags | mirage.cpp:101-102 | the move to the anchor does not resize, keeps the z-order, shows, and never activates |
| Placement.InitialMoveFlags | mirage.cpp:151 | the first placement moves without resizing, keeps the z-order, shows, and suppresses activation exactly when the window is hidden |
| Placement.SettingsMoveFlags | mirage.cpp:272 | a reposition from the settings overlay moves without resizing and suppresses activation exactly when not `activate` |
| Placement.ResizeFlags | mirage.cpp:208-209 | sizing the mirror window does not move it, keeps the z-order, does not activate and shows it |
| SwapChains.MirrorDesc | mirage.cpp:190-197 | the mirror descriptor keeps the game's width, height, format and alpha mode and is mono, single-sampled (quality 0), render-target output, two buffers, no scaling, flip-discard, no flags |
| SwapChains.ResizedDesc | mirage.cpp:181 | `ResizeBuffers`: a count of 0 keeps the buffer count; size, format and flags are replaced; every other field is unchanged |
| SwapChains.ResizeKeepsMirrorShape | mirage.cpp:181 | resizing a mirror with count 0 to the game's size and format keeps it a mirror and makes its size and format match the game's |
| SwapChains.MirrorCopyCompatibleIffSingleSampled | mirage.cpp:200 | a fresh mirror can take a plain copy of the game's back buffer exactly when the game is not multisampled, which is what `multisampled` records |
| SwapChains.ResizeExample | mirage.cpp:181-197 | a mirror of a 4x multisampled 1920x1080 game resized to 2560x1440 has 2560x1440 buffers, one sample, two buffers |
| Settings.Saved | mirage.cpp:42-46 | `save_settings` writes all four keys |
| Settings.LoadedKeyByKey | mirage.cpp:68-79 | after loading, each setting takes the file's value exactly when its key is readable and no key read before it was unparsable, and keeps its old value otherwise |
| Settings.SaveLoadRoundTrip | mirage.cpp:43-76 | loading what was saved gives back the saved settings, whatever the settings were before |
| Settings.MissingOrMalformedKeepsSettings | mirage.cpp:68-79 | a malformed file, or one with none of the keys, leaves every setting as it was, so at start-up the defaults (true, true, 0, 0) of mirage.cpp:30-33 stay |
| Actions.InitDevicePlacement | mirage.cpp:142-158 | set-up creates the owner and then the mirror owned by it, and registers the events once; a visible mirror is positioned once at the user's coordinates and may activate; a hidden mirror is moved to the anchor twice without activating |
| Actions.SwapchainPaths | mirage.cpp:181-209 | the resize path makes one `ResizeBuffers` with count 0 and the game's size and format, and creates no swap chain; the create path creates one mirror-shaped swap chain of the game's size for the mirror window; both then size the mirror window to the game's client rectangle without moving or activating it |
| Actions.OneCopyPerFrame | mirage.cpp:215-251 | the begin hook acts iff mirroring before the effects, and the finish hook iff mirroring after them; over one frame there is exactly one copy followed by one `Present(0, 0)`, or none for the mirror's own runtime |
| Actions.SettingsUiEffects | mirage.cpp:256-276 | the overlay repositions exactly once iff "Hide window" or X/Y changed, at the anchor when hidden and at X/Y otherwise; activation is allowed only right after hiding; it saves the new settings exactly once iff any control changed |
| Addon.Mirage.constructor | mirage.cpp:21-33 | the globals start as null handles, a zero anchor, `multisampled` false and the default settings |
| Addon.Mirage.SaveSettings | mirage.cpp:37-49 | appends one save of the current settings |
| Addon.Mirage.LoadSettings | mirage.cpp:68-81 | the settings become the result of the key-by-key load of the file, and one save of the result always follows |
| Addon.Mirage.DisplayChanged | mirage.cpp:84-104 | the anchor becomes the union's left edge and its bottom edge plus 100; a hidden mirror window is moved there once; a visible one is not touched |
| Addon.Mirage.OnDisplayChange | mirage.cpp:111-113 | a display change runs `display_changed` only when it reaches the owner window, and does nothing otherwise |
| Addon.Mirage.InitDevice | mirage.cpp:127-159 | a non-D3D11 device, or a non-null window handle, changes nothing and makes no call; otherwise the handles are those created, the anchor is recomputed, and the calls are those of `InitDevicePlacement` |
| Addon.Mirage.DestroyDevice | mirage.cpp:161-170 | requires a mirror swap chain (released unchecked); releases it, destroys the owner window, unregisters the class and saves, leaving every handle as it was |
| Addon.Mirage.InitSwapchain | mirage.cpp:172-210 | the mirror's own swap chain is ignored; otherwise it creates (setting `multisampled` to sample count > 1) or resizes the mirror with the calls of `SwapchainPaths`; the mirror keeps its shape and matches the game's size and format |
| Addon.Mirage.CopyAndPresent | mirage.cpp:217-230 | copies into the mirror's buffer, then presents it with sync interval 0 and no flags |
| Addon.Mirage.BeginEffects | mirage.cpp:212-231 | acts (copy then present) only when mirroring before the effects and the runtime is not the mirror's |
| Addon.Mirage.FinishEffects | mirage.cpp:233-252 | acts (copy then present) only when mirroring after the effects and the runtime is not the mirror's |
| Addon.Mirage.DrawSettings | mirage.cpp:254-277 | a click toggles a checkbox setting; an edit sets a coordinate; the calls are those of `SettingsUiEffects` |
| Scenarios.InitDeviceTwice | mirage.cpp:129-130 | a second device-ready notification after a successful set-up makes no call and changes no handle |
| Scenarios.DestroyThenInitDevice | mirage.cpp:161-170 | after teardown the handles are still set, so a new device is not set up: only the teardown calls appear |
| Scenarios.Frame | mirage.cpp:212-252 | one frame makes exactly one copy and one present, or none for the mirror's own runtime |
| Scenarios.CreateThenResize | mirage.cpp:181-200 | creating for a 4x multisampled 1920x1080 game and then resizing to 2560x1440 leaves a 2560x1440 single-sampled mirror with two buffers and `multisampled` set |
| Scenarios.ShowAtFiftyFifty | mirage.cpp:257-274 | unhiding with the coordinates at (50, 50) repositions once, to (50, 50), without activating, and saves once |
| Scenarios.StartWithMalformedSettings | mirage.cpp:68-81 | starting with an unparsable settings file keeps (true, true, 0, 0) and saves them at once |

## Left out

- The settings path: the `GetModuleFileNameW` buffer-growth loop and the extension replacement in `load_settings` are path I/O. The model starts at the `try` block.
- The ini library: its file format is not modelled. A file is either one that `ini::open` rejects with `invalid_argument`, or a `[mirage]` section whose keys are each absent, readable, or unparsable by `get<T>`. The model assumes a missing file reads as a section with no keys. Exceptions other than `invalid_argument` would escape `load_settings`; they are not modelled.
- Settings.SaveLoadRoundTrip: this assumes the ini library reads back every value it wrote.
- Window-class registration, window creation and `wnd_proc`'s other messages (`WM_CLOSE` is swallowed; the rest go to `DefWindowProcW`) are OS plumbing. They are log entries or are omitted. Whether the OS delivers `WM_DISPLAYCHANGE` to the message-only owner window is outside the model.
- `HWND_BOTTOM` is passed as the insert-after window in every `SetWindowPos`. `SWP_NOZORDER` makes Windows ignore it, so the log does not record it.
- COM reference counting (`GetBuffer`, `GetResource`, `GetDevice`, `CreateDXGIFactory1` and their `Release`s) is not recorded. The model assumes that getting the device and the factory succeeds.
- Pixel contents, and whether `CopyResource` from a multisampled back buffer to the single-sampled mirror is valid, are not modelled. `SwapChains.MirrorCopyCompatibleIffSingleSampled` only states when the two descriptors match.
- SwapChains.ResizedDesc: DXGI's rules that a zero width, height or format means "use the window size" or "keep the format" are not modelled. A live game swap chain never reports those zeros.
- Coordinates are unbounded integers. A 32-bit overflow of `bottom + 100` in `display_changed`, or of the `InputInt` values, is not modelled: desktop coordinates stay far from the 32-bit limits.
- ImGui widgets are inputs: whether each checkbox was clicked, and the new value of each integer field that reports a change. The model does not use the fact that a disabled field reports no change.
- Logging: the `reshade::log::message` calls in `save_settings` and `load_settings` only write to ReShade's log file and are not recorded.
- ReShade event registration and `AddonInit`/`AddonUninit` are host plumbing. Registration is a single log entry, and `AddonInit` amounts to `LoadSettings` on a fresh `Mirage`.
