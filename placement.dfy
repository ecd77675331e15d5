/** Where the mirror window is put and with which `SetWindowPos` flags, in
    `display_changed`, `init_device`, `init_swapchain` and `draw_settings`. */
module Placement {
  import opened Geometry

  /** `SWP_*` flag values from the Win32 headers. */
  const SwpNoSize: bv32 := 0x0001
  const SwpNoMove: bv32 := 0x0002
  const SwpNoZOrder: bv32 := 0x0004
  const SwpNoActivate: bv32 := 0x0010
  const SwpShowWindow: bv32 := 0x0040

  predicate HasFlag(flags: bv32, flag: bv32) {
    flags & flag != 0
  }

  /** Flags that move without resizing, keep the z-order and show the window. */
  predicate MovesWithoutResizing(flags: bv32) {
    HasFlag(flags, SwpNoSize) && !HasFlag(flags, SwpNoMove) &&
    HasFlag(flags, SwpNoZOrder) && HasFlag(flags, SwpShowWindow)
  }

  /** `display_changed`: moving to the hidden anchor never activates. */
  function HiddenMoveFlags(): (flags: bv32)
    ensures MovesWithoutResizing(flags) && HasFlag(flags, SwpNoActivate)
  {
    SwpNoSize | SwpNoZOrder | SwpNoActivate | SwpShowWindow
  }

  /** `init_swapchain`: resizing in place without moving or activating. */
  function ResizeFlags(): (flags: bv32)
    ensures HasFlag(flags, SwpNoMove) && !HasFlag(flags, SwpNoSize)
    ensures HasFlag(flags, SwpNoZOrder) && HasFlag(flags, SwpNoActivate) && HasFlag(flags, SwpShowWindow)
  {
    SwpNoMove | SwpNoZOrder | SwpNoActivate | SwpShowWindow
  }

  /** `init_device`: the first placement suppresses activation exactly when
      the window is hidden. */
  function InitialMoveFlags(hideWindow: bool): (flags: bv32)
    ensures MovesWithoutResizing(flags)
    ensures HasFlag(flags, SwpNoActivate) <==> hideWindow
  {
    SwpNoSize | SwpNoZOrder | SwpShowWindow | (if hideWindow then SwpNoActivate else 0)
  }

  /** `draw_settings`: a reposition suppresses activation unless `activate`. */
  function SettingsMoveFlags(activate: bool): (flags: bv32)
    ensures MovesWithoutResizing(flags)
    ensures HasFlag(flags, SwpNoActivate) <==> !activate
  {
    SwpNoSize | SwpNoZOrder | SwpShowWindow | (if activate then 0 else SwpNoActivate)
  }

  /** The position the mirror window is given: the hidden anchor when the
      window is hidden, the user's coordinates otherwise. */
  function Target(hideWindow: bool, hiddenX: int, hiddenY: int, visibleX: int, visibleY: int): Point
  {
    if hideWindow then Point(hiddenX, hiddenY) else Point(visibleX, visibleY)
  }
}
