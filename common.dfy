/** Small shared vocabulary: optional values and the opaque handles the
    add-on stores (window handles, swap-chain handles, resource views). */
module Common {

  /** A possibly-null handle or a possibly-absent value. */
  datatype Option<+T> = None | Some(value: T) {
    function GetOr(default: T): T {
      match this
      case Some(v) => v
      case None => default
    }
  }

  /** An `HWND` as an abstract id; a null `HWND` is `None` of `Option<Hwnd>`. */
  datatype Hwnd = Hwnd(id: nat)

  /** The pointer value of an `IDXGISwapChain1*`. */
  datatype SwapChainId = SwapChainId(id: nat)

  /** The handle of a render-target view passed in by the host. */
  datatype ViewId = ViewId(id: nat)
}
