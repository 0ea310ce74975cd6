/**
 * The data-plane send: the engine's result code for a datagram send is
 * translated into the connection's own `SendResult`.
 */
module DataPlane {
  import Juice

  /** Outcome of a data-plane send. */
  datatype SendResult = Success | WouldBlock | MessageTooLarge | UnknownError

  /** `send_data`: the classification of the engine's `juice_send` result code. */
  function SendData(code: int): (r: SendResult)
    ensures r == Success <==> code == Juice.ErrSuccess
    ensures r == WouldBlock <==> code == Juice.ErrAgain
    ensures r == MessageTooLarge <==> code == Juice.ErrTooLarge
    ensures r == UnknownError <==> code != Juice.ErrSuccess && code != Juice.ErrAgain && code != Juice.ErrTooLarge
  {
    if code == Juice.ErrSuccess then Success
    else if code == Juice.ErrAgain then WouldBlock
    else if code == Juice.ErrTooLarge then MessageTooLarge
    else UnknownError
  }

  /** An engine code that yields a given result (unclassified errors are represented by `ErrFailed`). */
  function CodeFor(r: SendResult): (code: int)
    ensures r == UnknownError ==> code != Juice.ErrSuccess && code != Juice.ErrAgain && code != Juice.ErrTooLarge
  {
    match r
    case Success => Juice.ErrSuccess
    case WouldBlock => Juice.ErrAgain
    case MessageTooLarge => Juice.ErrTooLarge
    case UnknownError => Juice.ErrFailed
  }

  /** Every `SendResult` is produced by some engine code: the translation is onto. */
  lemma SendDataOnto(r: SendResult)
    ensures SendData(CodeFor(r)) == r
  {
  }

  /** Every engine code other than success, again and too-large is reported the same way. */
  lemma OtherCodesUnknown(code: int)
    requires code in {Juice.ErrInvalid, Juice.ErrFailed, Juice.ErrNotAvail, Juice.ErrIgnored}
    ensures SendData(code) == UnknownError
  {
  }
}
