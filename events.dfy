/** Window events as the run loop sees them, and which of them close the window. */
module Events {

  /** A keyboard key: `E` is the hard-quit key; `OtherKey` stands for every other key code. */
  datatype Key = E | OtherKey(code: int)

  /** The event kinds the application distinguishes; `OtherEvent` covers every remaining kind
      (resize, focus, text, mouse, ...). */
  datatype Event =
    | Closed
    | KeyPressed(key: Key)
    | KeyReleased(key: Key)
    | OtherEvent(kind: nat)

  /** The application-global handlers close the window on a close request and on the
      release (not the press) of key E. */
  predicate ClosesWindow(e: Event)
  {
    match e
    case Closed => true
    case KeyReleased(k) => k == E
    case _ => false
  }

  /** No event of the batch closes the window. */
  predicate KeepsOpen(events: seq<Event>)
  {
    forall i :: 0 <= i < |events| ==> !ClosesWindow(events[i])
  }
}
