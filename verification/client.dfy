/** The client as the rename handler uses it. */
module Client {

  /** The client's window: the log of error messages shown to the user, in the order sent. */
  class ClientWindow {
    var errors: seq<string>

    constructor ()
      ensures errors == []
    {
      errors := [];
    }

    /** Show an error message to the user: it is appended to the log and nothing else changes. */
    method ShowError(message: string)
      modifies this
      ensures errors == old(errors) + [message]
    {
      errors := errors + [message];
    }
  }
}
