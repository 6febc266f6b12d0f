/**
 * Compile-time diagnostics of the derive macros. A `syn::Error` is a list of
 * messages, each attached to a location in the user's code; the model names a
 * location by the identifier of the field or variant it points at.
 */
module Diagnostics {

  /** The text of a Rust identifier, as `Ident::to_string` renders it. */
  type Ident = string

  /** One message of a diagnostic, attached to the declaration it points at. */
  datatype Label = Label(message: string, at: Ident)

  /** A combined diagnostic: its labels in the order they are reported. */
  type Diagnostic = seq<Label>

  function Locations(d: Diagnostic): seq<Ident>
  {
    seq(|d|, i requires 0 <= i < |d| => d[i].at)
  }

  function Messages(d: Diagnostic): seq<string>
  {
    seq(|d|, i requires 0 <= i < |d| => d[i].message)
  }

  /** An error with a single location (`syn::Error::new`). */
  function Single(at: Ident, message: string): (d: Diagnostic)
    ensures Locations(d) == [at] && Messages(d) == [message]
  {
    [Label(message, at)]
  }

  /**
   * `err_pair`: the error at the offending declaration `s1`, combined with a
   * second note at the earlier declaration `s2` that it conflicts with.
   */
  function ErrPair(s1: Ident, s2: Ident, t1: string, t2: string): (d: Diagnostic)
    ensures Locations(d) == [s1, s2]
    ensures Messages(d) == [t1, t2]
  {
    Single(s1, t1) + Single(s2, t2)
  }
}
