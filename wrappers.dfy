/** The optional value that Keyv's `get` resolves to: `undefined` becomes None. */
module Wrappers {

  datatype Option<+T> = None | Some(value: T)
}
