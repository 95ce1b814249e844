/** The optional value shared by the Gloom, Draw and app-registry models. */
module Wrappers {
  /** `undefined`/`null` in TypeScript, or a value. */
  datatype Option<+T> = None | Some(value: T)
}
