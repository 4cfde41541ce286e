// Option, shared by every module: Python's `X | None` and TypeScript's `X | undefined`.
module Wrappers {
  datatype Option<+T> = None | Some(value: T)
}
