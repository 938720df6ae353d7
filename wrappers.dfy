/** Optional values and the outcome of a step that may abort the build script. */
module Wrappers {

  datatype Option<+T> = None | Some(value: T)

  /** `Panic` stands for a Rust `panic!` or a failed `unwrap()`/`expect()`:
      the build script stops and Cargo applies none of its output. */
  datatype Result<+T> = Ok(value: T) | Panic(message: string)
}
