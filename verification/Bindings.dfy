/** What the models of the binding headers share. */
module Bindings {

  const CL_SUCCESS: int := 0

  /** A runtime handle; 0 is NULL. */
  type Handle = nat

  datatype Option<+T> = None | Some(value: T)
}
