/** The optional value used where the C code passes a pointer that may be NULL
    or reports "no call was made". */
module Wrappers {

  datatype Option<+T> = None | Some(value: T)
}
