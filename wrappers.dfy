/** The optional value used wherever the script holds something that may be
    null or undefined (the overlay URL settings, the selected file). */
module Wrappers {

  datatype Option<+T> = None | Some(value: T)
}
