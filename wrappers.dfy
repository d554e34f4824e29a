/** The optional value used for the components' `currentCropper` field, which
    stays `undefined` until a crop has been computed. */
module Wrappers {

  datatype Option<+T> = None | Some(value: T)
}
