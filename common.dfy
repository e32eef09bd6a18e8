/** The optional value used throughout the model: JavaScript's `null` and
    `undefined` become `None`. */
module Common {

  datatype Option<+T> = None | Some(value: T)
}
