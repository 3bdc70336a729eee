/** A nullable value: Kotlin's `T?`. */
module Optional {

  datatype Option<+T> = None | Some(value: T)
}
