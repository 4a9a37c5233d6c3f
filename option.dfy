/** An optional value: stands for a JavaScript value that may be `null`. */
module Option {

  datatype Option<+T> = None | Some(value: T)

}
