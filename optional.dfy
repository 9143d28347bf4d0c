/** The `undefined`/`null` of a JavaScript lookup or a nullable piece of state. */
module Optional {

  datatype Option<+T> = None | Some(value: T)
}
