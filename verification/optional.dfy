/** An optional value: `None` stands for a JavaScript `undefined` slot. */
module Optional {

  datatype Option<+T> = None | Some(value: T)

}
