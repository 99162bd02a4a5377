/** An optional value, shared by the modules that read text back and that
    pass bus names around. */
module Options {

  datatype Option<T> = None | Some(value: T)
}
