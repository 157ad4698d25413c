/** An optional value: `None` where the source has `None` for "nothing
    here", or where a step of it raised and produced no value. */
module Optional {
  datatype Option<T> = None | Some(value: T)
}
