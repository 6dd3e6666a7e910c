/** A value that may be missing: the model's stand-in for the NaN entries a
    rolling window leaves before it fills. */
module Options {

  datatype Option<T> = None | Some(value: T)

}
