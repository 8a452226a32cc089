/** The optional value used for "undetermined" integration orders and for
    statistical routines that raise instead of returning. */
module Options {

  datatype Option<+T> = None | Some(value: T)
}
