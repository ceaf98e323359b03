/** An optional value: an absent JSON field, an unset form error, a missing handle. */
module Options {
  datatype Option<+T> = None | Some(value: T)
}
