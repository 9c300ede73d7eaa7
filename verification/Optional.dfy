/** The conventional optional value, used for Go's nil-able handles and capacity-1 channels. */
module Optional {
  datatype Option<+T> = None | Some(value: T)
}
