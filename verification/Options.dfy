// The Optional of util/optional.hh, used wherever the source returns "maybe a value".
module Options {
  datatype Option<+T> = None | Some(value: T)
}
