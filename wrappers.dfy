/** The nullable values of the application (`T | null`, `T | undefined`) as an explicit option type. */
module Wrappers {

  datatype Option<+T> = None | Some(value: T)
}
