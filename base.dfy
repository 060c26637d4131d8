/** The nullable values of the source (`string | null`, an absent key, `undefined`) as one datatype. */
module Base {
  datatype Option<+T> = None | Some(value: T)
}
