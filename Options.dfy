/** A value that may be absent: React's `number | null` state and the
    nullable element refs of the page components. */
module Options {

  datatype Option<+T> = None | Some(value: T)

}
