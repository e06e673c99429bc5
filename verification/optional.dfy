/** The value-or-nothing type used for JavaScript's `null` results and for
    database columns that may be missing. */
module Optional {

  datatype Option<+T> = None | Some(value: T)
}
