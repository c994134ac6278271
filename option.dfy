/** An optional value, used where the source returns `null` for "nothing found"
    or "rejected". */
module Optional {

  datatype Option<T> = None | Some(value: T)
}
