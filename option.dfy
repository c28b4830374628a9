/** An optional value: a pending timer's payload, a lookup that may miss, a
    computation that may throw. */
module Optional {

  datatype Option<+T> = None | Some(value: T)
}
