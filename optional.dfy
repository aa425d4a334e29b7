/** The absent-or-present wrapper used for nullable slots (a stored token,
    a start time, a looked-up row). */
module Optional {
  datatype Option<+T> = None | Some(value: T)
}
