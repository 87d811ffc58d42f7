module Options {
  datatype Option<+T> = None | Some(value: T)

  /** What a condition of the source makes of an optional string: present and not empty. */
  predicate Truthy(s: Option<string>) {
    s.Some? && s.value != ""
  }
}
