/** The Some/None wrapper that stands for Python's `Optional[...]` and for `re.search` returning `None`. */
module Optional {
  datatype Option<+T> = None | Some(value: T)
}
