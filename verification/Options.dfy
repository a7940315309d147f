/** A value that may be missing: the C code's NULL, -ENOENT and -ENOSPC answers. */
module Options {
  datatype Option<+T> = None | Some(value: T)
}
