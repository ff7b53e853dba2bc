/** An optional value: a TypeScript property that may be absent (`width?: number`)
    or a DOM value that may be null. */
module Optional {
  datatype Option<+T> = None | Some(value: T)
}
