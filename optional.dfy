/** Java's nullable references (`clusterId`, session attributes) as an explicit option. */
module Optional {
  datatype Option<+T> = None | Some(value: T)
}
