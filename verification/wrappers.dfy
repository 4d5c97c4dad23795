/** Values that may be missing, and octets. */
module Wrappers {
  datatype Option<T> = None | Some(value: T)

  /** Two bits. */
  datatype Crumb = C0 | C1 | C2 | C3

  /** An octet, as its four pairs of bits from the highest down. */
  datatype Byte = Byte(a: Crumb, b: Crumb, c: Crumb, d: Crumb)
}
