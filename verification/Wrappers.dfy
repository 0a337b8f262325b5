/** The usual optional value, which stands for `std::string::npos`, null pointers and "no slot", and `std::min`. */
module Wrappers {
  datatype Option<+T> = None | Some(value: T)

  function Min(a: int, b: int): int { if a < b then a else b }
}
