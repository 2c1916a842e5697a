/**
 * Shared vocabulary of the model: the C integer widths the source uses, an
 * optional value for nullable pointers, and the errno names that the
 * scheduler and the switcher return negated.
 */
module Common {

  const UINT8_MAX: int := 0xFF
  const UINT16_MAX: int := 0xFFFF
  const UINT32_MAX: int := 0xFFFF_FFFF
  const INT32_MAX: int := 0x7FFF_FFFF
  const INT32_MIN: int := -0x8000_0000

  type u8 = x: int | 0 <= x <= UINT8_MAX
  type u16 = x: int | 0 <= x <= UINT16_MAX
  type u32 = x: int | 0 <= x <= UINT32_MAX
  type i32 = x: int | INT32_MIN <= x <= INT32_MAX

  /** A pointer that may be null, or a lookup that may find nothing. */
  datatype Option<T> = None | Some(value: T)

  /**
   * The error numbers that appear in the modelled code.  The C code returns
   * them negated (`-EINVAL`); the model keeps them symbolic because their
   * numeric values live in a header that is not part of this model.
   */
  datatype Errno =
    | EINVAL
    | EBUSY
    | ETIMEDOUT
    | ECOMPARTMENTFAIL
    | ENOTENOUGHSTACK
    | ENOTENOUGHTRUSTEDSTACK

  /** An `int` return value of the C API: a non-negative result or a negated errno. */
  datatype Status = Ok(value: nat) | Err(errno: Errno)

  function Min(a: int, b: int): int { if a <= b then a else b }
  function Max(a: int, b: int): int { if a >= b then a else b }
}
