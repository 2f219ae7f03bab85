/** Types shared by the whole model. */
module Basics {
  datatype Option<+T> = None | Some(value: T)

  /** One octet, as an integer: shifts and masks of the program become `/` and `%`. */
  type byte = b: int | 0 <= b < 256

  const U16 := 0x1_0000
  const U32 := 0x1_0000_0000

  function Pow2(n: nat): (r: nat)
    ensures r >= 1
  {
    if n == 0 then 1 else 2 * Pow2(n - 1)
  }

  /** ASCII upper case. */
  function Upper(s: string): string
  {
    if s == "" then "" else [if 'a' <= s[0] <= 'z' then s[0] - 'a' + 'A' else s[0]] + Upper(s[1..])
  }
}
