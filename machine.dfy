/** Machine integer widths used by the firmware, an Option type, and two facts about products of naturals. */
module Machine {

  type u8 = x: int | 0 <= x < 0x100
  type u16 = x: int | 0 <= x < 0x1_0000
  type u32 = x: int | 0 <= x < 0x1_0000_0000
  type i8 = x: int | -0x80 <= x < 0x80

  const U32_MODULUS: int := 0x1_0000_0000

  datatype Option<+T> = None | Some(value: T)

  lemma MulMonotone(k: nat, a: nat, b: nat)
    requires a <= b
    ensures k * a <= k * b
  {
    assert k * b == k * a + k * (b - a);
  }

  lemma MulCancel(k: nat, x: nat, y: nat)
    requires k * x < k * y
    ensures x < y
  {
    if y <= x {
      MulMonotone(k, y, x);
    }
  }
}
