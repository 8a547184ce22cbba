/**
 * The Active Directory `userAccountControl` flags (MS-ADTS section 2.2.16,
 * "userAccountControl Bits") and PHP's bitwise AND on integers.
 */
module AccountControl {

  /** ACCOUNTDISABLE, bit 0x0002 of userAccountControl. */
  const ACCOUNTDISABLE: nat := 0x0002

  /**
   * Bit `k` of `a` in two's complement. Dafny's `/` and `%` by 2 floor, so
   * this is also the bit PHP sees in a negative integer.
   */
  predicate Bit(a: int, k: nat)
    decreases k
  {
    if k == 0 then a % 2 == 1 else Bit(a / 2, k - 1)
  }

  /** PHP's `a & mask` for a non-negative mask: the result never exceeds the mask. */
  function BitAnd(a: int, mask: nat): (r: nat)
    ensures r <= mask
    decreases mask
  {
    if mask == 0 then 0
    else 2 * BitAnd(a / 2, mask / 2) + (if a % 2 == 1 && mask % 2 == 1 then 1 else 0)
  }

  /** Whether every bit of `flag` is set in `uac`, as `(uac & flag) === flag`. */
  predicate HasFlag(uac: int, flag: nat)
  {
    BitAnd(uac, flag) == flag
  }

  lemma {:induction false} ZeroHasNoBits(k: nat)
    ensures !Bit(0, k)
  {
    if k > 0 {
      ZeroHasNoBits(k - 1);
    }
  }

  /** BitAnd is bitwise: each bit of the result is the AND of the operands' bits. */
  lemma {:induction false} BitAndIsBitwise(a: int, mask: nat, k: nat)
    ensures Bit(BitAnd(a, mask), k) <==> Bit(a, k) && Bit(mask, k)
    decreases mask
  {
    if mask == 0 {
      ZeroHasNoBits(k);
    } else {
      var q := BitAnd(a / 2, mask / 2);
      var b := if a % 2 == 1 && mask % 2 == 1 then 1 else 0;
      var r := BitAnd(a, mask);
      assert r == 2 * q + b;
      assert r % 2 == b && r / 2 == q;
      if k > 0 {
        BitAndIsBitwise(a / 2, mask / 2, k - 1);
      }
    }
  }

  /** Testing ACCOUNTDISABLE is testing bit 1, whatever the other flags are. */
  lemma DisabledFlagIsBitOne(uac: int)
    ensures HasFlag(uac, ACCOUNTDISABLE) <==> Bit(uac, 1)
  {
    var r := BitAnd(uac, ACCOUNTDISABLE);
    assert r == 2 * BitAnd(uac / 2, 1);
    assert BitAnd(uac / 2, 1) == if (uac / 2) % 2 == 1 then 1 else 0;
  }
}
