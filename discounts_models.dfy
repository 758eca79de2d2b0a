/** The Early Risers discount code (property/discounts/models.py). */
module DiscountModels {
  import opened Text
  import opened World

  /** Every code starts with this. */
  const CodePrefix := "EARLYRISER-"

  /** `discount_percent`'s default, the only value the code ever uses. */
  const DefaultDiscountPercent := 10

  /** A generated code; its creation time is not part of this model. */
  datatype DiscountCode = DiscountCode(code: string, discountPercent: int)

  predicate IsUpperHexDigit(c: char) {
    '0' <= c <= '9' || 'A' <= c <= 'F'
  }

  /** The eight random characters of a code, read back from it. */
  function RandomPart(code: string): string
    requires |code| == 20
  {
    code[11..15] + code[16..20]
  }

  /**
   * `DiscountCode.generate`, given the uuid text: the first eight hex digits, upper-cased, split
   * four and four behind the prefix, at the default percentage.
   */
  function Generate(hex: UuidHex): (d: DiscountCode)
    ensures |d.code| == 20
    ensures StartsWith(d.code, CodePrefix)
    ensures d.code[15] == '-'
    ensures RandomPart(d.code) == Upper(hex[..8])
    ensures forall k | 11 <= k < 20 && k != 15 :: IsUpperHexDigit(d.code[k])
    ensures d.discountPercent == 10
  {
    var randomHex := Upper(hex[..8]);
    var code := CodePrefix + randomHex[..4] + "-" + randomHex[4..];
    assert code[..11] == CodePrefix;
    assert code[11..15] == randomHex[..4] && code[16..20] == randomHex[4..];
    assert randomHex[..4] + randomHex[4..] == randomHex;
    forall k | 11 <= k < 20 && k != 15 ensures IsUpperHexDigit(code[k]) {
      var m := if k < 15 then k - 11 else k - 12;
      assert code[k] == randomHex[m] == UpperChar(hex[m]);
    }
    DiscountCode(code, DefaultDiscountPercent)
  }

  /** Different uuid prefixes give different codes: the code determines the eight hex digits it was made from. */
  lemma GenerateInjective(h1: UuidHex, h2: UuidHex)
    requires Generate(h1).code == Generate(h2).code
    ensures h1[..8] == h2[..8]
  {
    var u1 := Upper(h1[..8]);
    var u2 := Upper(h2[..8]);
    assert u1 == u2;
    forall k | 0 <= k < 8 ensures h1[k] == h2[k] {
      assert u1[k] == UpperChar(h1[k]) && u2[k] == UpperChar(h2[k]);
    }
  }
}
