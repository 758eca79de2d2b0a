/**
 * The Early Risers rules: the 8-10 AM Pacific window, the test for an explicit request, and code
 * generation (property/discounts/service.py).
 */
module DiscountServices {
  import opened Text
  import opened World
  import opened DiscountModels

  /** `is_promo_window`, on the Pacific-local hour of the current time. */
  predicate IsPromoWindow(hour: Hour) {
    8 <= hour < 10
  }

  /** The window holds exactly the hours 8 and 9: 8:00 is in, 10:00 is out. */
  lemma PromoWindowHours(hour: Hour)
    ensures IsPromoWindow(hour) <==> hour == 8 || hour == 9
    ensures IsPromoWindow(8) && IsPromoWindow(9)
    ensures !IsPromoWindow(7) && !IsPromoWindow(10)
  {
  }

  // ---- The pattern, matched case-insensitively ----

  /**
   * Case folding as the case-insensitive matcher applies it to the letters of the pattern: ASCII
   * capitals, and the two extra spellings of 'i' (U+0130, U+0131) and of 's' (U+017F).
   */
  function FoldChar(c: char): char {
    if 'A' <= c <= 'Z' then (c as int + 32) as char
    else if c == '\U{130}' || c == '\U{131}' then 'i'
    else if c == '\U{17f}' then 's'
    else c
  }

  function Fold(s: string): string {
    seq(|s|, k requires 0 <= k < |s| => FoldChar(s[k]))
  }

  /** The characters `\w` matches, as far as this model tells them apart: ASCII letters and digits, '_', and the folded letters. */
  predicate IsWordChar(c: char) {
    'a' <= c <= 'z' || 'A' <= c <= 'Z' || '0' <= c <= '9' || c == '_' || c == '\U{130}' || c == '\U{131}' || c == '\U{17f}'
  }

  /** `\b` at position `p`: a word character on exactly one side. */
  predicate BoundaryAt(t: string, p: int)
    requires 0 <= p <= |t|
  {
    (p > 0 && IsWordChar(t[p - 1])) != (p < |t| && IsWordChar(t[p]))
  }

  /** The lower-case word `w` occurs at `i`, in any letter case. */
  predicate WordAt(t: string, i: int, w: string) {
    0 <= i && i + |w| <= |t| && Fold(t[i..i + |w|]) == w
  }

  /** What separates "early" from "riser": any run of whitespace (`\s*`), or a single '-'. */
  predicate Gap(t: string, a: int, b: int)
    requires 0 <= a <= b <= |t|
  {
    AllSpace(t[a..b]) || t[a..b] == "-"
  }

  /** `early\s*risers?|early-risers?` spans `t[i..e]`, its "riser" starting at `g`. */
  predicate PhraseAt(t: string, i: int, g: int, e: int) {
    && 0 <= i && i + 5 <= g <= |t|
    && WordAt(t, i, "early")
    && Gap(t, i + 5, g)
    && WordAt(t, g, "riser")
    && (e == g + 5 || (e == g + 6 && WordAt(t, g + 5, "s")))
  }

  /** `code|promo|promotion|discount` spans `t[j..f]`. */
  predicate PromoWordAt(t: string, j: int, f: int) {
    || (WordAt(t, j, "code") && f == j + 4)
    || (WordAt(t, j, "promo") && f == j + 5)
    || (WordAt(t, j, "promotion") && f == j + 9)
    || (WordAt(t, j, "discount") && f == j + 8)
  }

  /** `.` matches anything but a newline, so the text between the two parts stays on one line. */
  predicate OneLine(t: string, a: int, b: int)
    requires 0 <= a <= b <= |t|
  {
    forall k | a <= k < b :: t[k] != '\n'
  }

  /**
   * One match of the pattern: the phrase at `t[i..e]` and the promotion word at `t[j..f]`, each
   * bounded by `\b` on both sides, in either order, with no newline between them.
   */
  predicate MatchAt(t: string, i: int, g: int, e: int, j: int, f: int) {
    && 0 <= i <= e <= |t| && 0 <= j <= f <= |t|
    && PhraseAt(t, i, g, e) && BoundaryAt(t, i) && BoundaryAt(t, e)
    && PromoWordAt(t, j, f) && BoundaryAt(t, j) && BoundaryAt(t, f)
    && ((e <= j && OneLine(t, e, j)) || (f <= i && OneLine(t, f, i)))
  }

  /** `is_explicit_request`: the pattern matches somewhere in the text. */
  predicate IsExplicitRequest(t: string) {
    exists i, g, e, j, f | 0 <= i <= g <= e <= |t| && 0 <= j <= f <= |t| :: MatchAt(t, i, g, e, j, f)
  }

  /** `generate_code`: a fresh code from the uuid text. */
  function GenerateCode(hex: UuidHex): (d: DiscountCode)
    ensures d == Generate(hex)
    ensures StartsWith(d.code, CodePrefix) && |d.code| == 20 && d.discountPercent == 10
  {
    Generate(hex)
  }

  // ---- Letter case does not matter ----

  /** Folding only ever changes letters into letters. */
  lemma FoldCharKeepsClass(c: char)
    ensures IsWordChar(FoldChar(c)) == IsWordChar(c)
    ensures IsSpace(FoldChar(c)) == IsSpace(c)
    ensures FoldChar(c) == '-' <==> c == '-'
    ensures FoldChar(c) == '\n' <==> c == '\n'
  {
  }

  /** Folding a slice is slicing the folded text. */
  lemma FoldSlice(t: string, a: int, b: int)
    requires 0 <= a <= b <= |t|
    ensures Fold(t[a..b]) == Fold(t)[a..b]
  {
  }

  /** Characters at the same place in texts that fold alike are of the same kind. */
  lemma SameFoldChar(t: string, u: string, k: int)
    requires |t| == |u| && Fold(t) == Fold(u) && 0 <= k < |t|
    ensures IsWordChar(t[k]) == IsWordChar(u[k]) && IsSpace(t[k]) == IsSpace(u[k])
    ensures (t[k] == '-' <==> u[k] == '-') && (t[k] == '\n' <==> u[k] == '\n')
  {
    assert Fold(t)[k] == Fold(u)[k];
    FoldCharKeepsClass(t[k]);
    FoldCharKeepsClass(u[k]);
  }

  lemma SameFoldWord(t: string, u: string, i: int, w: string)
    requires |t| == |u| && Fold(t) == Fold(u)
    ensures WordAt(t, i, w) <==> WordAt(u, i, w)
  {
    if 0 <= i && i + |w| <= |t| {
      FoldSlice(t, i, i + |w|);
      FoldSlice(u, i, i + |w|);
    }
  }

  lemma SameFoldBoundary(t: string, u: string, p: int)
    requires |t| == |u| && Fold(t) == Fold(u) && 0 <= p <= |t|
    ensures BoundaryAt(t, p) <==> BoundaryAt(u, p)
  {
    if p > 0 { SameFoldChar(t, u, p - 1); }
    if p < |t| { SameFoldChar(t, u, p); }
  }

  lemma SameFoldGap(t: string, u: string, a: int, b: int)
    requires |t| == |u| && Fold(t) == Fold(u) && 0 <= a <= b <= |t|
    ensures Gap(t, a, b) <==> Gap(u, a, b)
  {
    forall k | a <= k < b ensures IsSpace(t[k]) == IsSpace(u[k]) && (t[k] == '-' <==> u[k] == '-') {
      SameFoldChar(t, u, k);
    }
    assert AllSpace(t[a..b]) <==> AllSpace(u[a..b]) by {
      assert forall k | 0 <= k < b - a :: t[a..b][k] == t[a + k];
      assert forall k | 0 <= k < b - a :: u[a..b][k] == u[a + k];
    }
    if b == a + 1 {
      assert t[a..b] == [t[a]] && u[a..b] == [u[a]];
    }
  }

  lemma SameFoldOneLine(t: string, u: string, a: int, b: int)
    requires |t| == |u| && Fold(t) == Fold(u) && 0 <= a <= b <= |t|
    ensures OneLine(t, a, b) <==> OneLine(u, a, b)
  {
    forall k | a <= k < b ensures t[k] == '\n' <==> u[k] == '\n' {
      SameFoldChar(t, u, k);
    }
  }

  /** Two texts that fold alike hold the same phrases. */
  lemma SameFoldPhrase(t: string, u: string, i: int, g: int, e: int)
    requires |t| == |u| && Fold(t) == Fold(u)
    ensures PhraseAt(t, i, g, e) <==> PhraseAt(u, i, g, e)
  {
    SameFoldWord(t, u, i, "early");
    SameFoldWord(t, u, g, "riser");
    SameFoldWord(t, u, g + 5, "s");
    if 0 <= i && i + 5 <= g <= |t| { SameFoldGap(t, u, i + 5, g); }
  }

  /** Two texts that fold alike hold the same promotion words. */
  lemma SameFoldPromoWord(t: string, u: string, j: int, f: int)
    requires |t| == |u| && Fold(t) == Fold(u)
    ensures PromoWordAt(t, j, f) <==> PromoWordAt(u, j, f)
  {
    SameFoldWord(t, u, j, "code");
    SameFoldWord(t, u, j, "promo");
    SameFoldWord(t, u, j, "promotion");
    SameFoldWord(t, u, j, "discount");
  }

  /** Two texts that fold alike have the same matches. */
  lemma SameFoldSameMatches(t: string, u: string, i: int, g: int, e: int, j: int, f: int)
    requires |t| == |u| && Fold(t) == Fold(u)
    requires 0 <= i <= g <= e <= |t| && 0 <= j <= f <= |t|
    ensures MatchAt(t, i, g, e, j, f) <==> MatchAt(u, i, g, e, j, f)
  {
    SameFoldPhrase(t, u, i, g, e);
    SameFoldPromoWord(t, u, j, f);
    SameFoldBoundary(t, u, i);
    SameFoldBoundary(t, u, e);
    SameFoldBoundary(t, u, j);
    SameFoldBoundary(t, u, f);
    if e <= j { SameFoldOneLine(t, u, e, j); }
    if f <= i { SameFoldOneLine(t, u, f, i); }
  }

  /** A match in one text is a match in any text that folds alike. */
  lemma ExplicitRequestCarriesOver(t: string, u: string)
    requires |t| == |u| && Fold(t) == Fold(u)
    requires IsExplicitRequest(t)
    ensures IsExplicitRequest(u)
  {
    var i, g, e, j, f :| 0 <= i <= g <= e <= |t| && 0 <= j <= f <= |t| && MatchAt(t, i, g, e, j, f);
    SameFoldSameMatches(t, u, i, g, e, j, f);
  }

  /** The test ignores letter case: texts that fold alike are accepted alike. */
  lemma ExplicitRequestIgnoresCase(t: string, u: string)
    requires |t| == |u| && Fold(t) == Fold(u)
    ensures IsExplicitRequest(t) <==> IsExplicitRequest(u)
  {
    if IsExplicitRequest(t) {
      ExplicitRequestCarriesOver(t, u);
    }
    if IsExplicitRequest(u) {
      ExplicitRequestCarriesOver(u, t);
    }
  }

  /** In particular upper-casing or lower-casing a request does not change the verdict. */
  lemma ExplicitRequestIgnoresUpperLower(t: string)
    ensures IsExplicitRequest(Upper(t)) <==> IsExplicitRequest(t)
    ensures IsExplicitRequest(Lower(t)) <==> IsExplicitRequest(t)
  {
    assert Fold(Upper(t)) == Fold(t);
    assert Fold(Lower(t)) == Fold(t);
    ExplicitRequestIgnoresCase(Upper(t), t);
    ExplicitRequestIgnoresCase(Lower(t), t);
  }
}
