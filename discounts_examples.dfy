/**
 * The explicit-request test on the requests the repository's own tests list: the ones it must
 * recognise and the ones it must reject (tests/test_data_ingestion.py, tests/test_tools.py).
 */
module DiscountExamples {
  import opened Text
  import opened DiscountServices

  /** A piece that folds to a lower-case word starts and ends with word characters. */
  lemma FoldedWordEnds(w: string, lower: string)
    requires Fold(w) == lower && |lower| > 0
    requires forall k | 0 <= k < |lower| :: 'a' <= lower[k] <= 'z'
    ensures IsWordChar(w[0]) && IsWordChar(w[|w| - 1])
  {
    assert Fold(w)[0] == FoldChar(w[0]);
    assert Fold(w)[|w| - 1] == FoldChar(w[|w| - 1]);
    FoldCharKeepsClass(w[0]);
    FoldCharKeepsClass(w[|w| - 1]);
  }

  predicate IsPhrase(a: string, gap: string, b: string) {
    && Fold(a) == "early"
    && (AllSpace(gap) || gap == "-")
    && (Fold(b) == "riser" || Fold(b) == "risers")
  }

  predicate IsPromoWord(p: string) {
    Fold(p) == "code" || Fold(p) == "promo" || Fold(p) == "promotion" || Fold(p) == "discount"
  }

  /** A slice of a slice is a slice of the whole. */
  lemma SubSlice(t: string, i: int, e: int, lo: int, hi: int)
    requires 0 <= i <= e <= |t| && 0 <= lo <= hi <= e - i
    ensures t[i..e][lo..hi] == t[i + lo..i + hi]
  {
    assert forall k | 0 <= k < hi - lo :: t[i..e][lo..hi][k] == t[i + lo + k];
  }

  lemma ThreeParts(a: string, gap: string, b: string)
    ensures var s := a + gap + b;
      s[..|a|] == a && s[|a|..|a| + |gap|] == gap && s[|a| + |gap|..] == b
  {
    var s := a + gap + b;
    assert s == a + (gap + b);
    assert s[|a|..] == gap + b;
    assert s[|a|..|a| + |gap|] == s[|a|..][..|gap|];
  }

  /** The "riser" part of a phrase, and its optional "s". */
  lemma RiserPart(b: string)
    requires Fold(b) == "riser" || Fold(b) == "risers"
    ensures |b| == 5 || |b| == 6
    ensures Fold(b[..5]) == "riser"
    ensures |b| == 6 ==> Fold(b[5..6]) == "s"
  {
    assert |b| == |Fold(b)|;
    FoldSlice(b, 0, 5);
    assert "risers" == "riser" + "s";
    if |b| == 6 {
      FoldSlice(b, 5, 6);
    }
  }

  lemma PhrasePiece(t: string, i: int, g: int, e: int, a: string, gap: string, b: string)
    requires IsPhrase(a, gap, b)
    requires g == i + |a| + |gap| && e == g + |b|
    requires 0 <= i && e <= |t| && t[i..e] == a + gap + b
    ensures PhraseAt(t, i, g, e)
    ensures IsWordChar(t[i]) && IsWordChar(t[e - 1])
  {
    assert |a| == |Fold(a)| == 5;
    RiserPart(b);
    ThreeParts(a, gap, b);
    SubSlice(t, i, e, 0, 5);
    SubSlice(t, i, e, 5, 5 + |gap|);
    SubSlice(t, i, e, 5 + |gap|, e - i);
    assert t[g..e] == b;
    assert t[g..g + 5] == b[..5];
    if |b| == 6 {
      assert t[g + 5..g + 6] == b[5..6];
    }
    FoldedWordEnds(a, "early");
    FoldedWordEnds(b, Fold(b));
    assert t[i] == a[0];
    assert t[e - 1] == b[|b| - 1];
  }

  lemma PromoPiece(t: string, j: int, f: int, p: string)
    requires IsPromoWord(p)
    requires f == j + |p| && 0 <= j && f <= |t| && t[j..f] == p
    ensures PromoWordAt(t, j, f)
    ensures IsWordChar(t[j]) && IsWordChar(t[f - 1])
  {
    FoldedWordEnds(p, Fold(p));
    assert t[j] == p[0] && t[j + |p| - 1] == p[|p| - 1];
  }

  /** The middle part of a concatenation sits right after the first part, between their neighbouring characters. */
  lemma PieceAt(x: string, piece: string, y: string)
    requires |piece| > 0
    ensures var t := x + piece + y;
      && t[|x|..|x| + |piece|] == piece
      && t[|x|] == piece[0] && t[|x| + |piece| - 1] == piece[|piece| - 1]
      && (|x| > 0 ==> t[|x| - 1] == x[|x| - 1])
      && (|y| > 0 ==> t[|x| + |piece|] == y[0])
  {
  }

  /** A middle part without newlines keeps that stretch of the whole on one line. */
  lemma PieceOneLine(x: string, piece: string, y: string)
    requires forall k | 0 <= k < |piece| :: piece[k] != '\n'
    ensures OneLine(x + piece + y, |x|, |x| + |piece|)
  {
    var t := x + piece + y;
    forall k | |x| <= k < |x| + |piece| ensures t[k] != '\n' {
      assert t[k] == piece[k - |x|];
    }
  }

  /** Non-word characters (or the ends of the text) around a word make the `\b` on both its sides. */
  predicate Delimited(t: string, a: int, b: int) {
    && 0 <= a < b <= |t|
    && IsWordChar(t[a]) && IsWordChar(t[b - 1])
    && (a == 0 || !IsWordChar(t[a - 1]))
    && (b == |t| || !IsWordChar(t[b]))
  }

  lemma MatchWitness(t: string, i: int, g: int, e: int, j: int, f: int)
    requires PhraseAt(t, i, g, e) && Delimited(t, i, e)
    requires PromoWordAt(t, j, f) && Delimited(t, j, f)
    requires (e <= j && OneLine(t, e, j)) || (f <= i && OneLine(t, f, i))
    ensures IsExplicitRequest(t)
  {
    assert BoundaryAt(t, i) && BoundaryAt(t, e) && BoundaryAt(t, j) && BoundaryAt(t, f);
    assert MatchAt(t, i, g, e, j, f);
  }

  /** Where the parts of `first + mid + second` sit, `mid` being a non-empty run without newlines. */
  lemma Layout(pre: string, first: string, mid: string, second: string, post: string)
    requires |first| > 0 && |mid| > 0 && |second| > 0
    requires forall k | 0 <= k < |mid| :: mid[k] != '\n'
    ensures var t := pre + first + mid + second + post;
      var m := |pre| + |first|;
      var n := m + |mid|;
      && t[|pre|..m] == first && t[n..n + |second|] == second
      && t[m] == mid[0] && t[n - 1] == mid[|mid| - 1]
      && (|pre| > 0 ==> t[|pre| - 1] == pre[|pre| - 1])
      && (|post| > 0 ==> t[n + |second|] == post[0])
      && OneLine(t, m, n)
  {
    var t := pre + first + mid + second + post;
    assert t == pre + first + (mid + second + post);
    PieceAt(pre, first, mid + second + post);
    assert t == (pre + first) + mid + (second + post);
    PieceAt(pre + first, mid, second + post);
    PieceOneLine(pre + first, mid, second + post);
    PieceAt(pre + first + mid, second, post);
  }

  lemma PhraseThenPromoWord(pre: string, phrase: string, mid: string, p: string, post: string, a: string, gap: string, b: string)
    requires phrase == a + gap + b && IsPhrase(a, gap, b) && IsPromoWord(p)
    requires |mid| > 0 && !IsWordChar(mid[0]) && !IsWordChar(mid[|mid| - 1])
    requires forall k | 0 <= k < |mid| :: mid[k] != '\n'
    requires pre == [] || !IsWordChar(pre[|pre| - 1])
    requires post == [] || !IsWordChar(post[0])
    ensures IsExplicitRequest(pre + phrase + mid + p + post)
  {
    var t := pre + phrase + mid + p + post;
    var i := |pre|;
    var e := i + |phrase|;
    var j := e + |mid|;
    var f := j + |p|;
    assert |a| == |Fold(a)| && |p| == |Fold(p)|;
    var g := i + |a| + |gap|;
    Layout(pre, phrase, mid, p, post);
    assert PhraseAt(t, i, g, e) && Delimited(t, i, e) by {
      PhrasePiece(t, i, g, e, a, gap, b);
    }
    assert PromoWordAt(t, j, f) && Delimited(t, j, f) by {
      PromoPiece(t, j, f, p);
    }
    MatchWitness(t, i, g, e, j, f);
  }

  lemma PromoWordThenPhrase(pre: string, p: string, mid: string, phrase: string, post: string, a: string, gap: string, b: string)
    requires phrase == a + gap + b && IsPhrase(a, gap, b) && IsPromoWord(p)
    requires |mid| > 0 && !IsWordChar(mid[0]) && !IsWordChar(mid[|mid| - 1])
    requires forall k | 0 <= k < |mid| :: mid[k] != '\n'
    requires pre == [] || !IsWordChar(pre[|pre| - 1])
    requires post == [] || !IsWordChar(post[0])
    ensures IsExplicitRequest(pre + p + mid + phrase + post)
  {
    var t := pre + p + mid + phrase + post;
    var j := |pre|;
    var f := j + |p|;
    var i := f + |mid|;
    var e := i + |phrase|;
    assert |a| == |Fold(a)| && |p| == |Fold(p)|;
    var g := i + |a| + |gap|;
    Layout(pre, p, mid, phrase, post);
    assert PhraseAt(t, i, g, e) && Delimited(t, i, e) by {
      PhrasePiece(t, i, g, e, a, gap, b);
    }
    assert PromoWordAt(t, j, f) && Delimited(t, j, f) by {
      PromoPiece(t, j, f, p);
    }
    MatchWitness(t, i, g, e, j, f);
  }

  lemma Accepted1()
    ensures IsExplicitRequest("Can I get the Early Risers promo code?")
  {
    assert Fold("Early") == "early" && Fold("Risers") == "risers" && Fold("promo") == "promo";
    assert AllSpace(" ");
    assert "Can I get the Early Risers promo code?" == "Can I get the " + ("Early" + " " + "Risers") + " " + "promo" + " code?";
    PhraseThenPromoWord("Can I get the ", "Early" + " " + "Risers", " ", "promo", " code?", "Early", " ", "Risers");
  }

  lemma Accepted2()
    ensures IsExplicitRequest("I'd like the early risers promotion please")
  {
    assert Fold("early") == "early" && Fold("risers") == "risers" && Fold("promotion") == "promotion";
    assert AllSpace(" ");
    assert "I'd like the early risers promotion please" == "I'd like the " + ("early" + " " + "risers") + " " + "promotion" + " please";
    PhraseThenPromoWord("I'd like the ", "early" + " " + "risers", " ", "promotion", " please", "early", " ", "risers");
  }

  lemma Accepted3()
    ensures IsExplicitRequest("early-risers code please")
  {
    assert Fold("early") == "early" && Fold("risers") == "risers" && Fold("code") == "code";
    assert "early-risers code please" == "" + ("early" + "-" + "risers") + " " + "code" + " please";
    PhraseThenPromoWord("", "early" + "-" + "risers", " ", "code", " please", "early", "-", "risers");
  }

  lemma Accepted4()
    ensures IsExplicitRequest("EARLY RISERS CODE PLEASE")
  {
    assert Fold("EARLY") == "early" && Fold("RISERS") == "risers" && Fold("CODE") == "code";
    assert AllSpace(" ");
    assert "EARLY RISERS CODE PLEASE" == "" + ("EARLY" + " " + "RISERS") + " " + "CODE" + " PLEASE";
    PhraseThenPromoWord("", "EARLY" + " " + "RISERS", " ", "CODE", " PLEASE", "EARLY", " ", "RISERS");
  }

  lemma AcceptedReversed()
    ensures IsExplicitRequest("Do you have a discount code for early risers?")
  {
    assert Fold("early") == "early" && Fold("risers") == "risers" && Fold("code") == "code";
    assert AllSpace(" ");
    assert "Do you have a discount code for early risers?" == "Do you have a discount " + "code" + " for " + ("early" + " " + "risers") + "?";
    PromoWordThenPhrase("Do you have a discount ", "code", " for ", "early" + " " + "risers", "?", "early", " ", "risers");
  }

  lemma AcceptedAtWindowEdges()
    ensures IsExplicitRequest("Early risers code please")
  {
    assert Fold("Early") == "early" && Fold("risers") == "risers" && Fold("code") == "code";
    assert AllSpace(" ");
    assert "Early risers code please" == "" + ("Early" + " " + "risers") + " " + "code" + " please";
    PhraseThenPromoWord("", "Early" + " " + "risers", " ", "code", " please", "Early", " ", "risers");
  }

  // ---- Rejections ----

  /** The folded text at `k` begins with the first three letters of `w`. */
  predicate StartsLike(t: string, k: int, w: string)
    requires |w| >= 3
  {
    0 <= k < |t| - 2 && FoldChar(t[k]) == w[0] && FoldChar(t[k + 1]) == w[1] && FoldChar(t[k + 2]) == w[2]
  }

  lemma WordAtLetters(t: string, i: int, w: string)
    requires WordAt(t, i, w) && |w| >= 3
    ensures StartsLike(t, i, w)
  {
    assert Fold(t[i..i + |w|])[0] == w[0];
    assert Fold(t[i..i + |w|])[1] == w[1];
    assert Fold(t[i..i + |w|])[2] == w[2];
  }

  /** A text in which no "ear" starts can hold no phrase, so nothing matches. */
  lemma NoEarly(t: string)
    requires forall k | 0 <= k < |t| :: !StartsLike(t, k, "early")
    ensures !IsExplicitRequest(t)
  {
    if IsExplicitRequest(t) {
      var i, g, e, j, f :| 0 <= i <= g <= e <= |t| && 0 <= j <= f <= |t| && MatchAt(t, i, g, e, j, f);
      WordAtLetters(t, i, "early");
    }
  }

  /** Every promotion word begins like "code", "promo" or "discount". */
  lemma PromoWordLetters(t: string, j: int, f: int)
    requires PromoWordAt(t, j, f)
    ensures StartsLike(t, j, "code") || StartsLike(t, j, "promo") || StartsLike(t, j, "discount")
  {
    if WordAt(t, j, "code") {
      WordAtLetters(t, j, "code");
    } else if WordAt(t, j, "promo") {
      WordAtLetters(t, j, "promo");
    } else if WordAt(t, j, "promotion") {
      WordAtLetters(t, j, "promotion");
      assert "promotion"[..3] == "promo"[..3];
    } else {
      WordAtLetters(t, j, "discount");
    }
  }

  /** A text in which no "cod", "pro" or "dis" starts can hold no promotion word, so nothing matches. */
  lemma NoPromoWord(t: string)
    requires forall k | 0 <= k < |t| :: !StartsLike(t, k, "code") && !StartsLike(t, k, "promo") && !StartsLike(t, k, "discount")
    ensures !IsExplicitRequest(t)
  {
    if IsExplicitRequest(t) {
      var i, g, e, j, f :| 0 <= i <= g <= e <= |t| && 0 <= j <= f <= |t| && MatchAt(t, i, g, e, j, f);
      PromoWordLetters(t, j, f);
    }
  }

  lemma RejectedNoPromotionNamed()
    ensures !IsExplicitRequest("Any deals right now?")
  {
    var t := "Any deals right now?";
    forall k | 0 <= k < |t| ensures !StartsLike(t, k, "early") {
    }
    NoEarly(t);
  }

  lemma RejectedNoPromotionWord()
    ensures !IsExplicitRequest("I'm an early riser")
  {
    var t := "I'm an early riser";
    forall k | 0 <= k < |t| ensures !StartsLike(t, k, "code") && !StartsLike(t, k, "promo") && !StartsLike(t, k, "discount") {
    }
    NoPromoWord(t);
  }

  lemma RejectedGeneralQuestion()
    ensures !IsExplicitRequest("What promotions do you have?")
  {
    var t := "What promotions do you have?";
    forall k | 0 <= k < |t| ensures !StartsLike(t, k, "early") {
    }
    NoEarly(t);
  }
}
