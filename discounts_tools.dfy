/** The `check_promotional_discount` tool: the three-way Early Risers decision (property/discounts/tools.py). */
module DiscountTools {
  import opened Text
  import opened Json
  import opened World
  import opened DiscountModels
  import opened DiscountServices
  import DiscountExamples

  const NotExplicitMessage := "I don't see a specific promotional request in your message. If you're looking for a discount code, please be more specific about which promotion you'd like."

  const UnavailableMessage := "The Early Risers promotion is not currently available. If you have any other questions or need help with something else, just let me know!"

  const ErrorPrefix := "Failed to check promotional discount: "

  /** The answer for one request. */
  datatype Decision =
    | NotExplicit
    | OutsideWindow
    | Eligible(discount: DiscountCode)
    | CheckFailed(detail: string)

  /** The message that goes with an issued code. */
  function CongratulationsMessage(d: DiscountCode): string {
    "Congratulations! Your Early Risers discount code is " + d.code + " for " + IntString(d.discountPercent) + "% off!"
  }

  /**
   * `check_promotional_discount` on a decoded argument, at the clock hour and with the uuid the
   * call sees. A non-string argument fails inside the regular-expression search.
   */
  function Check(request: Json, amb: Ambient): Decision {
    if !request.JStr? then CheckFailed("expected string or bytes-like object, got '" + TypeName(request) + "'")
    else if !IsExplicitRequest(request.s) then NotExplicit
    else if !IsPromoWindow(amb.pacificHour) then OutsideWindow
    else Eligible(GenerateCode(amb.uuidHex))
  }

  /**
   * A code is issued exactly for an explicit request inside the window; the code is the one made
   * from the call's uuid, so nothing is generated on any other path.
   */
  lemma EligibleExactly(request: string, amb: Ambient)
    ensures Check(JStr(request), amb).Eligible? <==> IsExplicitRequest(request) && IsPromoWindow(amb.pacificHour)
    ensures Check(JStr(request), amb).Eligible? ==> Check(JStr(request), amb).discount == Generate(amb.uuidHex)
  {
  }

  /** A request that is not explicit is turned down the same way at every hour: explicitness is tested first. */
  lemma NotExplicitAtAnyHour(request: string, amb: Ambient)
    requires !IsExplicitRequest(request)
    ensures Check(JStr(request), amb) == NotExplicit
  {
  }

  /** An explicit request outside 8-10 AM is told the promotion is unavailable. */
  lemma ExplicitOutsideWindow(request: string, amb: Ambient)
    requires IsExplicitRequest(request) && !IsPromoWindow(amb.pacificHour)
    ensures Check(JStr(request), amb) == OutsideWindow
  {
  }

  /** Only the hour and the uuid of the explicit, in-window path can change the answer. */
  lemma DecisionIgnoresUuidUnlessEligible(request: string, a1: Ambient, a2: Ambient)
    requires a1.pacificHour == a2.pacificHour
    requires !Check(JStr(request), a1).Eligible?
    ensures Check(JStr(request), a1) == Check(JStr(request), a2)
  {
  }

  /** A value that is not a string fails, naming its type. */
  lemma NonStringFails(request: Json, amb: Ambient)
    requires !request.JStr?
    ensures Check(request, amb) == CheckFailed("expected string or bytes-like object, got '" + TypeName(request) + "'")
  {
  }

  /** The document `json.dumps` receives. */
  function DecisionJson(d: Decision): (j: Json)
    ensures j.JObject?
    ensures "error" in j.fields <==> d.CheckFailed?
    ensures d.CheckFailed? ==> j.fields == map["error" := JStr(ErrorPrefix + d.detail)]
    ensures !d.CheckFailed? ==> "eligible" in j.fields && j.fields["eligible"] == JBool(d.Eligible?)
    ensures "code" in j.fields <==> d.Eligible?
    ensures "message" in j.fields <==> !d.CheckFailed?
    ensures d.Eligible? ==> j.fields["code"] == JStr(d.discount.code) && "discount_percent" in j.fields && j.fields["discount_percent"] == JInt(d.discount.discountPercent)
    ensures d.NotExplicit? ==> j.fields["message"] == JStr(NotExplicitMessage)
    ensures d.OutsideWindow? ==> j.fields["message"] == JStr(UnavailableMessage)
  {
    match d
    case NotExplicit => JObject(map["eligible" := JBool(false), "message" := JStr(NotExplicitMessage)])
    case OutsideWindow => JObject(map["eligible" := JBool(false), "message" := JStr(UnavailableMessage)])
    case Eligible(c) =>
      JObject(map["eligible" := JBool(true), "code" := JStr(c.code), "discount_percent" := JInt(c.discountPercent),
                  "message" := JStr(CongratulationsMessage(c))])
    case CheckFailed(e) => JObject(map["error" := JStr(ErrorPrefix + e)])
  }

  /** The congratulations message names the code and the percentage. */
  lemma MessageHoldsCodeAndPercent(d: DiscountCode)
    requires d.discountPercent == 10
    ensures Contains(CongratulationsMessage(d), d.code)
    ensures Contains(CongratulationsMessage(d), "10% off")
  {
    var before := "Congratulations! Your Early Risers discount code is ";
    var m := CongratulationsMessage(d);
    assert IntString(10) == "10";
    ContainsMiddle(before, d.code, " for 10% off!");
    assert m == before + d.code + " for 10% off!";
    ContainsMiddle(before + d.code + " for ", "10% off", "!");
    assert m == before + d.code + " for " + "10% off" + "!";
  }

  // ---- The repository's tool tests, at the hours they freeze the clock to ----

  /** 9 AM: the request is granted a code. */
  lemma GrantedAtNine(hex: UuidHex)
    ensures var d := Check(JStr("Can I get the Early Risers promo code?"), Ambient(9, hex));
      d.Eligible? && StartsWith(d.discount.code, CodePrefix) && d.discount.discountPercent == 10
  {
    DiscountExamples.Accepted1();
  }

  /** 2 PM: the same request is told the promotion is unavailable. */
  lemma UnavailableAtTwo(hex: UuidHex)
    ensures Check(JStr("Can I get the Early Risers promo code?"), Ambient(14, hex)) == OutsideWindow
  {
    DiscountExamples.Accepted1();
  }

  /** A general question is not a request for the promotion, whatever the hour. */
  lemma GeneralQuestionNotExplicit(amb: Ambient)
    ensures Check(JStr("Any deals right now?"), amb) == NotExplicit
  {
    DiscountExamples.RejectedNoPromotionNamed();
  }

  /** The window's edges: 8:00 is in and 10:00 is out. */
  lemma WindowEdges(hex: UuidHex)
    ensures Check(JStr("Early risers code please"), Ambient(8, hex)).Eligible?
    ensures Check(JStr("Early risers code please"), Ambient(10, hex)) == OutsideWindow
  {
    DiscountExamples.AcceptedAtWindowEdges();
  }
}
