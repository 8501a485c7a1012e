/** The product catalogue of the payment provider: one product per paid plan and billing cycle. */
module DodoPayments {
  import opened Wrappers
  import opened Text

  const ProductIds: map<string, string> := map[
    "starter" + "_" + "monthly" := "pdt_tfooh1hgdtu28iMdXSRl3",
    "professional" + "_" + "monthly" := "pdt_q0ZUGAq69LZ4vNUZGYjFS",
    "business" + "_" + "monthly" := "pdt_FInGMoMySf6lYrxia8qgq",
    "starter" + "_" + "annual" := "pdt_uO0U9F22GbAd87C6S7CzG",
    "professional" + "_" + "annual" := "pdt_eewWmwQNJ26eMyvhRoG62",
    "business" + "_" + "annual" := "pdt_rQiqTXDkiarEO0HW4WrIS"
  ]

  /** The catalogue key of a plan and billing cycle, both lower-cased. */
  function ProductKey(plan: string, billingCycle: string): string {
    LowerStr(plan) + "_" + LowerStr(billingCycle)
  }

  function InvalidPlanMessage(plan: string, billingCycle: string): string {
    "Invalid plan or billing cycle: " + plan + ", " + billingCycle
  }

  /** `get_product_id`: the catalogue entry for the key, or the `ValueError` raised for an unknown key or an empty id. */
  function GetProductId(plan: string, billingCycle: string): (r: Result<string, string>)
    ensures r.Success? ==> (r.value != "" && ProductKey(plan, billingCycle) in ProductIds
      && r.value == ProductIds[ProductKey(plan, billingCycle)])
    ensures r.Failure? ==> (r.error == InvalidPlanMessage(plan, billingCycle)
      && (ProductKey(plan, billingCycle) !in ProductIds || ProductIds[ProductKey(plan, billingCycle)] == ""))
  {
    var key := ProductKey(plan, billingCycle);
    if key !in ProductIds || ProductIds[key] == "" then Failure(InvalidPlanMessage(plan, billingCycle))
    else Success(ProductIds[key])
  }

  predicate IsPaidPlan(p: string) {
    p == "starter" || p == "professional" || p == "business"
  }

  predicate IsCycle(c: string) {
    c == "monthly" || c == "annual"
  }

  lemma LowerIdempotent(s: string)
    ensures LowerStr(LowerStr(s)) == LowerStr(s)
  {
  }

  /** The lookup ignores case: a plan and cycle find what their lower-cased forms find. */
  lemma GetProductIdCaseInsensitive(plan: string, billingCycle: string)
    ensures GetProductId(plan, billingCycle).Success? == GetProductId(LowerStr(plan), LowerStr(billingCycle)).Success?
    ensures GetProductId(plan, billingCycle).Success? ==>
      GetProductId(plan, billingCycle).value == GetProductId(LowerStr(plan), LowerStr(billingCycle)).value
  {
    LowerIdempotent(plan);
    LowerIdempotent(billingCycle);
    assert ProductKey(LowerStr(plan), LowerStr(billingCycle)) == ProductKey(plan, billingCycle);
  }

  /** Two keys with one underscore each, between parts free of underscores, are equal only part by part. */
  lemma {:induction false} UnderscoreSplit(a: string, b: string, x: string, y: string)
    requires '_' !in x && '_' !in y
    requires a + "_" + b == x + "_" + y
    ensures a == x && b == y
  {
    var k := a + "_" + b;
    assert k[|a|] == '_';
    assert forall i :: 0 <= i < |k| && i != |x| ==> k[i] != '_' by {
      forall i | 0 <= i < |k| && i != |x|
        ensures k[i] != '_'
      {
        if i < |x| {
          assert k[i] == x[i];
        } else {
          assert k[i] == y[i - |x| - 1];
        }
      }
    }
    assert |a| == |x|;
    assert k[..|a|] == a && k[|a| + 1..] == b;
    assert k[..|x|] == x && k[|x| + 1..] == y;
  }

  lemma CatalogueParts()
    ensures '_' !in "starter" && '_' !in "professional" && '_' !in "business"
    ensures '_' !in "monthly" && '_' !in "annual"
  {
  }

  /**
   * Exactly the six pairs of a paid plan and a cycle have a product, whatever the case they are
   * written in; an enterprise plan has none.
   */
  lemma ExactlySixPairs(plan: string, billingCycle: string)
    ensures GetProductId(plan, billingCycle).Success? <==> IsPaidPlan(LowerStr(plan)) && IsCycle(LowerStr(billingCycle))
    ensures LowerStr(plan) == "enterprise" ==> GetProductId(plan, billingCycle).Failure?
  {
    var a, b := LowerStr(plan), LowerStr(billingCycle);
    var key := ProductKey(plan, billingCycle);
    CatalogueParts();
    if key in ProductIds {
      if key == "starter" + "_" + "monthly" { UnderscoreSplit(a, b, "starter", "monthly"); }
      else if key == "professional" + "_" + "monthly" { UnderscoreSplit(a, b, "professional", "monthly"); }
      else if key == "business" + "_" + "monthly" { UnderscoreSplit(a, b, "business", "monthly"); }
      else if key == "starter" + "_" + "annual" { UnderscoreSplit(a, b, "starter", "annual"); }
      else if key == "professional" + "_" + "annual" { UnderscoreSplit(a, b, "professional", "annual"); }
      else { UnderscoreSplit(a, b, "business", "annual"); }
    }
  }

  /** No two plans share a product. */
  lemma ProductIdsDistinct()
    ensures forall k1, k2 :: k1 in ProductIds && k2 in ProductIds && k1 != k2 ==> ProductIds[k1] != ProductIds[k2]
  {
    assert "pdt_tfooh1hgdtu28iMdXSRl3"[4] == 't' && "pdt_q0ZUGAq69LZ4vNUZGYjFS"[4] == 'q';
    assert "pdt_FInGMoMySf6lYrxia8qgq"[4] == 'F' && "pdt_uO0U9F22GbAd87C6S7CzG"[4] == 'u';
    assert "pdt_eewWmwQNJ26eMyvhRoG62"[4] == 'e' && "pdt_rQiqTXDkiarEO0HW4WrIS"[4] == 'r';
  }
}
