/**
 * What the wizard sends to the recommender and what comes back. The page
 * posts `{is_student: true, primary_spend: normalizeMerchantForApi(merchant),
 * priority: "cashback"}` (apps/web/app/page.tsx) to `recommend_card`
 * (apps/api/main.py).
 */
module WizardRequest {
  import opened Wrappers
  import Wizard
  import CardApi
  import MlUtils
  import Text

  /** The request body `getRecommendation` posts for the selected merchant. */
  function RequestFor(m: Wizard.Merchant): (req: CardApi.UserProfile)
    ensures req.primary_spend != "groceries" && req.primary_spend != "travel"
  {
    CardApi.UserProfile(true, Wizard.NormalizeMerchantForApi(m), "cashback")
  }

  /**
   * Neither special rule can fire for a request the wizard sends: no merchant is
   * sent as "groceries" or "travel", so every merchant gets the general card.
   */
  lemma WizardAlwaysGetsGeneralCard(m: Wizard.Merchant)
    ensures CardApi.RecommendCard(RequestFor(m))["recommended_card"] == CardApi.GeneralCard
    ensures CardApi.RecommendCard(RequestFor(m)) == CardApi.Reply(CardApi.GeneralCard, CardApi.GeneralReason)
  {
    var req := RequestFor(m);
    CardApi.RecommendCardRules(req);
    assert CardApi.NoFeeCard[0] != CardApi.GeneralCard[0] && CardApi.AvionCard[0] != CardApi.GeneralCard[0];
  }

  /**
   * Walmart is sent as "Walmart", which the backend's own classifier files under
   * groceries, yet the recommender compares the spend against the word
   * "groceries" and so still answers with the general card.
   */
  lemma GroceryChainNotTreatedAsGroceries()
    ensures MlUtils.MerchantToCategory(Some(RequestFor(Wizard.Walmart).primary_spend)) == "groceries"
    ensures CardApi.RecommendCard(RequestFor(Wizard.Walmart))["recommended_card"] == CardApi.GeneralCard
  {
    WizardAlwaysGetsGeneralCard(Wizard.Walmart);
    assert RequestFor(Wizard.Walmart).primary_spend == "Walmart";
    assert Text.Lower("Walmart") == "walmart";
    MlUtils.Unpadded("Walmart");
  }
}
