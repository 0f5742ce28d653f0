/**
 * The backend's rule-based card recommender (`recommend_card` in
 * apps/api/main.py): three rules over the request body, answered with a
 * JSON object carrying the card and the reason for it.
 */
module CardApi {

  /** The request body of `POST /recommend/card`. */
  datatype UserProfile = UserProfile(is_student: bool, primary_spend: string, priority: string)

  const NoFeeCard := "No-Fee Cashback Card"
  const AvionCard := "Avion Points Card"
  const GeneralCard := "General Cashback Card"

  const NoFeeReason := "Best for student grocery spending"
  const AvionReason := "Better rewards on expensive travel purchases"
  const GeneralReason := "Balanced rewards for everyday spending"

  /** The JSON object the route returns. */
  function Reply(card: string, reason: string): map<string, string> {
    map["recommended_card" := card, "reason" := reason]
  }

  /** The three answers the route can give, each card with its own reason. */
  ghost predicate IsKnownReply(r: map<string, string>) {
    r == Reply(NoFeeCard, NoFeeReason) || r == Reply(AvionCard, AvionReason) || r == Reply(GeneralCard, GeneralReason)
  }

  /** `recommend_card`: the first rule that applies, in the order written. */
  function RecommendCard(user: UserProfile): (r: map<string, string>)
    ensures r.Keys == {"recommended_card", "reason"} && "use_card" !in r
    ensures IsKnownReply(r)
  {
    if user.is_student && user.primary_spend == "groceries" then
      Reply(NoFeeCard, NoFeeReason)
    else if user.primary_spend == "travel" && user.priority == "points" then
      Reply(AvionCard, AvionReason)
    else
      Reply(GeneralCard, GeneralReason)
  }

  /** Which card each request gets. The two special rules never compete: they need different spend categories. */
  lemma RecommendCardRules(user: UserProfile)
    ensures RecommendCard(user)["recommended_card"] == NoFeeCard <==>
      user.is_student && user.primary_spend == "groceries"
    ensures RecommendCard(user)["recommended_card"] == AvionCard <==>
      user.primary_spend == "travel" && user.priority == "points"
    ensures RecommendCard(user)["recommended_card"] == GeneralCard <==>
      !(user.is_student && user.primary_spend == "groceries")
      && !(user.primary_spend == "travel" && user.priority == "points")
  {
    assert NoFeeCard[0] != AvionCard[0] && NoFeeCard[0] != GeneralCard[0] && AvionCard[0] != GeneralCard[0];
    assert "groceries"[0] != "travel"[0];
  }

  /** A request that asks for cashback is never sent to the points card. */
  lemma CashbackNeverPoints(user: UserProfile)
    requires user.priority == "cashback"
    ensures RecommendCard(user)["recommended_card"] != AvionCard
  {
    RecommendCardRules(user);
    assert "cashback"[0] != "points"[0];
  }
}
