/**
 * The merchant classifier of apps/api/ml_utils.py: a merchant name or a
 * category word is normalised and sorted into one of four spending
 * categories by keyword sets.
 */
module MlUtils {
  import opened Wrappers
  import opened Text

  const GroceryMerchants: set<string> := {
    "walmart", "no frills", "freshco", "loblaws", "real canadian superstore",
    "shoppers drug mart", "sobeys", "metro", "food basics", "costco",
    "longo's", "save-on-foods"
  }

  const DiningWords: set<string> := {"dining", "restaurant", "restaurants"}

  const FlightWords: set<string> := {"flights", "flight", "airline", "airlines"}

  const Categories: set<string> := {"dining", "flights", "groceries", "other"}

  /** A string `normalize` leaves as it is: no surrounding whitespace, no upper case. */
  predicate IsNormal(s: string) {
    Trimmed(Python, s) && NoUpper(s)
  }

  /** `normalize`: `None` and "" become "", anything else is stripped and lowercased. */
  function Normalize(text: Option<string>): string {
    var s := if text.None? || text.value == "" then "" else text.value;
    Lower(Trim(Python, s))
  }

  /** What `normalize` returns has no surrounding whitespace and no upper case, and is no longer than its input. */
  lemma NormalizeIsNormal(text: Option<string>)
    ensures IsNormal(Normalize(text))
    ensures text.Some? ==> |Normalize(text)| <= |text.value|
    ensures text == None || text == Some("") ==> Normalize(text) == ""
  {
    var s := if text.None? || text.value == "" then "" else text.value;
    LowerKeepsSpaces(Python, Trim(Python, s));
  }

  /** Whatever whitespace surrounds a word, in whatever case, `normalize` gives the word in lower case. */
  lemma NormalizePadded(p: string, u: string, q: string)
    requires AllSpace(Python, p) && AllSpace(Python, q) && Trimmed(Python, u)
    ensures Normalize(Some(p + u + q)) == Lower(u)
  {
    TrimPadded(Python, p, u, q);
  }

  /** A string that is already normal is its own normal form. */
  lemma NormalizeFixesNormal(s: string)
    requires IsNormal(s)
    ensures Normalize(Some(s)) == s
  {
    assert [] + s + [] == s;
    NormalizePadded([], s, []);
  }

  lemma NormalizeIdempotent(text: Option<string>)
    ensures Normalize(Some(Normalize(text))) == Normalize(text)
  {
    NormalizeIsNormal(text);
    NormalizeFixesNormal(Normalize(text));
  }

  /** The three keyword sets share no word, so the order of the tests cannot matter. */
  lemma KeywordSetsDisjoint()
    ensures DiningWords * FlightWords == {}
    ensures DiningWords * GroceryMerchants == {}
    ensures FlightWords * GroceryMerchants == {}
  {
  }

  /** The keyword tests of `merchant_to_category`, on an already normalised string, in the order written. */
  function Classify(m: string): (r: string)
    ensures r in Categories
    ensures r == "dining" <==> m in DiningWords
    ensures r == "flights" <==> m in FlightWords
    ensures r == "groceries" <==> m in GroceryMerchants
    ensures r == "other" <==> m !in DiningWords + FlightWords + GroceryMerchants
  {
    KeywordSetsDisjoint();
    if m in DiningWords then "dining"
    else if m in FlightWords then "flights"
    else if m in GroceryMerchants then "groceries"
    else "other"
  }

  /** `merchant_to_category`: the input normalised, then classified by keyword set. */
  function MerchantToCategory(merchantOrCategory: Option<string>): string {
    Classify(Normalize(merchantOrCategory))
  }

  /** Case and surrounding whitespace never change the category. */
  lemma CategoryIgnoresCaseAndPadding(merchantOrCategory: Option<string>)
    ensures MerchantToCategory(merchantOrCategory) == MerchantToCategory(Some(Normalize(merchantOrCategory)))
  {
    NormalizeIdempotent(merchantOrCategory);
  }

  /** No keyword has surrounding whitespace. */
  lemma KeywordsAreTrimmed(w: string)
    requires w in DiningWords + FlightWords + GroceryMerchants
    ensures Trimmed(Python, w)
  {
  }

  /** A keyword of any set, in any case and with any surrounding whitespace, lands in that set's category. */
  lemma KeywordAnyCaseOrPadding(p: string, u: string, q: string)
    requires AllSpace(Python, p) && AllSpace(Python, q)
    requires Lower(u) in DiningWords + FlightWords + GroceryMerchants
    ensures Normalize(Some(p + u + q)) == Lower(u)
    ensures Lower(u) in DiningWords ==> MerchantToCategory(Some(p + u + q)) == "dining"
    ensures Lower(u) in FlightWords ==> MerchantToCategory(Some(p + u + q)) == "flights"
    ensures Lower(u) in GroceryMerchants ==> MerchantToCategory(Some(p + u + q)) == "groceries"
  {
    KeywordsAreTrimmed(Lower(u));
    LowerKeepsSpaces(Python, u);
    NormalizePadded(p, u, q);
  }

  /** A word given with no padding is classified by its lowercase form. */
  lemma Unpadded(u: string)
    requires Trimmed(Python, u)
    ensures MerchantToCategory(Some(u)) == Classify(Lower(u))
  {
    assert [] + u + [] == u;
    NormalizePadded([], u, []);
  }

  /** The dining words are written in lower case. */
  lemma DiningWordsAreLower(w: string)
    requires w in DiningWords
    ensures Lower(w) == w
  {
    if w == "dining" {
      assert Lower(w) == w;
    } else if w == "restaurant" {
      assert Lower(w) == w;
    } else {
      assert Lower(w) == w;
    }
  }

  /** The flight words are written in lower case. */
  lemma FlightWordsAreLower(w: string)
    requires w in FlightWords
    ensures Lower(w) == w
  {
    if w == "flights" {
      assert Lower(w) == w;
    } else if w == "flight" {
      assert Lower(w) == w;
    } else if w == "airline" {
      assert Lower(w) == w;
    } else {
      assert Lower(w) == w;
    }
  }

  /** The category words, passed as written, get their own category. */
  lemma CategoryWordsAsWritten(w: string)
    requires w in DiningWords + FlightWords
    ensures w in DiningWords ==> MerchantToCategory(Some(w)) == "dining"
    ensures w in FlightWords ==> MerchantToCategory(Some(w)) == "flights"
  {
    if w in DiningWords {
      DiningWordsAreLower(w);
    } else {
      FlightWordsAreLower(w);
    }
    assert [] + w + [] == w;
    KeywordAnyCaseOrPadding([], w, []);
  }

  /** A padded, capitalised chain name is still a grocery merchant. */
  lemma PaddedWalmartIsGroceries()
    ensures MerchantToCategory(Some("  Walmart ")) == "groceries"
  {
    assert "  Walmart " == "  " + "Walmart" + " ";
    assert Lower("Walmart") == "walmart";
    KeywordAnyCaseOrPadding("  ", "Walmart", " ");
  }

  /** Python's `strip` also removes the information separators 0x1C..0x1F, so a chain name behind one is still a grocery merchant. */
  lemma SeparatorPaddedWalmartIsGroceries()
    ensures MerchantToCategory(Some("\U{1C}Walmart")) == "groceries"
  {
    assert "\U{1C}Walmart" == "\U{1C}" + "Walmart" + "";
    assert Lower("Walmart") == "walmart";
    KeywordAnyCaseOrPadding("\U{1C}", "Walmart", "");
  }

  /** A word outside every keyword set, in any case and with any surrounding whitespace, is "other". */
  lemma UnlistedAnyCaseOrPadding(p: string, u: string, q: string)
    requires AllSpace(Python, p) && AllSpace(Python, q) && Trimmed(Python, u)
    requires Lower(u) !in DiningWords + FlightWords + GroceryMerchants
    ensures MerchantToCategory(Some(p + u + q)) == "other"
  {
    NormalizePadded(p, u, q);
  }

  /** A word with no padding whose lowercase form is in no keyword set is "other". */
  lemma Unlisted(u: string)
    requires Trimmed(Python, u) && Lower(u) !in DiningWords + FlightWords + GroceryMerchants
    ensures MerchantToCategory(Some(u)) == "other"
  {
    Unpadded(u);
  }

  /** A hardware chain is not a grocery merchant. */
  lemma CanadianTireIsOther()
    ensures MerchantToCategory(Some("Canadian Tire")) == "other"
  {
    assert Lower("Canadian Tire") == "canadian tire";
    Unlisted("Canadian Tire");
  }

  /** "transport" is no category word: there is no transport category. */
  lemma TransportIsOther()
    ensures MerchantToCategory(Some("transport")) == "other"
  {
    assert Lower("transport") == "transport";
    Unlisted("transport");
  }

  /** A grocery chain missing from the grocery set is "other" too. */
  lemma IndependentGrocerIsOther()
    ensures MerchantToCategory(Some("independent grocer")) == "other"
  {
    assert Lower("independent grocer") == "independent grocer";
    Unlisted("independent grocer");
  }

  /** A missing name is "other". */
  lemma NoneIsOther()
    ensures MerchantToCategory(None) == "other"
  {
    NormalizeIsNormal(None);
    EmptyIsOther(Normalize(None));
  }

  /**
   * "" is in no keyword set. Kept apart from `NoneIsOther`: proved there,
   * beside the unfolded `normalize`, the membership test exhausts the solver.
   */
  lemma EmptyIsOther(m: string)
    requires m == ""
    ensures Classify(m) == "other"
  {
  }
}
