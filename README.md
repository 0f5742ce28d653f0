# SwipeSense: a Dafny model of the wizard, the card recommender and the merchant classifier

SwipeSense walks a user through a four-step form in the browser (sign up,
say how many cards they hold, pick the banks that issued them, pick where
they are spending today) and asks a small Python backend which card to use.
This project models the parts of it that have behaviour worth stating:

- `wizard.dfy` (module `Wizard`, from `apps/web/app/page.tsx`): the page
  component as a class `Home` whose fields are the component's state slots
  (`user`, `isAuthed`, `cardCount`, `banks`, `merchant`, `result`, `error`)
  and whose methods are the event handlers, each one atomic update. The step
  shown is never stored: `DeriveStep` recomputes it from `isAuthed`,
  `cardCount` and the number of banks. The handlers' pure parts are
  functions: the `setBanks` updater of `toggleBank` (`Toggled`, built on
  `Without`, the model of `filter`), the trim of the card-count button
  (`Take`, the model of `slice(0, n)`), `validateAuth`, `isValidEmail` and
  `normalizeMerchantForApi`. The email regular expression
  `^[^\s@]+@[^\s@]+\.[^\s@]+$` is stated directly as `MatchesEmailPattern`
  (local part, '@', name, '.', rest). `IsValidEmail` checks it by finding
  the first '@', and a lemma proves the two agree on every input.
- `card_api.dfy` (module `CardApi`, from `apps/api/main.py`): the
  rule-based `recommend_card`. Its answer is a string map, so the model can
  say which JSON keys it has.
- `ml_utils.dfy` (module `MlUtils`, from `apps/api/ml_utils.py`):
  `normalize` and `merchant_to_category` with the three keyword sets.
- `text.dfy` (module `Text`): trimming and lowercasing, shared by both sides.
  The browser and Python disagree on whitespace, so trimming takes a
  `Runtime`. Both count space, tab, line feed, carriage return, vertical tab
  and form feed. Python's `strip` also removes the separators 0x1C..0x1F,
  which JavaScript's `trim` and `\s` keep. `Lower` maps only 'A'..'Z'.
- `wizard_request.dfy` (module `WizardRequest`): the request the page
  builds (`apps/web/app/page.tsx:185-189`) fed into `recommend_card`.
- `wrappers.dfy`: `Option`, which stands for `null`/`None`.

Some results of the model:

- Every request the wizard sends for a merchant picked from the dropdown
  gets the "General Cashback Card". The
  page always sends `is_student: true` and `priority: "cashback"`, and the
  merchant name it sends as `primary_spend` is never `"groceries"` or
  `"travel"`.
- The backend's own classifier files "Walmart" under groceries, but
  `recommend_card` compares `primary_spend` with the literal `"groceries"`
  and never calls the classifier. So a grocery chain chosen in the wizard
  does not reach the student-grocery rule (`GroceryChainNotTreatedAsGroceries`).

Three details of the handlers:

- `handleAuthSubmit` clears only `error`; `result` is left as it was.
- `toggleBank` clears `error` and `result` on every call, even when the
  selection is refused and `banks` stays as it was.
- `validateAuth` also tests `!user.email.trim()` before `isValidEmail`. That
  test is redundant: every address that fits the pattern is non-empty
  (`PatternImpliesNonEmpty`).

## Model

| member | source | states |
|---|---|---|
| `Wizard.DeriveStep` | apps/web/app/page.tsx:84-89 | The step is always 1 to 4. It is 1 exactly when not signed in. Otherwise it is 2 exactly when the card count is 0, 3 exactly when the bank count differs from a non-zero card count, and 4 exactly when they are equal. It depends on nothing else. |
| `Wizard.Without` | apps/web/app/page.tsx:133 | After the filter, `b` no longer occurs. Every other bank keeps its count (a multiset statement), and the list does not grow. |
| `Wizard.WithoutKeepsNoDup` | apps/web/app/page.tsx:133 | Filtering out a bank keeps a list without repeats free of repeats. |
| `Wizard.RemoveKeepsOrder` | apps/web/app/page.tsx:133 | In a list without repeats, filtering out the element at index i gives exactly the elements before it followed by the elements after it, so their order is kept. |
| `Wizard.Toggled` | apps/web/app/page.tsx:131-138 | There are three cases. A selected bank is removed and the others keep their multiplicities. An unselected bank is refused, leaving the list unchanged, when the list already holds `cardCount` banks. Otherwise it is appended at the end. |
| `Wizard.ToggleKeepsInvariant` | apps/web/app/page.tsx:131-138 | A toggle preserves "no repeated bank" and "no more banks than cards" whenever they held before. |
| `Wizard.ToggleRemovesInPlace` | apps/web/app/page.tsx:131-133 | Deselecting a bank that occurs once deletes it from its own position and leaves the order of the other banks unchanged. |
| `Wizard.ToggleNoOpIffDisabled` | apps/web/app/page.tsx:363-364 | A toggle leaves the selection unchanged exactly when the page greys out that bank's button: the bank is not selected and the limit is reached. |
| `Wizard.ToggleTwiceRestores` | apps/web/app/page.tsx:131-138 | Selecting an unselected bank below the limit and then toggling it again restores the earlier selection. |
| `Wizard.Take` | apps/web/app/page.tsx:333 | `slice(0, n)` returns a prefix of the list of length min(n, length), and it keeps the list free of repeats. |
| `Wizard.IsValidEmailIffPattern` | apps/web/app/page.tsx:42-44 | `isValidEmail` holds exactly when the trimmed address reads: a non-empty local part with no whitespace or '@', one '@', and then a name and a rest, each non-empty and free of whitespace and '@', joined by a '.'. |
| `Wizard.IsValidEmail` | apps/web/app/page.tsx:42-44 | `isValidEmail` on the trimmed text. Its contract is `Wizard.IsValidEmailIffPattern`. |
| `Wizard.PatternImpliesNonEmpty` | apps/web/app/page.tsx:156 | An address that fits the pattern is never empty, so the extra `!user.email.trim()` test never changes the outcome. |
| `Wizard.ValidateAuth` | apps/web/app/page.tsx:152-159 | `validateAuth` as its chain of checks. Its contract is `Wizard.ValidateAuthFirstFailure`. |
| `Wizard.ValidateAuthFirstFailure` | apps/web/app/page.tsx:152-159 | The result is the message of the first failing check, in the order name (trimmed non-empty), date of birth (non-empty), cell (trimmed non-empty), email (fits the pattern). Each message is reported exactly when its own check fails and all earlier ones pass. The result is null exactly when every check passes. |
| `Wizard.MessagesDistinct` | apps/web/app/page.tsx:153-157 | The four validation messages are pairwise different, so the text shown identifies the failed check. |
| `Wizard.NormalizeMerchantForApi` | apps/web/app/page.tsx:46-53 | Transport is sent as "Other". Every other merchant, Dining included, is sent as its own name. The result is never "groceries" or "travel". |
| `Wizard.NormalizeMerchantInjective` | apps/web/app/page.tsx:46-53 | Two different merchants are never sent as the same string. |
| `Wizard.Shown` | apps/web/app/page.tsx:446-458 | The card and reason the result panel shows for either reply shape. What it guarantees is `Wizard.BothShapesShownAlike`. |
| `Wizard.BothShapesShownAlike` | apps/web/app/page.tsx:446-458 | A `{recommended_card, reason}` answer and a `{use_card, reason}` answer with the same card and reason are shown identically. |
| `Wizard.Home.Step` | apps/web/app/page.tsx:84-89 | The step shown for the current state is 1 to 4. It is 1 exactly when not signed in, and 4 exactly when signed in with as many banks as a non-zero card count. |
| `Wizard.Home.constructor` | apps/web/app/page.tsx:60-82 | On first render the state is: an empty profile, not signed in, one card, no banks, Walmart, and no result or error. The invariant holds and the step is 1. |
| `Wizard.Home.ToggleBank` | apps/web/app/page.tsx:127-139 | `banks` becomes `Toggled` of the old banks, and `error` and `result` become null even when the toggle is refused. No other slot changes. The invariant is kept. |
| `Wizard.Home.ChooseCardCount` | apps/web/app/page.tsx:330-336 | `cardCount` becomes n. `banks` becomes its own first min(n, length) elements, so it holds at most n. `result` and `error` are cleared. A signed-in user is then at step 4 if at least n banks were selected before, and at step 3 otherwise. |
| `Wizard.Home.ChooseMerchant` | apps/web/app/page.tsx:401-405 | The merchant is set, and `result` and `error` are cleared. |
| `Wizard.Home.EditProfile` | apps/web/app/page.tsx:274-301 | One profile field takes the typed text. The other fields and every other slot are unchanged, and nothing is validated. |
| `Wizard.Home.ResetAll` | apps/web/app/page.tsx:141-150 | Every slot returns to its first-render value: not signed in, an empty profile, one card, no banks, Walmart, and no result or error. The step is 1. |
| `Wizard.Home.HandleAuthSubmit` | apps/web/app/page.tsx:161-171 | `error` becomes the message `validateAuth` reports, or null. The user becomes signed in exactly when validation passes, and stays signed in if they already were. The profile and the other slots are unchanged. |
| `CardApi.RecommendCard` | apps/api/main.py:44-65 | The answer has exactly the keys `recommended_card` and `reason`, never `use_card`. It is one of the three card/reason pairs. |
| `CardApi.RecommendCardRules` | apps/api/main.py:50-65 | A student spending on "groceries" gets the No-Fee Cashback Card, and only they do. Spend "travel" with priority "points" gets the Avion Points Card, whether or not the user is a student. Every other request gets the General Cashback Card. |
| `CardApi.CashbackNeverPoints` | apps/api/main.py:56-60 | A request with priority "cashback" never gets the Avion Points Card. |
| `WizardRequest.RequestFor` | apps/web/app/page.tsx:185-189 | The request body for a merchant picked from the dropdown never has `primary_spend` equal to "groceries" or "travel". |
| `WizardRequest.WizardAlwaysGetsGeneralCard` | apps/api/main.py:50-65 | Whatever merchant is picked from the dropdown, the wizard's request `(true, normalizeMerchantForApi(m), "cashback")` is answered with the General Cashback Card and its reason. |
| `WizardRequest.GroceryChainNotTreatedAsGroceries` | apps/api/main.py:50 | The wizard sends Walmart as "Walmart". The backend classifier files that under "groceries", yet `recommend_card` answers with the general card. |
| `Text.TrimIsSlice` | apps/api/ml_utils.py:19 | For either runtime's whitespace, trimming returns a contiguous slice of the input. Everything cut off on either side is whitespace, and the slice neither starts nor ends with whitespace. |
| `Text.TrimPadded` | apps/api/ml_utils.py:19 | Trimming any whitespace padding off a core that has no whitespace at its ends gives back exactly that core. |
| `Text.TrimIdempotent` | apps/web/app/page.tsx:43 | Trimming twice is the same as trimming once. |
| `Text.Lower` | apps/api/ml_utils.py:19 | Lowercasing keeps the length and leaves no upper-case letter. Only upper-case letters change, each into the lower-case letter at the same place in the alphabet, so whitespace stays whitespace, and a string with no upper-case letter is returned unchanged. |
| `Text.TrimLowerCommute` | apps/api/ml_utils.py:19 | Stripping then lowercasing equals lowercasing then stripping. |
| `MlUtils.Normalize` | apps/api/ml_utils.py:18-19 | `normalize` with Python's whitespace. Its contract is `MlUtils.NormalizeIsNormal`, with `MlUtils.NormalizePadded` and `MlUtils.NormalizeIdempotent`. |
| `MlUtils.NormalizeIsNormal` | apps/api/ml_utils.py:18-19 | `normalize` returns a string with no surrounding whitespace and no upper case, no longer than its input. For `None` and `""` it returns `""`. |
| `MlUtils.NormalizePadded` | apps/api/ml_utils.py:18-19 | `normalize` of a word surrounded by any whitespace is the lowercased word. |
| `MlUtils.NormalizeIdempotent` | apps/api/ml_utils.py:18-19 | `normalize(normalize(x)) == normalize(x)`. |
| `MlUtils.KeywordSetsDisjoint` | apps/api/ml_utils.py:3-28 | The dining, flight and grocery keyword sets share no word. |
| `MlUtils.Classify` | apps/api/ml_utils.py:24-33 | The result is one of "dining", "flights", "groceries" and "other". It is each of the first three exactly when the normalised input is in that keyword set, and "other" exactly when it is in none of them. So the order of the tests does not matter. |
| `MlUtils.MerchantToCategory` | apps/api/ml_utils.py:21-33 | `merchant_to_category` as `normalize` then the keyword tests. Its contract is in `MlUtils.Classify` and `MlUtils.CategoryIgnoresCaseAndPadding`. |
| `MlUtils.CategoryIgnoresCaseAndPadding` | apps/api/ml_utils.py:21-22 | `merchant_to_category(x) == merchant_to_category(normalize(x))`. |
| `MlUtils.KeywordAnyCaseOrPadding` | apps/api/ml_utils.py:21-31 | A keyword in any case and with any surrounding whitespace (for example any grocery chain) is classified into its own set's category. |
| `MlUtils.CategoryWordsAsWritten` | apps/api/ml_utils.py:24-28 | "dining", "restaurant" and "restaurants" give "dining". "flights", "flight", "airline" and "airlines" give "flights". |
| `MlUtils.PaddedWalmartIsGroceries` | apps/api/ml_utils.py:3-31 | "  Walmart " is classified as "groceries". |
| `MlUtils.SeparatorPaddedWalmartIsGroceries` | apps/api/ml_utils.py:18-31 | "\x1cWalmart" is classified as "groceries": `strip` removes the separator 0x1C. |
| `MlUtils.UnlistedAnyCaseOrPadding` | apps/api/ml_utils.py:21-33 | A word whose lowercase form is in no keyword set is "other", whatever its case and padding. |
| `MlUtils.CanadianTireIsOther` | apps/api/ml_utils.py:33 | "Canadian Tire" is "other". |
| `MlUtils.TransportIsOther` | apps/api/ml_utils.py:33 | "transport" is "other". |
| `MlUtils.IndependentGrocerIsOther` | apps/api/ml_utils.py:30-33 | "independent grocer" is missing from the grocery set, so it is "other". |
| `MlUtils.NoneIsOther` | apps/api/ml_utils.py:18-33 | A missing name (`None`) is "other". |

## Left out

- Rendering: the JSX, `StepBadge`, `Field`, the CSS classes and the `authMode` login/signup toggle. They are presentation only. The toggle changes no behaviour.
- Persistence: `safeJsonParse` and the `localStorage` load and save effects, including the `removeItem` in `resetAll`. They rely on browser storage and JSON. A snapshot loaded from storage is not checked by the page, so the class invariant `Valid()` is established by the constructor and kept by the handlers. It is not required by them.
- A `merchant` restored from storage: the load effect (apps/web/app/page.tsx:106) accepts any stored string, which `Wizard.Merchant` cannot represent. The results about requests hold for merchants picked from the dropdown.
- Network and async code: the health probe, `getRecommendation`, the `loading` flag and the `connected` flag. The request body that `getRecommendation` builds is modelled as `WizardRequest.RequestFor`.
- FastAPI plumbing: the app, the CORS middleware, the `/health` and `/db/health` routes, and pydantic validation of the request body.
- `recommend_for_transaction`: its input is a floating-point amount, and it returns nothing for amounts of 500 or less (it has no `return` after its `> 500` branch), so it returns `None` there.
- `apps/api/db.py`: a lazily created Mongo client. It is not part of this model.
- Unicode: only ASCII characters are classified. JavaScript's `trim` and `\s` also remove non-ASCII spaces such as U+00A0 and U+FEFF, and Python's `strip` also removes U+0085, U+00A0 and the other Unicode spaces. Python's `lower` also lowercases non-ASCII letters. Within ASCII, each runtime's own whitespace set is modelled.
- `Wizard.Home.ChooseCardCount`: requires 1 <= n <= 5, because the page only creates buttons for 1 to 5.
- `Wizard.DeriveStep`: `!cardCount` is modelled as `cardCount == 0`. A NaN count from corrupted storage is not represented, because the count is an integer.
