# Fountain-pen comparison engine: a Dafny model

This project models the logic behind a fountain-pen comparison site. The site scores a
catalogue of pens against weighted criteria, filters and searches the catalogue, and keeps
a user's tuned scores in browser storage. Three parts are modelled:

- **Weights and scores** (`src/lib/scoring.ts`). Weights are derived from pairwise
  criterion comparisons: every criterion starts at 1, each comparison moves 0.1 from the
  losing criterion to the preferred one, then every weight is clamped at 0.1 and divided by
  the clamped total. An item's score is the weighted mean of its per-criterion scores, each
  taken from the criterion's 1-5 value table (or its default) and turned into a percentage.
  Both functions update local variables in loops. They are modelled as methods with loop
  invariants, proved equal to recursive specification functions, and the promised
  properties are proved as lemmas about those functions.
- **Filter and search** (`src/lib/filtering.ts`). A filter keeps the items that satisfy
  every attribute/operator/value rule. Search is a case-insensitive substring search over
  name, description and string specs. Both are pure and are modelled as functions over an
  order-preserving `Keep` (the model of `Array.prototype.filter`).
- **Preferences** (`src/lib/preferences.ts`). Saved per-value scores are laid over the
  criteria by a pure function, and a score table is extracted from the criteria by a method
  with nested loops. The single storage slot is a class, `PreferenceStore`, whose methods
  load, save-with-merge and clear it.

Modules: `Wrappers` (Option), `Types` (the records of `src/lib/types.ts`), `Text`
(JavaScript lower-casing, `includes` and `trim`), `Seqs` (filtering a sequence),
`Scoring`, `Filtering`, `Preferences`.

Points where the code goes beyond its declared types or leaves cases unchecked:

- The declared `FilterRule.operator` type (`src/lib/types.ts`) lists five operators. The filter code also
  handles `has` and `has_any`, and lets any other operator through. `Types.FilterOp` has
  all seven plus an `Other` arm for unrecognised names; `Filtering.OperatorOf` is the
  `switch` dispatch from a name to an arm.
- The code does not check the criterion ids of a comparison: an unknown id makes
  `undefined + 0.1` yield `NaN` and adds a new key. The model makes known ids a precondition.
- The score is in [0, 100] only under conditions: weights non-negative and every score
  within 1-5. `Scoring.ItemScoreRange` proves the range under exactly those conditions.
- No batch scorer exists in the code; only the single-item score is modelled.

## Model

| member | source | states |
|---|---|---|
| `Types.SpecOf` | src/lib/filtering.ts:6 | reading a spec key the item does not have yields `undefined` |
| `Scoring.CalculateWeightsFromComparisons` | src/lib/scoring.ts:3-30 | the returned record has exactly the criterion ids as keys and equals the init/adjust/clamp/normalise specification `DeriveWeights` |
| `Scoring.StartWeights` | src/lib/scoring.ts:9-10 | the init loop gives every distinct id weight 1, and the keys in first-insertion order |
| `Scoring.ApplyComparisons` | src/lib/scoring.ts:13-21 | the adjust loop applies the comparisons in input order: an A or B preference moves 0.1 to the preferred side, `equal` does nothing |
| `Scoring.ClampedSum` | src/lib/scoring.ts:24 | the reduce sums `max(0.1, w)` over all keys, which is at least 0.1 when there is a key |
| `Scoring.DivideByTotal` | src/lib/scoring.ts:25-27 | the in-place pass replaces every weight by its clamped value over the total, reading each old weight before it is overwritten |
| `Scoring.AdjustKeepsSum` | src/lib/scoring.ts:14-20 | a comparison moves exactly 0.1 between two entries, or changes nothing, so the sum over all keys is unchanged |
| `Scoring.AdjustedWeightsSumToCount` | src/lib/scoring.ts:10-21 | before clamping, the running weights sum to the number of distinct criteria |
| `Scoring.ClampedTotalPositive` | src/lib/scoring.ts:24 | with at least one criterion the clamped total is at least 0.1; with none the result is empty |
| `Scoring.DerivedWeightsSumToOne` | src/lib/scoring.ts:9-29 | the derived weights have exactly the criterion ids as keys and sum to 1 when there is a criterion |
| `Scoring.DerivedWeightsFloor` | src/lib/scoring.ts:24-27 | every derived weight is positive and at least 0.1 divided by the clamped total |
| `Scoring.NoComparisonsUniform` | src/lib/scoring.ts:10-27 | with no comparisons every weight is 1/n, n the number of distinct ids (the number of criteria when ids are distinct) |
| `Scoring.SinglePreference` | src/lib/scoring.ts:14-16 | one comparison preferring A over a different B gives A a strictly larger weight than B |
| `Scoring.RawScore` | src/lib/scoring.ts:37-43 | a criterion's raw score is always its default or one of its table's scores |
| `Scoring.CalculateItemScore` | src/lib/scoring.ts:32-52 | the loop computes the weighted mean of the percentages `(raw/5)*100`, or 0 when the total weight is not positive (so 0 for no criteria) |
| `Scoring.ItemScoreRange` | src/lib/scoring.ts:41-51 | with non-negative weights and all scores within 1-5 the score is 0 or lies in [20, 100]; zero total weight gives 0 |
| `Scoring.ScoreIgnoresWeightScale` | src/lib/scoring.ts:46-51 | multiplying every weight by one positive factor leaves the score unchanged, so weights need not be normalised |
| `Scoring.UniformRawScore` | src/lib/scoring.ts:46-51 | when every criterion rates the item v and the total weight is positive, the score is 20v: a weighted mean of equal values is that value |
| `Scoring.NibMaterialExample` | src/lib/scoring.ts:37-51 | nib table {steel 3, 14k gold 4}, default 3, weight 1: a 14k-gold nib scores 80 and an unlisted titanium nib scores 60 |
| `Filtering.ApplyFilters` | src/lib/filtering.ts:3-31 | the result holds exactly the items that satisfy every rule, as a subsequence of the input, each as often as in the input |
| `Filtering.NoRulesKeepsAll` | src/lib/filtering.ts:4-5 | with no rules the catalogue is returned unchanged |
| `Filtering.FiltersCompose` | src/lib/filtering.ts:4-5 | filtering by a and then by b equals filtering once by a ++ b |
| `Filtering.OperatorOf` | src/lib/filtering.ts:8-26 | a name selects one of the seven cases exactly when it is one of the seven case labels; any other name falls through to `Other` with the name kept |
| `Filtering.OperatorNameRoundTrip` | src/lib/filtering.ts:8-26 | decoding the name of any operator gives that operator back, and naming the decoded operator gives back the string |
| `Filtering.OperatorSemantics` | src/lib/filtering.ts:8-28 | equals is strict equality (an `equals null` rule matches only an explicit null); greater/less need a numeric spec; contains needs a string spec containing the value, ignoring case; in/has/has_any are list membership and overlap; any unrecognised operator passes |
| `Filtering.FillingSystemExample` | src/lib/filtering.ts:17-18 | an `in ['piston','vacuum']` rule on filling_system keeps exactly the items whose filling system is one of the two |
| `Filtering.SearchItems` | src/lib/filtering.ts:33-44 | a blank term returns the input; otherwise exactly the items whose name, description or a string spec contains the lower-cased untrimmed term, in order, each as often as in the input |
| `Filtering.SearchIgnoresCase` | src/lib/filtering.ts:34-36 | two terms with the same lower-case form give the same result |
| `Filtering.SearchResinExample` | src/lib/filtering.ts:36 | searching for "RESIN" and "resin" finds the same pens |
| `Text.TrimEmptyIff` | src/lib/filtering.ts:34 | a term trims to the empty string exactly when it is all whitespace |
| `Preferences.ApplyCriteriaScores` | src/lib/preferences.ts:78-98 | no saved table: input returned; same length and order; a criterion with no saved entry passes through; id, name, description, weight, default and value keys and labels are kept; a score is replaced exactly where an override exists |
| `Preferences.ApplyIdempotent` | src/lib/preferences.ts:78-98 | applying the same preferences twice equals applying them once |
| `Preferences.ScoreTableOf` | src/lib/preferences.ts:61-67 | the extracted table has exactly the criterion ids as keys |
| `Preferences.ScoreTableAt` | src/lib/preferences.ts:61-67 | with distinct ids, each criterion's entry is exactly its own value scores |
| `Preferences.ExtractScores` | src/lib/preferences.ts:61-67 | the nested loops build the table `ScoreTableOf` |
| `Preferences.SavedScoresRoundTrip` | src/lib/preferences.ts:78-98 | applying the table extracted from criteria with distinct ids back to them returns them unchanged |
| `Preferences.Parse` | src/lib/preferences.ts:30-40 | loading yields a record exactly when a well-formed record is stored; nothing stored and malformed data both yield none |
| `Preferences.Stamp` | src/lib/preferences.ts:16-20 | a saved record always carries version "1.0" and keeps both preference fields |
| `Preferences.WithMatrix` | src/lib/preferences.ts:47-51 | the matrix merge sets the matrix and keeps the previously stored scores and version |
| `Preferences.WithScores` | src/lib/preferences.ts:58-72 | the scores merge sets the score table and keeps the previously stored matrix and version |
| `Preferences.PreferenceStore.LoadPreferences` | src/lib/preferences.ts:30-40 | returns `Parse` of the slot: the stored record, or none when the slot is empty or malformed; never fails |
| `Preferences.PreferenceStore.SavePreferences` | src/lib/preferences.ts:14-25 | the slot is overwritten with the record stamped version "1.0" |
| `Preferences.PreferenceStore.SaveComparisonMatrix` | src/lib/preferences.ts:46-52 | after the save, loading yields the new matrix, the previously stored scores and version "1.0" |
| `Preferences.PreferenceStore.SaveCriteriaScores` | src/lib/preferences.ts:57-73 | after the save, loading yields the criteria's score table, the previously stored matrix and version "1.0" |
| `Preferences.PreferenceStore.ClearPreferences` | src/lib/preferences.ts:103-109 | the slot is emptied, so a later load yields none |
| `Preferences.ScoresSurviveMatrixSave` | src/lib/preferences.ts:46-73 | saving scores and then a matrix still loads preferences that give the criteria (distinct ids) back unchanged |

## Left out

- Numbers are exact reals. IEEE floating-point rounding, `NaN` and infinities are not modelled.
- `Scoring.CalculateWeightsFromComparisons`: requires every A/B comparison to name known ids, because with an unknown id the code computes `undefined + 0.1` (`NaN`) and adds a phantom key.
- `Filtering.ApplyFilters`: requires a string rule value for `contains` (the code throws otherwise). It also requires a numeric rule value for `greater`/`less`, because JavaScript's coercion of strings, `null` and `undefined` in relational comparisons is not modelled. Its requirement that `Other` carries an unrecognised name excludes no operator string: `OperatorOf` never yields `Other` for one of the seven case labels.
- `Filtering.OperatorSemantics`: arrays compare by identity in `===` and `includes`. The model treats every array operand as a distinct object, so an array never equals anything.
- Lower-casing is ASCII only (A-Z); JavaScript's full Unicode `toLowerCase` is not modelled. `trim` is modelled with ECMAScript's whitespace and line-terminator characters.
- `Scoring.RawScore`: item specs are declared as strings or null. A number or list spec, which only the filter code inspects, falls back to the default score in the model.
- Storage is one slot field. `localStorage`, JSON serialisation and parsing, and the diagnostics on `console.error` are not modelled. Malformed stored text is the `Malformed` state; it can only be present at start-up.
- A failing `setItem` or `removeItem`, whose exception the code swallows, is not modelled: saves and clears always take effect.
- The `timestamp` each save writes comes from the clock and is not modelled.
- Records that parse but do not have the preferences' shape (for example a stored number) are not modelled.
- JavaScript prototype keys in record lookups are not modelled.
- The HTTP submission and issue-report handlers, the static catalogue data and the UI theme only log, hold data or style pages, and are not part of this model.
