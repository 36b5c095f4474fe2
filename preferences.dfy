/**
 * User preferences (src/lib/preferences.ts): saved per-value score
 * overrides laid over the catalogue's criteria, the score table extracted
 * from tuned criteria, and the single storage slot that holds both under a
 * read-merge-write discipline.
 */
module Preferences {
  import opened Wrappers
  import opened Types

  /** The outcome recorded for one pair in the comparison matrix. */
  datatype Direction = Up | Left | Equal

  type ComparisonMatrix = map<string, map<string, Direction>>

  /** criterion id -> (value key -> score). */
  type ScoreTable = map<string, map<string, real>>

  datatype UserPreferences = UserPreferences(
    comparisonMatrix: Option<ComparisonMatrix>,
    criteriaScores: Option<ScoreTable>,
    version: Option<string>)

  /** The version tag every save writes. */
  const CurrentVersion: string := "1.0"

  /** `{}`: the record a save merges into when nothing usable is stored. */
  const NoPreferences: UserPreferences := UserPreferences(None, None, None)

  // ---------------------------------------------------------------------
  // Applying saved scores to criteria.
  // ---------------------------------------------------------------------

  /** A value table with the saved scores laid over its existing keys; labels are kept. */
  function OverlayScores(values: map<string, CriterionValue>, saved: map<string, real>): map<string, CriterionValue>
  {
    map k | k in values :: if k in saved then values[k].(score := saved[k]) else values[k]
  }

  /** One criterion with its saved scores applied, if any are saved under its id. */
  function ApplySaved(c: Criterion, table: ScoreTable): Criterion
  {
    if c.id in table then c.(values := OverlayScores(c.values, table[c.id])) else c
  }

  /**
   * `applyCriteriaScores(criteria, preferences)`: the criteria, in order,
   * each with the saved scores for its existing value keys; everything
   * but those scores is kept, and nothing changes without saved scores.
   */
  function ApplyCriteriaScores(criteria: seq<Criterion>, prefs: UserPreferences): (r: seq<Criterion>)
    ensures prefs.criteriaScores.None? ==> r == criteria
    ensures |r| == |criteria|
    ensures forall i :: 0 <= i < |criteria| ==>
              (prefs.criteriaScores.None? || criteria[i].id !in prefs.criteriaScores.value) ==> r[i] == criteria[i]
    ensures forall i :: 0 <= i < |criteria| ==>
              && r[i].id == criteria[i].id && r[i].name == criteria[i].name
              && r[i].description == criteria[i].description && r[i].weight == criteria[i].weight
              && r[i].defaultScore == criteria[i].defaultScore
              && r[i].values.Keys == criteria[i].values.Keys
    ensures forall i, k :: 0 <= i < |criteria| && k in criteria[i].values ==>
              && r[i].values[k].value == criteria[i].values[k].value
              && r[i].values[k].score ==
                   if prefs.criteriaScores.Some? && criteria[i].id in prefs.criteriaScores.value
                      && k in prefs.criteriaScores.value[criteria[i].id]
                   then prefs.criteriaScores.value[criteria[i].id][k]
                   else criteria[i].values[k].score
  {
    match prefs.criteriaScores
    case None => criteria
    case Some(table) => seq(|criteria|, i requires 0 <= i < |criteria| => ApplySaved(criteria[i], table))
  }

  /** Applying the same preferences a second time changes nothing. */
  lemma ApplyIdempotent(criteria: seq<Criterion>, prefs: UserPreferences)
    ensures ApplyCriteriaScores(ApplyCriteriaScores(criteria, prefs), prefs) == ApplyCriteriaScores(criteria, prefs)
  {
    if prefs.criteriaScores.Some? {
      var once := ApplyCriteriaScores(criteria, prefs);
      var twice := ApplyCriteriaScores(once, prefs);
      forall i | 0 <= i < |criteria| ensures twice[i] == once[i] {
        assert twice[i].values == once[i].values;
      }
    }
  }

  // ---------------------------------------------------------------------
  // Extracting the score table.
  // ---------------------------------------------------------------------

  /** The scores of a value table, without their labels. */
  function ScoresOf(values: map<string, CriterionValue>): (r: map<string, real>)
    ensures r.Keys == values.Keys
  {
    map k | k in values :: values[k].score
  }

  /** The table `saveCriteriaScores` builds: each criterion id maps to its scores; a later duplicate id wins. */
  function ScoreTableOf(criteria: seq<Criterion>): (t: ScoreTable)
    ensures t.Keys == IdSet(criteria)
  {
    if criteria == [] then map[]
    else
      var init, c := criteria[..|criteria| - 1], criteria[|criteria| - 1];
      assert criteria == init + [c];
      ScoreTableOf(init)[c.id := ScoresOf(c.values)]
  }

  /** With distinct ids, each criterion's entry in the table is exactly its own scores. */
  lemma {:induction false} ScoreTableAt(criteria: seq<Criterion>, i: int)
    requires DistinctIds(criteria) && 0 <= i < |criteria|
    ensures criteria[i].id in ScoreTableOf(criteria)
    ensures ScoreTableOf(criteria)[criteria[i].id] == ScoresOf(criteria[i].values)
  {
    var n := |criteria|;
    if i < n - 1 {
      var init := criteria[..n - 1];
      assert DistinctIds(init);
      assert init[i] == criteria[i];
      ScoreTableAt(init, i);
      assert criteria[n - 1].id != criteria[i].id;
    }
  }

  /** Laying a criterion's own scores over it gives it back. */
  lemma OwnScoresChangeNothing(c: Criterion, table: ScoreTable)
    requires c.id in table && table[c.id] == ScoresOf(c.values)
    ensures ApplySaved(c, table) == c
  {
    assert OverlayScores(c.values, table[c.id]) == c.values;
  }

  /**
   * Round trip: the score table extracted from criteria with distinct ids,
   * applied back to the same criteria, gives them back unchanged.
   */
  lemma SavedScoresRoundTrip(criteria: seq<Criterion>, matrix: Option<ComparisonMatrix>, version: Option<string>)
    requires DistinctIds(criteria)
    ensures ApplyCriteriaScores(criteria, UserPreferences(matrix, Some(ScoreTableOf(criteria)), version)) == criteria
  {
    var table := ScoreTableOf(criteria);
    var r := ApplyCriteriaScores(criteria, UserPreferences(matrix, Some(table), version));
    forall i | 0 <= i < |criteria| ensures r[i] == criteria[i] {
      ScoreTableAt(criteria, i);
      OwnScoresChangeNothing(criteria[i], table);
    }
  }

  /** The nested `forEach` of `saveCriteriaScores`: one fresh entry per criterion, filled key by key. */
  method ExtractScores(criteria: seq<Criterion>) returns (table: ScoreTable)
    ensures table == ScoreTableOf(criteria)
  {
    table := map[];
    for i := 0 to |criteria|
      invariant table == ScoreTableOf(criteria[..i])
    {
      assert criteria[..i + 1][..i] == criteria[..i];
      var c := criteria[i];
      ghost var before := table;
      table := table[c.id := map[]];
      var rest := c.values.Keys;
      while rest != {}
        invariant rest <= c.values.Keys
        invariant table == before[c.id := map k | k in c.values.Keys - rest :: c.values[k].score]
        decreases rest
      {
        var key :| key in rest;
        ghost var done := map k | k in c.values.Keys - rest :: c.values[k].score;
        assert table[c.id] == done;
        assert done[key := c.values[key].score] ==
               map k | k in c.values.Keys - (rest - {key}) :: c.values[k].score;
        table := table[c.id := table[c.id][key := c.values[key].score]];
        rest := rest - {key};
      }
      assert c.values.Keys - rest == c.values.Keys;
    }
    assert criteria[..|criteria|] == criteria;
  }

  // ---------------------------------------------------------------------
  // The storage slot.
  // ---------------------------------------------------------------------

  /** What the slot holds: a record that parses, or text that does not. */
  datatype StoredText = Record(prefs: UserPreferences) | Malformed

  /** `loadPreferences` on what is stored: nothing, or malformed text, yields no preferences. */
  function Parse(slot: Option<StoredText>): (p: Option<UserPreferences>)
    ensures p.Some? <==> slot.Some? && slot.value.Record?
    ensures p.Some? ==> p.value == slot.value.prefs
  {
    match slot
    case Some(Record(prefs)) => Some(prefs)
    case _ => None
  }

  /** The record `savePreferences` writes: the preferences tagged with the current version. */
  function Stamp(p: UserPreferences): (r: UserPreferences)
    ensures r.version == Some(CurrentVersion)
    ensures r.comparisonMatrix == p.comparisonMatrix && r.criteriaScores == p.criteriaScores
  {
    p.(version := Some(CurrentVersion))
  }

  /** `{...(existing || {}), comparisonMatrix}`. */
  function WithMatrix(existing: Option<UserPreferences>, m: ComparisonMatrix): (r: UserPreferences)
    ensures r.comparisonMatrix == Some(m)
    ensures r.criteriaScores == if existing.Some? then existing.value.criteriaScores else None
    ensures r.version == if existing.Some? then existing.value.version else None
  {
    existing.GetOr(NoPreferences).(comparisonMatrix := Some(m))
  }

  /** `{...(existing || {}), criteriaScores}`. */
  function WithScores(existing: Option<UserPreferences>, t: ScoreTable): (r: UserPreferences)
    ensures r.criteriaScores == Some(t)
    ensures r.comparisonMatrix == if existing.Some? then existing.value.comparisonMatrix else None
    ensures r.version == if existing.Some? then existing.value.version else None
  {
    existing.GetOr(NoPreferences).(criteriaScores := Some(t))
  }

  /** The one storage key the preferences live under. */
  class PreferenceStore {
    var slot: Option<StoredText>

    /** The store as found at start-up: empty, a saved record, or text that does not parse. */
    constructor (initial: Option<StoredText>)
      ensures slot == initial
    {
      slot := initial;
    }

    /** What `loadPreferences` would return now. */
    function Current(): Option<UserPreferences>
      reads this
    {
      Parse(slot)
    }

    /** `loadPreferences`: the stored record, or none when nothing usable is stored. */
    method LoadPreferences() returns (p: Option<UserPreferences>)
      ensures p == Current()
    {
      p := Current();
    }

    /** `savePreferences`: overwrite the slot with the record stamped with the current version. */
    method SavePreferences(p: UserPreferences)
      modifies this
      ensures slot == Some(Record(Stamp(p)))
    {
      slot := Some(Record(p.(version := Some(CurrentVersion))));
    }

    /** `saveComparisonMatrix`: replace the matrix, keep whatever else is stored. */
    method SaveComparisonMatrix(m: ComparisonMatrix)
      modifies this
      ensures slot == Some(Record(Stamp(WithMatrix(old(Current()), m))))
      ensures Current().Some? && Current().value.comparisonMatrix == Some(m)
      ensures Current().value.criteriaScores == if old(Current()).Some? then old(Current()).value.criteriaScores else None
      ensures Current().value.version == Some(CurrentVersion)
    {
      var existing := LoadPreferences();
      SavePreferences(existing.GetOr(NoPreferences).(comparisonMatrix := Some(m)));
    }

    /** `saveCriteriaScores`: replace the score table with the criteria's scores, keep whatever else is stored. */
    method SaveCriteriaScores(criteria: seq<Criterion>)
      modifies this
      ensures slot == Some(Record(Stamp(WithScores(old(Current()), ScoreTableOf(criteria)))))
      ensures Current().Some? && Current().value.criteriaScores == Some(ScoreTableOf(criteria))
      ensures Current().value.comparisonMatrix == if old(Current()).Some? then old(Current()).value.comparisonMatrix else None
      ensures Current().value.version == Some(CurrentVersion)
    {
      var existing := LoadPreferences();
      var criteriaScores := ExtractScores(criteria);
      SavePreferences(existing.GetOr(NoPreferences).(criteriaScores := Some(criteriaScores)));
    }

    /** `clearPreferences`: empty the slot; a later load yields none. */
    method ClearPreferences()
      modifies this
      ensures slot == None && Current() == None
    {
      slot := None;
    }
  }

  /**
   * Saved scores survive a later matrix save: after saving the criteria's
   * scores and then a matrix, the loaded preferences still give back the
   * criteria (distinct ids) when applied to them.
   */
  lemma ScoresSurviveMatrixSave(existing: Option<UserPreferences>, criteria: seq<Criterion>, m: ComparisonMatrix)
    requires DistinctIds(criteria)
    ensures var afterScores := Parse(Some(Record(Stamp(WithScores(existing, ScoreTableOf(criteria))))));
            var afterMatrix := Parse(Some(Record(Stamp(WithMatrix(afterScores, m)))));
            afterMatrix.Some? && ApplyCriteriaScores(criteria, afterMatrix.value) == criteria
  {
    var afterScores := Parse(Some(Record(Stamp(WithScores(existing, ScoreTableOf(criteria))))));
    var p := Stamp(WithMatrix(afterScores, m));
    assert p == UserPreferences(Some(m), Some(ScoreTableOf(criteria)), Some(CurrentVersion));
    SavedScoresRoundTrip(criteria, Some(m), Some(CurrentVersion));
  }
}
