/** `predict_eligibility`: encode the application as the 11-column feature
    row the classifier was trained on, classify it, and ask the text
    generator for the reason. Model and encoder loading, prediction, label
    decoding and generation are collaborators; a missing application key, or
    any collaborator failure, is re-raised to the caller. */
module DecisionModel {
  import opened Common
  import opened Strings
  import opened Collaborators

  /** `X_columns`, the training column order. */
  const XColumns: seq<string> := [
    "monthly_income", "assets", "liabilities", "household_size", "age",
    "education_level_bachelor's", "education_level_high school",
    "education_level_master's", "education_level_uneducated",
    "marital_status_Married", "marital_status_Single"]

  /** The fields copied unchanged into the row, in column order. */
  const NumericKeys: seq<string> := ["monthly_income", "assets", "liabilities", "household_size", "age"]

  const EducationLevels: seq<string> := ["bachelor's", "high school", "master's", "uneducated"]
  const MaritalStatuses: seq<string> := ["Married", "Single"]
  const EducationPrefix := "education_level_"
  const MaritalPrefix := "marital_status_"

  /** Every application key the encoding reads is present (reading a
      missing one raises a KeyError). */
  predicate HasSourceKeys(app: Fields) {
    "monthly_income" in app && "assets" in app && "liabilities" in app &&
    "household_size" in app && "age" in app && "education_level" in app && "marital_status" in app
  }

  /** `1 if cond else 0` */
  function Indicator(b: bool): Value {
    Number(if b then 1 else 0)
  }

  /** The one-hot loop: for each option in turn, the column `prefix + option`
      is set to 1 if `v` is that option and to 0 otherwise. */
  function AddOneHot(d: Fields, prefix: string, v: Value, options: seq<string>): Fields
    decreases |options|
  {
    if options == [] then d
    else AddOneHot(d[prefix + options[0] := Indicator(v == Text(options[0]))], prefix, v, options[1..])
  }

  /** No option occurs twice. */
  predicate Distinct(options: seq<string>) {
    forall a, b :: 0 <= a < b < |options| ==> options[a] != options[b]
  }

  /** Two keys with the same prefix differ when their rests differ. */
  lemma PrefixInjective(p: string, x: string, y: string)
    requires x != y
    ensures p + x != p + y
  {
    assert (p + x)[|p|..] == x && (p + y)[|p|..] == y;
  }

  /** A key that no option produces keeps its value (or its absence). */
  lemma {:induction false} AddOneHotMiss(d: Fields, prefix: string, v: Value, options: seq<string>, k: string)
    requires forall j :: 0 <= j < |options| ==> k != prefix + options[j]
    ensures k in AddOneHot(d, prefix, v, options) <==> k in d
    ensures k in d ==> AddOneHot(d, prefix, v, options)[k] == d[k]
    decreases |options|
  {
    if options != [] {
      assert k != prefix + options[0];
      AddOneHotMiss(d[prefix + options[0] := Indicator(v == Text(options[0]))], prefix, v, options[1..], k);
    }
  }

  /** The column of option `j` records whether `v` is that option. */
  lemma {:induction false} AddOneHotHit(d: Fields, prefix: string, v: Value, options: seq<string>, j: nat)
    requires j < |options| && Distinct(options)
    ensures prefix + options[j] in AddOneHot(d, prefix, v, options)
    ensures AddOneHot(d, prefix, v, options)[prefix + options[j]] == Indicator(v == Text(options[j]))
    decreases |options|
  {
    var d' := d[prefix + options[0] := Indicator(v == Text(options[0]))];
    if j == 0 {
      forall i | 0 <= i < |options[1..]|
        ensures prefix + options[0] != prefix + options[1..][i]
      {
        PrefixInjective(prefix, options[0], options[1..][i]);
      }
      AddOneHotMiss(d', prefix, v, options[1..], prefix + options[0]);
    } else {
      AddOneHotHit(d', prefix, v, options[1..], j - 1);
    }
  }

  /** The numeric part of `input_data`. */
  function NumericFields(app: Fields): Fields
    requires HasSourceKeys(app)
  {
    map["monthly_income" := app["monthly_income"], "assets" := app["assets"],
        "liabilities" := app["liabilities"], "household_size" := app["household_size"],
        "age" := app["age"]]
  }

  /** `input_data` after both one-hot loops. */
  function EncodedFields(app: Fields): Fields
    requires HasSourceKeys(app)
  {
    AddOneHot(AddOneHot(NumericFields(app), EducationPrefix, app["education_level"], EducationLevels),
              MaritalPrefix, app["marital_status"], MaritalStatuses)
  }

  /** The frame after the missing-column fill: the columns of `cols` that `d`
      lacks, added with 0. */
  function Filled(d: Fields, cols: set<string>): (r: Fields)
    ensures r.Keys == d.Keys + cols
    ensures forall k :: k in d ==> r[k] == d[k]
    ensures forall k :: k in cols && k !in d ==> r[k] == Number(0)
  {
    map k | k in d.Keys + cols :: if k in d then d[k] else Number(0)
  }

  /** `input_df[X_columns]`: the values of the columns, in the given order. */
  function Select(d: Fields, cols: seq<string>): (row: seq<Value>)
    requires forall i :: 0 <= i < |cols| ==> cols[i] in d
    ensures |row| == |cols| && forall i :: 0 <= i < |cols| ==> row[i] == d[cols[i]]
  {
    seq(|cols|, i requires 0 <= i < |cols| => d[cols[i]])
  }

  /** The columns as a set. */
  function ColumnSet(cols: seq<string>): (r: set<string>)
    ensures forall c :: c in r <==> exists i :: 0 <= i < |cols| && cols[i] == c
  {
    set i | 0 <= i < |cols| :: cols[i]
  }

  /** The feature row the classifier receives, or the KeyError. */
  function FeatureRowOf(app: Fields): (r: Result<seq<Value>>)
    ensures r.Success? <==> HasSourceKeys(app)
  {
    if HasSourceKeys(app) then
      var filled := Filled(EncodedFields(app), ColumnSet(XColumns));
      assert forall i :: 0 <= i < |XColumns| ==> XColumns[i] in ColumnSet(XColumns);
      Success(Select(filled, XColumns))
    else Failure("KeyError")
  }

  /** One of the source's one-hot `for` loops, writing the column of each
      option into `input_data` in turn. */
  method AddOneHotColumns(input: Fields, prefix: string, v: Value, options: seq<string>) returns (d: Fields)
    ensures d == AddOneHot(input, prefix, v, options)
  {
    d := input;
    for i := 0 to |options|
      invariant AddOneHot(d, prefix, v, options[i..]) == AddOneHot(input, prefix, v, options)
    {
      assert options[i..][1..] == options[i + 1..];
      d := d[prefix + options[i] := Indicator(v == Text(options[i]))];
    }
  }

  /** A frame with exactly the keys of a fill and the fill's values is it. */
  lemma FilledByContents(d: Fields, input: Fields, cols: set<string>)
    requires forall k :: k in d <==> k in input || k in cols
    requires forall k :: k in d ==> d[k] == if k in input then input[k] else Number(0)
    ensures d == Filled(input, cols)
  {
  }

  /** The fill of missing columns: `for col in missing_cols: input_df[col] = 0`,
      visiting the set of absent columns in any order. */
  method FillMissingColumns(input: Fields, columns: set<string>) returns (d: Fields)
    ensures d == Filled(input, columns)
  {
    d := input;
    var missing := columns - input.Keys;
    while missing != {}
      invariant forall k :: k in missing ==> k in columns && k !in d
      invariant forall k :: k in d <==> k in input || (k in columns && k !in missing)
      invariant forall k :: k in d ==> d[k] == if k in input then input[k] else Number(0)
      decreases |missing|
    {
      var col :| col in missing;
      d := d[col := Number(0)];
      missing := missing - {col};
    }
    FilledByContents(d, input, columns);
  }

  /** The encoding as the source runs it: the numeric fields, the two
      one-hot loops, the fill of missing columns and the selection in
      column order. */
  method BuildFeatureRow(app: Fields) returns (row: Result<seq<Value>>)
    ensures row == FeatureRowOf(app)
  {
    if !HasSourceKeys(app) {
      return Failure("KeyError");
    }
    var input := NumericFields(app);
    input := AddOneHotColumns(input, EducationPrefix, app["education_level"], EducationLevels);
    input := AddOneHotColumns(input, MaritalPrefix, app["marital_status"], MaritalStatuses);
    var columns := ColumnSet(XColumns);
    input := FillMissingColumns(input, columns);
    assert forall i :: 0 <= i < |XColumns| ==> XColumns[i] in columns;
    row := Success(Select(input, XColumns));
  }

  /** Every column the row needs is present after the one-hot loops, so the
      fill of missing columns adds nothing. */
  lemma {:induction false} NoMissingColumns(app: Fields)
    requires HasSourceKeys(app)
    ensures ColumnSet(XColumns) <= EncodedFields(app).Keys
    ensures Filled(EncodedFields(app), ColumnSet(XColumns)) == EncodedFields(app)
  {
    var e := EncodedFields(app);
    forall c | c in ColumnSet(XColumns) ensures c in e {
      var i :| 0 <= i < |XColumns| && XColumns[i] == c;
      ColumnValue(app, i);
    }
  }

  /** A key of the education block is not one of the marital block. */
  lemma EducationNotMarital(x: string, j: nat)
    requires j < |MaritalStatuses|
    ensures EducationPrefix + x != MaritalPrefix + MaritalStatuses[j]
  {
    assert (EducationPrefix + x)[0] == 'e' && (MaritalPrefix + MaritalStatuses[j])[0] == 'm';
  }

  /** A numeric column is copied and no indicator block overwrites it. */
  lemma NumericColumnValue(app: Fields, i: nat)
    requires HasSourceKeys(app) && i < 5
    ensures XColumns[i] in EncodedFields(app) && NumericKeys[i] in app
    ensures EncodedFields(app)[XColumns[i]] == app[NumericKeys[i]]
  {
    var edu, ms := app["education_level"], app["marital_status"];
    var n := NumericFields(app);
    var afterEducation := AddOneHot(n, EducationPrefix, edu, EducationLevels);
    assert XColumns[i] == NumericKeys[i];
    var k := XColumns[i];
    forall j | 0 <= j < |EducationLevels| ensures k != EducationPrefix + EducationLevels[j] {
      assert (EducationPrefix + EducationLevels[j])[0] == 'e' && k[0] != 'e';
    }
    forall j | 0 <= j < |MaritalStatuses| ensures k != MaritalPrefix + MaritalStatuses[j] {
      assert (MaritalPrefix + MaritalStatuses[j])[1] == 'a' && k[1] != 'a';
    }
    AddOneHotMiss(n, EducationPrefix, edu, EducationLevels, k);
    AddOneHotMiss(afterEducation, MaritalPrefix, ms, MaritalStatuses, k);
  }

  /** An education column holds its indicator; the marital block does not
      overwrite it. */
  lemma EducationColumnValue(app: Fields, i: nat)
    requires HasSourceKeys(app) && 5 <= i < 9
    ensures XColumns[i] in EncodedFields(app)
    ensures EncodedFields(app)[XColumns[i]] == Indicator(app["education_level"] == Text(EducationLevels[i - 5]))
  {
    var edu, ms := app["education_level"], app["marital_status"];
    var n := NumericFields(app);
    var afterEducation := AddOneHot(n, EducationPrefix, edu, EducationLevels);
    assert XColumns[i] == EducationPrefix + EducationLevels[i - 5];
    AddOneHotHit(n, EducationPrefix, edu, EducationLevels, i - 5);
    forall j | 0 <= j < |MaritalStatuses| ensures XColumns[i] != MaritalPrefix + MaritalStatuses[j] {
      EducationNotMarital(EducationLevels[i - 5], j);
    }
    AddOneHotMiss(afterEducation, MaritalPrefix, ms, MaritalStatuses, XColumns[i]);
  }

  /** A marital column holds its indicator. */
  lemma MaritalColumnValue(app: Fields, i: nat)
    requires HasSourceKeys(app) && 9 <= i < |XColumns|
    ensures XColumns[i] in EncodedFields(app)
    ensures EncodedFields(app)[XColumns[i]] == Indicator(app["marital_status"] == Text(MaritalStatuses[i - 9]))
  {
    var edu, ms := app["education_level"], app["marital_status"];
    var afterEducation := AddOneHot(NumericFields(app), EducationPrefix, edu, EducationLevels);
    assert XColumns[i] == MaritalPrefix + MaritalStatuses[i - 9];
    AddOneHotHit(afterEducation, MaritalPrefix, ms, MaritalStatuses, i - 9);
  }

  /** Column `i` of the encoded input holds what the training columns
      expect: a copied field for the first five, an indicator after that. */
  lemma ColumnValue(app: Fields, i: nat)
    requires HasSourceKeys(app) && i < |XColumns|
    ensures XColumns[i] in EncodedFields(app)
    ensures i < 5 ==> NumericKeys[i] in app && EncodedFields(app)[XColumns[i]] == app[NumericKeys[i]]
    ensures 5 <= i < 9 ==>
              EncodedFields(app)[XColumns[i]] == Indicator(app["education_level"] == Text(EducationLevels[i - 5]))
    ensures 9 <= i ==>
              EncodedFields(app)[XColumns[i]] == Indicator(app["marital_status"] == Text(MaritalStatuses[i - 9]))
  {
    if i < 5 {
      NumericColumnValue(app, i);
    } else if i < 9 {
      EducationColumnValue(app, i);
    } else {
      MaritalColumnValue(app, i);
    }
  }

  /** The row has exactly the 11 training columns in order: the five numeric
      fields unchanged, then the education and marital indicators. */
  lemma FeatureRowLayout(app: Fields)
    requires HasSourceKeys(app)
    ensures var row := FeatureRowOf(app).value;
            |row| == |XColumns| == 11 &&
            (forall i :: 0 <= i < 5 ==> row[i] == app[NumericKeys[i]]) &&
            (forall j :: 5 <= j < 9 ==> row[j] == Indicator(app["education_level"] == Text(EducationLevels[j - 5]))) &&
            (forall j :: 9 <= j < 11 ==> row[j] == Indicator(app["marital_status"] == Text(MaritalStatuses[j - 9])))
  {
    NoMissingColumns(app);
    var e := EncodedFields(app);
    assert forall i :: 0 <= i < |XColumns| ==> XColumns[i] in ColumnSet(XColumns);
    var row := FeatureRowOf(app).value;
    assert row == Select(e, XColumns);
    forall i | 0 <= i < 5 ensures row[i] == app[NumericKeys[i]] {
      ColumnValue(app, i);
    }
    forall j | 5 <= j < 9
      ensures row[j] == Indicator(app["education_level"] == Text(EducationLevels[j - 5]))
    {
      ColumnValue(app, j);
    }
    forall j | 9 <= j < 11
      ensures row[j] == Indicator(app["marital_status"] == Text(MaritalStatuses[j - 9]))
    {
      ColumnValue(app, j);
    }
  }

  /** Education is one-hot: the column for a level is 1 exactly when the
      application names that level; at most one column is 1, and none is
      when the level is not one of the four. */
  lemma EducationOneHot(app: Fields)
    requires HasSourceKeys(app)
    ensures var row := FeatureRowOf(app).value;
            |row| == 11 &&
            (forall j :: 5 <= j < 9 ==> (row[j] == Number(1) <==> app["education_level"] == Text(EducationLevels[j - 5]))) &&
            (forall j, k :: 5 <= j < k < 9 ==> !(row[j] == Number(1) && row[k] == Number(1))) &&
            ((forall j :: 0 <= j < 4 ==> app["education_level"] != Text(EducationLevels[j])) ==>
               forall j :: 5 <= j < 9 ==> row[j] == Number(0))
  {
    FeatureRowLayout(app);
  }

  /** Marital status is one-hot in the same way over Married and Single. */
  lemma MaritalOneHot(app: Fields)
    requires HasSourceKeys(app)
    ensures var row := FeatureRowOf(app).value;
            |row| == 11 &&
            (forall j :: 9 <= j < 11 ==> (row[j] == Number(1) <==> app["marital_status"] == Text(MaritalStatuses[j - 9]))) &&
            !(row[9] == Number(1) && row[10] == Number(1)) &&
            ((forall j :: 0 <= j < 2 ==> app["marital_status"] != Text(MaritalStatuses[j])) ==>
               row[9] == Number(0) && row[10] == Number(0))
  {
    FeatureRowLayout(app);
  }

  /** The reason: the generated text after its last `</think>`, stripped. */
  function ReasonFrom(text: string): string {
    Strip(AfterLast(text, "</think>"))
  }

  /** The reason is the stripped last piece after `</think>`; it holds no
      `</think>`, has no whitespace at either end, and is a piece of the
      generated text. */
  lemma ReasonShape(text: string)
    ensures forall t :: IsLastPiece(text, "</think>", t) ==> ReasonFrom(text) == Strip(t)
    ensures !Contains(ReasonFrom(text), "</think>")
    ensures var r := ReasonFrom(text); r == [] || (!IsWhitespace(r[0]) && !IsWhitespace(r[|r| - 1]))
    ensures Contains(text, ReasonFrom(text))
  {
    var tail := AfterLast(text, "</think>");
    forall t | IsLastPiece(text, "</think>", t) ensures ReasonFrom(text) == Strip(t) {
      LastPieceIsAfterLast(text, "</think>", t);
    }
    AfterLastHasNoDelimiter(text, "</think>");
    AfterLastIsSuffix(text, "</think>");
    assert OccursAt(text, tail, |text| - |tail|);
    var r := Strip(tail);
    if Contains(r, "</think>") {
      ContainsTransitive(tail, r, "</think>");
    }
    ContainsTransitive(text, tail, r);
  }

  /** Without a `</think>` the reason is the whole text, stripped. */
  lemma ReasonWithoutThinking(text: string)
    requires !Contains(text, "</think>")
    ensures ReasonFrom(text) == Strip(text)
  {
    AfterLastWithoutDelimiter(text, "</think>");
  }

  /** The eligibility prompt: seven application fields and the decision. */
  function EligibilityPromptFor(app: Fields, decision: string): Prompt
    requires HasSourceKeys(app)
  {
    EligibilityPrompt(app["monthly_income"], app["assets"], app["liabilities"], app["household_size"],
                      app["age"], app["education_level"], app["marital_status"], decision)
  }

  /** `predict_eligibility(application_data)`: the decoded label and the
      reason, or the re-raised failure. */
  function PredictEligibility(app: Fields, classify: seq<Value> -> Result<string>, generate: Prompt -> Result<string>)
    : (r: Result<(string, string)>)
    ensures r.Success? <==>
              HasSourceKeys(app) && classify(FeatureRowOf(app).value).Success? &&
              generate(EligibilityPromptFor(app, classify(FeatureRowOf(app).value).value)).Success?
    ensures r.Success? ==>
              r.value.0 == classify(FeatureRowOf(app).value).value &&
              r.value.1 == ReasonFrom(generate(EligibilityPromptFor(app, r.value.0)).value)
  {
    match FeatureRowOf(app)
    case Failure(e) => Failure(e)
    case Success(row) =>
      match classify(row)
      case Failure(e) => Failure(e)
      case Success(decision) =>
        match generate(EligibilityPromptFor(app, decision))
        case Failure(e) => Failure(e)
        case Success(text) => Success((decision, ReasonFrom(text)))
  }
}
