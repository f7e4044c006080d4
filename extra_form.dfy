/**
 * The survey label encoder and record schema of utils/forms/extra_form.py:
 * six fixed label-to-code tables searched case-insensitively, and the keys
 * of the categorical and numeric parts of the survey record.
 */
module ExtraForm {
  import opened Wrappers
  import Python

  /** A label-to-code dictionary, in insertion order. */
  type Table = seq<(string, int)>

  const NoYes: Table := [("no", 0), ("yes", 1)]
  const Sex: Table := [("female", 0), ("male", 1)]
  const GenHealth: Table := [("excellent", 0), ("very good", 1), ("good", 2), ("fair", 3), ("poor", 4)]
  const AgeCategory: Table := [
    ("18-24", 0), ("25-29", 1), ("30-34", 2), ("35-39", 3), ("40-44", 4), ("45-49", 5),
    ("50-54", 6), ("55-59", 7), ("60-64", 8), ("65-69", 9), ("70-74", 10), ("75-79", 11),
    ("80 or older", 12)]
  const Race: Table := [
    ("white", 0), ("black", 1), ("asian", 2), ("american indian / alaskan native", 3),
    ("other", 4), ("hispanic", 5)]
  const Diabetic: Table := [
    ("no", 0), ("yes", 1), ("yes (during pregnancy)", 2), ("no, borderline diabetes", 3)]

  /** The encoder's `__fields`, in search order. */
  const Fields: seq<Table> := [NoYes, Sex, Race, AgeCategory, Diabetic, GenHealth]

  /** `MultiLabelEncoder.__len__`. */
  function Len(): (n: nat)
    ensures n == 6
  {
    |Fields|
  }

  /** `options(field)`: the table's labels, lower-cased, in insertion order. */
  function Options(t: Table): (r: seq<string>)
    ensures |r| == |t|
    ensures forall i :: 0 <= i < |t| ==> r[i] == Python.Lower(t[i].0)
  {
    if t == [] then [] else [Python.Lower(t[0].0)] + Options(t[1..])
  }

  /** `dict.get(key, None)`. */
  function Get(t: Table, key: string): (r: Option<int>)
    ensures r.Some? <==> exists i :: 0 <= i < |t| && t[i].0 == key
    ensures forall i :: 0 <= i < |t| && t[i].0 == key && (forall j :: 0 <= j < i ==> t[j].0 != key)
              ==> r == Some(t[i].1)
  {
    if t == [] then None
    else if t[0].0 == key then Some(t[0].1)
    else
      var r := Get(t[1..], key);
      assert forall i :: 1 <= i < |t| ==> t[i] == t[1..][i - 1];
      r
  }

  /** The first table, in search order, that holds `key`, or None. */
  function Lookup(fields: seq<Table>, key: string): (r: Option<int>)
    ensures r.Some? <==> exists f :: 0 <= f < |fields| && Get(fields[f], key).Some?
    ensures forall f :: 0 <= f < |fields| && Get(fields[f], key).Some? &&
                        (forall g :: 0 <= g < f ==> Get(fields[g], key).None?)
              ==> r == Get(fields[f], key)
  {
    if fields == [] then None
    else if Get(fields[0], key).Some? then Get(fields[0], key)
    else
      var r := Lookup(fields[1..], key);
      assert forall f :: 1 <= f < |fields| ==> fields[f] == fields[1..][f - 1];
      r
  }

  /**
   * `encode`: lower-cases the label and returns the code from the first
   * table that has it, or None when no table has it.
   */
  method Encode(category: string) returns (code: Option<int>)
    ensures code == Lookup(Fields, Python.Lower(category))
  {
    var key := Python.Lower(category);
    var i := 0;
    while i < |Fields|
      invariant 0 <= i <= |Fields|
      invariant Lookup(Fields, key) == Lookup(Fields[i..], key)
    {
      assert Fields[i..][1..] == Fields[i + 1..];
      var name := Get(Fields[i], key);
      if name.Some? {
        return name;
      }
      i := i + 1;
    }
    return None;
  }

  /**
   * Lookup is case-insensitive: a label and its lower-cased form encode
   * alike, so labels that differ only in case do too.
   */
  lemma {:induction false} EncodeIgnoresCase(category: string)
    ensures Lookup(Fields, Python.Lower(Python.Lower(category))) == Lookup(Fields, Python.Lower(category))
  {
    Python.LowerIdempotent(category);
  }

  /** No table holds a label with an upper-case letter, so a label is found only through its lower-case form. */
  predicate IsLower(s: string)
  {
    forall i :: 0 <= i < |s| ==> !('A' <= s[i] <= 'Z')
  }

  lemma LowerOfLower(s: string)
    requires IsLower(s)
    ensures Python.Lower(s) == s
  {
  }

  /** Codes run 0, 1, ..., n-1 in insertion order, so they are distinct. */
  predicate Dense(t: Table)
  {
    forall i :: 0 <= i < |t| ==> t[i].1 == i
  }

  predicate AllLower(t: Table)
  {
    forall i :: 0 <= i < |t| ==> IsLower(t[i].0)
  }

  predicate DistinctLabels(t: Table)
  {
    forall i, j :: 0 <= i < j < |t| ==> t[i].0 != t[j].0
  }

  /** Dense codes, and distinct lower-case labels. */
  predicate WellFormed(t: Table)
  {
    Dense(t) && AllLower(t) && DistinctLabels(t)
  }

  lemma TablesWellFormed()
    ensures forall f :: 0 <= f < |Fields| ==> WellFormed(Fields[f])
  {
    NoYesWellFormed();
    SexWellFormed();
    RaceWellFormed();
    AgeCategoryWellFormed();
    DiabeticWellFormed();
    GenHealthWellFormed();
  }

  lemma NoYesWellFormed() ensures WellFormed(NoYes) {}
  lemma SexWellFormed() ensures WellFormed(Sex) {}
  lemma RaceWellFormed() ensures WellFormed(Race) { RaceLower(); RaceDistinct(); }
  lemma AgeCategoryWellFormed() ensures WellFormed(AgeCategory) { AgeCategoryLower(); AgeCategoryDistinct(); }
  lemma DiabeticWellFormed() ensures WellFormed(Diabetic) { DiabeticLower(); DiabeticDistinct(); }
  lemma GenHealthWellFormed() ensures WellFormed(GenHealth) { GenHealthLower(); GenHealthDistinct(); }

  lemma RaceLower() ensures AllLower(Race)
  {
    var long := "american indian / alaskan native";
    assert forall k :: 0 <= k < |long| ==> !('A' <= long[k] <= 'Z');
  }
  lemma RaceDistinct() ensures DistinctLabels(Race) {}
  lemma AgeCategoryLower() ensures AllLower(AgeCategory) {}
  lemma AgeCategoryDistinct() ensures DistinctLabels(AgeCategory) {}
  lemma DiabeticLower() ensures AllLower(Diabetic) {}
  lemma DiabeticDistinct() ensures DistinctLabels(Diabetic) {}
  lemma GenHealthLower() ensures AllLower(GenHealth) {}
  lemma GenHealthDistinct() ensures DistinctLabels(GenHealth) {}

  /** In a well-formed table the label at position i maps to i. */
  lemma GetWellFormed(t: Table, i: nat)
    requires WellFormed(t) && i < |t|
    ensures Get(t, t[i].0) == Some(i)
  {
  }

  /**
   * The round trip between `options` and `encode`: every option offered for
   * a table encodes to that table's code for it. The only labels two tables
   * share, "no" and "yes", have the same codes in both.
   */
  lemma {:induction false} OptionsRoundTrip(f: nat, i: nat)
    requires f < |Fields| && i < |Fields[f]|
    ensures Lookup(Fields, Python.Lower(Options(Fields[f])[i])) == Get(Fields[f], Options(Fields[f])[i])
    ensures Get(Fields[f], Options(Fields[f])[i]) == Some(i)
  {
    TablesWellFormed();
    var t := Fields[f];
    var name := t[i].0;
    LowerOfLower(name);
    assert Options(t)[i] == name;
    Python.LowerIdempotent(name);
    GetWellFormed(t, i);
    // The first table holding the label has the same code for it.
    var g :| 0 <= g <= f && Get(Fields[g], name).Some? && forall h :: 0 <= h < g ==> Get(Fields[h], name).None? by {
      FirstHolder(name, f);
    }
    SharedLabelsAgree(g, f, name);
  }

  lemma FirstHolder(name: string, f: nat)
    requires f < |Fields| && Get(Fields[f], name).Some?
    ensures exists g :: 0 <= g <= f && Get(Fields[g], name).Some? && forall h :: 0 <= h < g ==> Get(Fields[h], name).None?
  {
    if forall g :: 0 <= g < f ==> Get(Fields[g], name).None? {
    } else {
      var g :| 0 <= g < f && Get(Fields[g], name).Some?;
      FirstHolder(name, g);
    }
  }

  /** A label found in two tables has the same code in both. */
  lemma SharedLabelsAgree(g: nat, f: nat, name: string)
    requires g < |Fields| && f < |Fields|
    requires Get(Fields[g], name).Some? && Get(Fields[f], name).Some?
    ensures Get(Fields[g], name) == Get(Fields[f], name)
  {
    TablesWellFormed();
    var i :| 0 <= i < |Fields[g]| && Fields[g][i].0 == name;
    var j :| 0 <= j < |Fields[f]| && Fields[f][j].0 == name;
    GetWellFormed(Fields[g], i);
    GetWellFormed(Fields[f], j);
    LabelCodes(g, i, f, j);
  }

  lemma LabelCodes(g: nat, i: nat, f: nat, j: nat)
    requires g < |Fields| && f < |Fields| && i < |Fields[g]| && j < |Fields[f]|
    requires Fields[g][i].0 == Fields[f][j].0
    ensures i == j
  {
    if g < f {
      EarlierTablesAgree(f);
    } else if f < g {
      EarlierTablesAgree(g);
    } else {
      TablesWellFormed();
    }
  }

  /** A label of table f that an earlier table also holds sits at the same position there. */
  lemma EarlierTablesAgree(f: nat)
    requires f < |Fields|
    ensures AgreesWithEarlier(f)
  {
    if f == 1 { SexAgrees(); }
    else if f == 2 { RaceAgrees(); }
    else if f == 3 { AgeCategoryAgrees(); }
    else if f == 4 { DiabeticAgrees(); }
    else if f == 5 { GenHealthAgrees(); }
  }

  predicate AgreesWithEarlier(f: nat)
    requires f < |Fields|
  {
    forall g, i, j ::
      (0 <= g < f && 0 <= i < |Fields[g]| && 0 <= j < |Fields[f]| && Fields[g][i].0 == Fields[f][j].0) ==> i == j
  }

  lemma SexAgrees() ensures AgreesWithEarlier(1) {}
  lemma RaceAgrees() ensures AgreesWithEarlier(2) {}
  lemma AgeCategoryAgrees() ensures AgreesWithEarlier(3) {}
  lemma DiabeticAgrees() ensures AgreesWithEarlier(4) {}
  lemma GenHealthAgrees() ensures AgreesWithEarlier(5) {}

  /** `encode` returns None exactly for labels that no table holds, whatever their case. */
  lemma EncodeUnknown(category: string)
    ensures Lookup(Fields, Python.Lower(category)).None? <==>
      forall f, i :: 0 <= f < |Fields| && 0 <= i < |Fields[f]| ==> Fields[f][i].0 != Python.Lower(category)
  {
  }

  /* ------------------------------------------------------- record schema */

  /** The categorical questions of `categorical()`, in order, with the table their options come from. */
  const CategoricalSchema: seq<(string, Table)> := [
    ("Smoking", NoYes), ("AlcoholDrinking", NoYes), ("Stroke", NoYes), ("DiffWalking", NoYes),
    ("Sex", Sex), ("AgeCategory", AgeCategory), ("Race", Race), ("Diabetic", Diabetic),
    ("PhysicalActivity", NoYes), ("GenHealth", GenHealth), ("Asthma", NoYes),
    ("KidneyDisease", NoYes), ("SkinCancer", NoYes)]

  const QuantityKeys: seq<string> := ["BMI", "PhysicalHealth", "MentalHealth", "SleepTime"]

  function Keys<V>(record: seq<(string, V)>): seq<string>
  {
    seq(|record|, i requires 0 <= i < |record| => record[i].0)
  }

  /** `categorical()`: each answer chosen in the form, encoded, under its key. */
  function Categorical(answers: seq<string>): (r: seq<(string, Option<int>)>)
    requires |answers| == |CategoricalSchema|
    ensures Keys(r) == Keys(CategoricalSchema)
    ensures forall i :: 0 <= i < |r| ==> r[i].1 == Lookup(Fields, Python.Lower(answers[i]))
  {
    seq(|answers|, i requires 0 <= i < |answers| =>
      (CategoricalSchema[i].0, Lookup(Fields, Python.Lower(answers[i]))))
  }

  /** `quantity()`: the four numeric answers under their keys. */
  function Quantity(bmi: real, physicalHealth: real, mentalHealth: real, sleepTime: real): (r: seq<(string, real)>)
    ensures Keys(r) == QuantityKeys
  {
    [("BMI", bmi), ("PhysicalHealth", physicalHealth), ("MentalHealth", mentalHealth), ("SleepTime", sleepTime)]
  }

  datatype FormRecord = FormRecord(categorical: seq<(string, Option<int>)>, quantity: seq<(string, real)>)

  /** `get_all_form()`: both parts of the record once the form is submitted, None before. */
  function GetAllForm(answers: seq<string>, quantities: seq<real>, submitted: bool): (r: Option<FormRecord>)
    requires |answers| == |CategoricalSchema| && |quantities| == |QuantityKeys|
    ensures r.Some? <==> submitted
    ensures r.Some? ==> Keys(r.value.categorical) == Keys(CategoricalSchema) && Keys(r.value.quantity) == QuantityKeys
  {
    var c := Categorical(answers);
    var q := Quantity(quantities[0], quantities[1], quantities[2], quantities[3]);
    if submitted then Some(FormRecord(c, q)) else None
  }

  /**
   * A record filled from the options offered for each question carries,
   * under every categorical key, that question's table code for the answer.
   */
  lemma CategoricalFromOptions(answers: seq<string>, picks: seq<nat>)
    requires |answers| == |picks| == |CategoricalSchema|
    requires forall i :: 0 <= i < |picks| ==>
      picks[i] < |CategoricalSchema[i].1| && answers[i] == Options(CategoricalSchema[i].1)[picks[i]]
    ensures forall i :: 0 <= i < |answers| ==> Categorical(answers)[i].1 == Some(picks[i])
  {
    forall i | 0 <= i < |answers|
      ensures Categorical(answers)[i].1 == Some(picks[i])
    {
      var f := SchemaTable(i);
      OptionsRoundTrip(f, picks[i]);
    }
  }

  /** Every table of the schema is one of the encoder's fields. */
  lemma SchemaTable(i: nat) returns (f: nat)
    requires i < |CategoricalSchema|
    ensures f < |Fields| && Fields[f] == CategoricalSchema[i].1
  {
    var t := CategoricalSchema[i].1;
    if t == NoYes { f := 0; }
    else if t == Sex { f := 1; }
    else if t == Race { f := 2; }
    else if t == AgeCategory { f := 3; }
    else if t == Diabetic { f := 4; }
    else { f := 5; }
  }
}
