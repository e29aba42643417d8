/**
 * Feature alignment for the risk model: a submitted form is coerced to
 * numbers where possible, one-hot expanded, padded with zeros for every
 * trained column it lacks, and laid out in the trained column order.
 */
module Alignment {
  import opened Wrappers
  import opened Models

  /** The submitted form: field name to raw text. */
  type RawForm = map<string, string>
  /** The form after numeric coercion. */
  type Form = map<string, Value>
  /** One data-frame row after one-hot expansion: column name to number. */
  type Row = map<string, real>

  /** The value of one field after `float(v)` is attempted. */
  function Coerce(v: string, parse: string -> Option<real>): (r: Value)
    ensures r.Num? <==> parse(v).Some?
    ensures r.Num? ==> r.x == parse(v).value
    ensures r.Str? ==> r.s == v
  {
    match parse(v)
    case Some(x) => Num(x)
    case None => Str(v)
  }

  /** The whole form after coercion: numbers where parsing succeeds, the text unchanged elsewhere. */
  function Coerced(raw: RawForm, parse: string -> Option<real>): (form: Form)
    ensures form.Keys == raw.Keys
    ensures forall k | k in raw && parse(raw[k]).Some? :: form[k] == Num(parse(raw[k]).value)
    ensures forall k | k in raw && parse(raw[k]).None? :: form[k] == Str(raw[k])
  {
    map k | k in raw :: Coerce(raw[k], parse)
  }

  /** The coercion loop: every field is replaced in place by its number when it parses. */
  method CoerceForm(raw: RawForm, parse: string -> Option<real>) returns (form: Form)
    ensures form == Coerced(raw, parse)
  {
    form := map k | k in raw :: Str(raw[k]);
    var todo := raw.Keys;
    while todo != {}
      invariant todo <= raw.Keys
      invariant form.Keys == raw.Keys
      invariant forall k | k in raw && k !in todo :: form[k] == Coerce(raw[k], parse)
      invariant forall k | k in todo :: form[k] == Str(raw[k])
      decreases todo
    {
      var k :| k in todo;
      match parse(raw[k]) {
        case Some(x) => form := form[k := Num(x)];
        case None =>   // a bare `except: pass` keeps the text
      }
      todo := todo - {k};
    }
  }

  /** The dummy column one-hot expansion makes for text field `field` holding `value`. */
  function DummyName(field: string, value: string): string {
    field + "_" + value
  }

  /** The numeric fields of a coerced form. */
  function NumericFields(form: Form): set<string> {
    set k | k in form && form[k].Num?
  }

  /** The dummy columns of a coerced form, one per text field. */
  function Dummies(form: Form): set<string> {
    set k | k in form && form[k].Str? :: DummyName(k, form[k].s)
  }

  /**
   * One-hot expansion of a single row: numeric fields pass through under their
   * own name, each text field `k` holding `v` becomes column `k_v` set to 1.
   */
  function GetDummies(form: Form): (row: Row)
    ensures row.Keys == NumericFields(form) + Dummies(form)
    ensures forall c | c in Dummies(form) :: row[c] == 1.0
    ensures forall k | k in form && form[k].Num? && k !in Dummies(form) :: row[k] == form[k].x
    ensures forall k | k in form && form[k].Str? :: k !in row || k in Dummies(form)
  {
    (map k | k in NumericFields(form) :: form[k].x) + (map c | c in Dummies(form) :: 1.0)
  }

  /** The value a row holds in column `c`, or 0 when it has no such column. */
  function ValueOrZero(row: Row, c: string): real {
    if c in row then row[c] else 0.0
  }

  /** The reference layout: one entry per trained column, in order. */
  function Aligned(row: Row, columns: seq<string>): (v: seq<real>)
    ensures |v| == |columns|
    ensures forall i | 0 <= i < |columns| :: v[i] == ValueOrZero(row, columns[i])
  {
    if columns == [] then [] else [ValueOrZero(row, columns[0])] + Aligned(row, columns[1..])
  }

  /** The feature vector the classifier sees for a coerced form. */
  function Features(form: Form, columns: seq<string>): (v: seq<real>)
    ensures |v| == |columns|
    ensures forall i | 0 <= i < |columns| && columns[i] in Dummies(form) :: v[i] == 1.0
    ensures forall i | 0 <= i < |columns| && columns[i] in NumericFields(form) && columns[i] !in Dummies(form) ::
              v[i] == form[columns[i]].x
    ensures forall i | 0 <= i < |columns| && columns[i] !in NumericFields(form) && columns[i] !in Dummies(form) ::
              v[i] == 0.0
  {
    Aligned(GetDummies(form), columns)
  }

  /** The padding loop: every trained column the row lacks is added with value 0. */
  method FillMissing(row: Row, columns: seq<string>) returns (df: Row)
    ensures forall c | c in columns :: c in df
    ensures forall c | c in df :: c in row || c in columns
    ensures forall c | c in row :: c in df && df[c] == row[c]
    ensures forall c | c in df && c !in row :: df[c] == 0.0
  {
    df := row;
    for i := 0 to |columns|
      invariant forall j | 0 <= j < i :: columns[j] in df
      invariant forall c | c in df :: c in row || c in columns[..i]
      invariant forall c | c in row :: c in df && df[c] == row[c]
      invariant forall c | c in df && c !in row :: df[c] == 0.0
    {
      if columns[i] !in df {
        df := df[columns[i] := 0.0];
      }
    }
  }

  /** Column selection `df[columns]`: the row's values in the order of `columns`. */
  function Select(df: Row, columns: seq<string>): (v: seq<real>)
    requires forall c | c in columns :: c in df
    ensures |v| == |columns|
    ensures forall i | 0 <= i < |columns| :: v[i] == df[columns[i]]
  {
    seq(|columns|, i requires 0 <= i < |columns| => df[columns[i]])
  }

  /** Expansion, padding and selection together yield exactly the reference layout. */
  method AlignForm(form: Form, columns: seq<string>) returns (v: seq<real>)
    ensures v == Features(form, columns)
    ensures |v| == |columns|
    ensures forall i | 0 <= i < |columns| ::
              v[i] == if columns[i] in GetDummies(form) then GetDummies(form)[columns[i]] else 0.0
  {
    var row := GetDummies(form);
    var df := FillMissing(row, columns);
    v := Select(df, columns);
    assert v == Aligned(row, columns);
  }

  /** A column outside the trained list never reaches the vector. */
  lemma {:induction false} ExtraColumnIgnored(row: Row, c: string, x: real, columns: seq<string>)
    requires c !in columns
    ensures Aligned(row[c := x], columns) == Aligned(row, columns)
  {
    if columns != [] {
      ExtraColumnIgnored(row, c, x, columns[1..]);
    }
  }

  /** Adding a text field adds its dummy column to the dummy set and no other. */
  lemma DummySetOfNewField(form: Form, k: string, v: string)
    requires k !in form
    ensures Dummies(form[k := Str(v)]) == Dummies(form) + {DummyName(k, v)}
  {
    var f := form[k := Str(v)];
    forall c | c in Dummies(f) ensures c in Dummies(form) + {DummyName(k, v)} {
      var k' :| k' in f && f[k'].Str? && c == DummyName(k', f[k'].s);
      if k' != k {
        assert form[k'] == f[k'];
      }
    }
    forall c | c in Dummies(form) ensures c in Dummies(f) {
      var k' :| k' in form && form[k'].Str? && c == DummyName(k', form[k'].s);
      assert f[k'] == form[k'];
    }
    assert f[k].Str? && DummyName(k, f[k].s) in Dummies(f);
  }

  /** Adding a text field leaves the numeric fields as they were. */
  lemma NumericFieldsOfNewField(form: Form, k: string, v: string)
    requires k !in form
    ensures NumericFields(form[k := Str(v)]) == NumericFields(form)
    ensures forall c | c in NumericFields(form) :: form[k := Str(v)][c] == form[c]
  {
  }

  /** One column of the row after adding a text field: its dummy column is 1, any other is as before. */
  lemma NewFieldColumn(form: Form, k: string, v: string, c: string)
    requires k !in form
    requires c in GetDummies(form[k := Str(v)])
    ensures c in GetDummies(form)[DummyName(k, v) := 1.0]
    ensures GetDummies(form[k := Str(v)])[c] == GetDummies(form)[DummyName(k, v) := 1.0][c]
  {
    var f := form[k := Str(v)];
    NumericFieldsOfNewField(form, k, v);
    DummySetOfNewField(form, k, v);
    if c == DummyName(k, v) || c in Dummies(form) {
      assert c in Dummies(f);
    } else {
      assert c in NumericFields(form) && c !in Dummies(f);
    }
  }

  /** Adding a text field adds its dummy column to the row and changes nothing else. */
  lemma DummiesOfNewField(form: Form, k: string, v: string)
    requires k !in form
    ensures GetDummies(form[k := Str(v)]) == GetDummies(form)[DummyName(k, v) := 1.0]
  {
    var lhs, rhs := GetDummies(form[k := Str(v)]), GetDummies(form)[DummyName(k, v) := 1.0];
    NumericFieldsOfNewField(form, k, v);
    DummySetOfNewField(form, k, v);
    assert lhs.Keys == rhs.Keys;
    forall c | c in lhs ensures lhs[c] == rhs[c] {
      NewFieldColumn(form, k, v, c);
    }
  }

  /**
   * A field whose category was never seen in training contributes nothing:
   * the vector equals the one for the form without that field.
   */
  lemma UnseenCategoryIgnored(form: Form, k: string, v: string, columns: seq<string>)
    requires k !in form
    requires DummyName(k, v) !in columns
    ensures Features(form[k := Str(v)], columns) == Features(form, columns)
  {
    DummiesOfNewField(form, k, v);
    ExtraColumnIgnored(GetDummies(form), DummyName(k, v), 1.0, columns);
  }

  /** The same at the level of the raw submission, before coercion. */
  lemma UnseenRawCategoryIgnored(raw: RawForm, k: string, v: string,
                                 parse: string -> Option<real>, columns: seq<string>)
    requires k !in raw
    requires parse(v).None?
    requires DummyName(k, v) !in columns
    ensures Features(Coerced(raw[k := v], parse), columns) == Features(Coerced(raw, parse), columns)
  {
    assert Coerced(raw[k := v], parse) == Coerced(raw, parse)[k := Str(v)];
    UnseenCategoryIgnored(Coerced(raw, parse), k, v, columns);
  }

  /** The intake `{age: "45", sex: "M", cp: "typical"}` after coercion. */
  lemma IntakeCoerced(parse: string -> Option<real>)
    requires parse("45") == Some(45.0) && parse("M").None? && parse("typical").None?
    ensures Coerced(map["age" := "45", "sex" := "M", "cp" := "typical"], parse)
            == map["age" := Num(45.0), "sex" := Str("M"), "cp" := Str("typical")]
  {
  }

  /** The dummy columns of the coerced intake. */
  lemma IntakeDummies()
    ensures Dummies(map["age" := Num(45.0), "sex" := Str("M"), "cp" := Str("typical")])
            == {"sex_M", "cp_typical"}
  {
    var form := map["age" := Num(45.0), "sex" := Str("M"), "cp" := Str("typical")];
    assert form.Keys == {"age", "sex", "cp"};
    forall c | c in Dummies(form) ensures c in {"sex_M", "cp_typical"} {
      var k :| k in form && form[k].Str? && c == DummyName(k, form[k].s);
      assert k == "sex" || k == "cp";
      if k == "sex" {
        assert c == DummyName("sex", "M") == "sex_M";
      } else {
        assert c == DummyName("cp", "typical") == "cp_typical";
      }
    }
    assert DummyName("sex", form["sex"].s) == "sex_M";
    assert DummyName("cp", form["cp"].s) == "cp_typical";
  }

  /** Its one-hot expansion. */
  lemma IntakeExpanded()
    ensures GetDummies(map["age" := Num(45.0), "sex" := Str("M"), "cp" := Str("typical")])
            == map["age" := 45.0, "sex_M" := 1.0, "cp_typical" := 1.0]
  {
    var form := map["age" := Num(45.0), "sex" := Str("M"), "cp" := Str("typical")];
    assert form.Keys == {"age", "sex", "cp"};
    assert NumericFields(form) == {"age"};
    IntakeDummies();
    var row := GetDummies(form);
    assert row.Keys == {"age", "sex_M", "cp_typical"};
    assert row["age"] == 45.0;
  }

  /** The expanded intake laid out by the trained columns. */
  lemma IntakeAligned()
    ensures Aligned(map["age" := 45.0, "sex_M" := 1.0, "cp_typical" := 1.0],
                    ["age", "sex_M", "cp_typical", "cp_atypical"])
            == [45.0, 1.0, 1.0, 0.0]
  {
    var row := map["age" := 45.0, "sex_M" := 1.0, "cp_typical" := 1.0];
    var columns := ["age", "sex_M", "cp_typical", "cp_atypical"];
    var v := Aligned(row, columns);
    assert v[0] == ValueOrZero(row, "age") == 45.0;
    assert v[1] == ValueOrZero(row, "sex_M") == 1.0;
    assert v[2] == ValueOrZero(row, "cp_typical") == 1.0;
    assert v[3] == ValueOrZero(row, "cp_atypical") == 0.0;
  }

  /** The intake against the trained columns `[age, sex_M, cp_typical, cp_atypical]`. */
  lemma IntakeExample(parse: string -> Option<real>)
    requires parse("45") == Some(45.0) && parse("M").None? && parse("typical").None?
    ensures Features(Coerced(map["age" := "45", "sex" := "M", "cp" := "typical"], parse),
                     ["age", "sex_M", "cp_typical", "cp_atypical"])
            == [45.0, 1.0, 1.0, 0.0]
  {
    IntakeCoerced(parse);
    IntakeExpanded();
    IntakeAligned();
  }
}
