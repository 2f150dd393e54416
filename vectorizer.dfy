/**
 * Feature construction of the "Predict Crop" handler: the soil inputs become a
 * one-row frame, the soil colour is one-hot encoded (pandas get_dummies) and the
 * frame is reindexed to the column schema the classifier was trained on, with
 * every missing column filled with 0.
 */
module Vectorizer {
  import opened Wrappers

  /**
   * One cell of the one-row frame: the raw colour text, a number entered by the
   * user or used as fill, or the boolean indicator get_dummies creates.
   */
  datatype Cell = Text(text: string) | Num(x: real) | Flag(on: bool)

  /** A labelled column of a one-row frame. */
  datatype Column = Column(name: string, cell: Cell)

  /** A one-row DataFrame: its columns, in order. */
  type Frame = seq<Column>

  /** The soil values entered in the form. */
  datatype SoilSample = SoilSample(soilcolor: string, ph: real, k: real, p: real, n: real, zn: real, s: real)

  const SoilcolorColumn: string := "Soilcolor"
  /** get_dummies' default separator between the column name and the category. */
  const PrefixSep: string := "_"
  /** The reindex fill_value. */
  const Fill: Cell := Num(0.0)
  /** The names of the form's numeric fields, as the record labels them. */
  const NumericColumns: seq<string> := ["Ph", "K", "P", "N", "Zn", "S"]
  /** The colours the form offers. */
  const SoilColors: seq<string> := ["red", "brown", "black", "yellow", "yellowish brown"]

  /** The name get_dummies gives the indicator of one category: prefix, separator, category. */
  function DummyName(column: string, category: string): (r: string)
    ensures |r| == |column| + |PrefixSep| + |category|
  {
    column + PrefixSep + category
  }

  /** The colour indicator columns are those whose name starts with "Soilcolor_". */
  predicate IsIndicator(name: string) {
    var prefix := SoilcolorColumn + PrefixSep;
    |prefix| <= |name| && name[..|prefix|] == prefix
  }

  function Names(f: Frame): (r: seq<string>)
    ensures |r| == |f|
    ensures forall i :: 0 <= i < |f| ==> r[i] == f[i].name
  {
    seq(|f|, i requires 0 <= i < |f| => f[i].name)
  }

  predicate Distinct(names: seq<string>) {
    forall i, j :: 0 <= i < j < |names| ==> names[i] != names[j]
  }

  /** The cell of the first column called name, if the frame has one. */
  function Lookup(f: Frame, name: string): (r: Option<Cell>)
    ensures r.None? <==> name !in Names(f)
    ensures r.Some? ==> exists i :: 0 <= i < |f| && f[i] == Column(name, r.value)
  {
    if f == [] then None
    else if f[0].name == name then Some(f[0].cell)
    else
      assert Names(f) == [f[0].name] + Names(f[1..]);
      var r := Lookup(f[1..], name);
      assert r.Some? ==> exists i :: 0 <= i < |f[1..]| && f[1..][i] == Column(name, r.value);
      r
  }

  /** In a frame without repeated labels a column is found by its own name. */
  lemma {:induction false} LookupDistinct(f: Frame, i: int)
    requires Distinct(Names(f)) && 0 <= i < |f|
    ensures Lookup(f, f[i].name) == Some(f[i].cell)
  {
    if i > 0 {
      assert Distinct(Names(f[1..]));
      assert f[0].name != f[i].name;
      LookupDistinct(f[1..], i - 1);
    }
  }

  /** DataFrame([{...}]) of the form's values (one row, seven columns). */
  function SampleFrame(sample: SoilSample): (f: Frame)
    ensures Names(f) == [SoilcolorColumn, "Ph", "K", "P", "N", "Zn", "S"]
    ensures f[0].cell == Text(sample.soilcolor)
    ensures forall i :: 1 <= i < |f| ==> Produced(sample, f[i].name) == Some(f[i].cell)
  {
    [ Column(SoilcolorColumn, Text(sample.soilcolor)),
      Column("Ph", Num(sample.ph)),
      Column("K", Num(sample.k)),
      Column("P", Num(sample.p)),
      Column("N", Num(sample.n)),
      Column("Zn", Num(sample.zn)),
      Column("S", Num(sample.s)) ]
  }

  /** The frame without the columns called column, the others kept in order. */
  function Drop(f: Frame, column: string): (r: Frame)
    ensures forall c :: c in Names(r) <==> c in Names(f) && c != column
  {
    if f == [] then []
    else
      assert Names(f) == [f[0].name] + Names(f[1..]);
      var rest := Drop(f[1..], column);
      if f[0].name == column then rest
      else
        assert Names([f[0]] + rest) == [f[0].name] + Names(rest);
        [f[0]] + rest
  }

  /** Dropping a column leaves every other column's cell where a lookup finds it. */
  lemma {:induction false} DropLookup(f: Frame, column: string, name: string)
    requires name != column
    ensures Lookup(Drop(f, column), name) == Lookup(f, name)
  {
    if f != [] {
      DropLookup(f[1..], column, name);
      if f[0].name != column {
        var r := [f[0]] + Drop(f[1..], column);
        assert r[1..] == Drop(f[1..], column);
      }
    }
  }

  lemma {:induction false} DropAbsent(f: Frame, column: string)
    requires column !in Names(f)
    ensures Drop(f, column) == f
  {
    if f != [] {
      assert Names(f) == [f[0].name] + Names(f[1..]);
      DropAbsent(f[1..], column);
    }
  }

  /**
   * get_dummies(frame, columns=[column]) on a one-row frame whose column holds
   * text: the column is removed and one indicator, named by DummyName and set to
   * true, is appended after the remaining columns.
   */
  function GetDummies(f: Frame, column: string): (r: Frame)
    requires Lookup(f, column).Some? && Lookup(f, column).value.Text?
    ensures |r| >= 1 && r[|r| - 1] == Column(DummyName(column, Lookup(f, column).value.text), Flag(true))
    ensures forall c :: c in Names(r[..|r| - 1]) <==> c in Names(f) && c != column
    ensures forall name :: name != column ==> Lookup(r[..|r| - 1], name) == Lookup(f, name)
  {
    var dummies := [Column(DummyName(column, Lookup(f, column).value.text), Flag(true))];
    var r := Drop(f, column) + dummies;
    assert r[..|r| - 1] == Drop(f, column);
    assert forall name :: name != column ==> Lookup(r[..|r| - 1], name) == Lookup(f, name) by {
      forall name | name != column ensures Lookup(r[..|r| - 1], name) == Lookup(f, name) {
        DropLookup(f, column, name);
      }
    }
    r
  }

  /**
   * The error pandas raises when it must look columns up by name in a frame whose
   * column labels repeat.
   */
  datatype ReindexError = DuplicateLabels

  /** The columns cols, each taken from f by name or filled with 0. */
  function Align(f: Frame, cols: seq<string>): (r: Frame)
    ensures Names(r) == cols
    ensures forall i :: 0 <= i < |cols| ==> r[i].cell == Lookup(f, cols[i]).GetOr(Fill)
  {
    if cols == [] then []
    else
      var rest := Align(f, cols[1..]);
      var r := [Column(cols[0], Lookup(f, cols[0]).GetOr(Fill))] + rest;
      assert r[1..] == rest;
      assert Names(r) == cols by {
        assert cols == [cols[0]] + cols[1..];
        assert Names(r) == [cols[0]] + Names(rest);
      }
      r
  }

  /**
   * frame.reindex(columns=cols, fill_value=0): exactly the schema's columns in the
   * schema's order; a column the frame has keeps its cell, any other is 0, and a
   * frame column the schema does not name is dropped. A frame whose labels already
   * equal cols comes back as it is; otherwise the lookup by name fails when the
   * frame's own labels repeat.
   */
  function Reindex(f: Frame, cols: seq<string>): (r: Result<Frame, ReindexError>)
    ensures Names(f) == cols ==> r == Success(f)
    ensures r.Failure? <==> Names(f) != cols && !Distinct(Names(f))
    ensures r.Success? ==> Names(r.value) == cols
    ensures Distinct(Names(f)) ==> r.Success? && forall i :: 0 <= i < |cols| ==>
              r.value[i].cell == (if cols[i] in Names(f) then Lookup(f, cols[i]).value else Fill)
  {
    if Names(f) == cols then
      if Distinct(Names(f)) then AlignAligned(f); Success(f) else Success(f)
    else if Distinct(Names(f)) then Success(Align(f, cols))
    else Failure(DuplicateLabels)
  }

  /**
   * For a frame with distinct labels the already-aligned shortcut gives what the
   * lookup by name would give, so it is observable only when labels repeat.
   */
  lemma {:induction false} AlignAligned(f: Frame)
    requires Distinct(Names(f))
    ensures Align(f, Names(f)) == f
  {
    var a := Align(f, Names(f));
    forall i | 0 <= i < |f| ensures a[i] == f[i] {
      LookupDistinct(f, i);
    }
  }

  /** The frame after get_dummies: the six numeric columns and the colour's indicator. */
  function Encode(sample: SoilSample): (f: Frame)
    ensures Distinct(Names(f))
    ensures forall name :: Lookup(f, name) == Produced(sample, name)
  {
    var raw := SampleFrame(sample);
    assert raw == [raw[0]] + raw[1..];
    assert Lookup(raw, SoilcolorColumn) == Some(Text(sample.soilcolor));
    DropAbsent(raw[1..], SoilcolorColumn);
    var f := GetDummies(raw, SoilcolorColumn);
    EncodeLookup(sample, f);
    f
  }

  lemma ProducedNumeric(sample: SoilSample, name: string)
    ensures !Produced(sample, name).GetOr(Fill).Text?
  {
  }

  /** A colour indicator name is produced only for the chosen colour. */
  lemma {:induction false} ProducedIndicator(sample: SoilSample, name: string)
    requires IsIndicator(name)
    ensures Produced(sample, name)
         == if name == DummyName(SoilcolorColumn, sample.soilcolor) then Some(Flag(true)) else None
  {
    assert |name| >= 10;
  }

  /** The cell each column name receives from the form and the one-hot step, if any. */
  function Produced(sample: SoilSample, name: string): Option<Cell> {
    if name == "Ph" then Some(Num(sample.ph))
    else if name == "K" then Some(Num(sample.k))
    else if name == "P" then Some(Num(sample.p))
    else if name == "N" then Some(Num(sample.n))
    else if name == "Zn" then Some(Num(sample.zn))
    else if name == "S" then Some(Num(sample.s))
    else if name == DummyName(SoilcolorColumn, sample.soilcolor) then Some(Flag(true))
    else None
  }

  lemma {:induction false} EncodeLookup(sample: SoilSample, f: Frame)
    requires f == SampleFrame(sample)[1..] + [Column(DummyName(SoilcolorColumn, sample.soilcolor), Flag(true))]
    ensures Distinct(Names(f))
    ensures forall name :: Lookup(f, name) == Produced(sample, name)
  {
    var d := DummyName(SoilcolorColumn, sample.soilcolor);
    var names := Names(f);
    assert names == NumericColumns + [d];
    assert |d| >= 10;
    assert Distinct(names) by {
      forall i, j | 0 <= i < j < |names| ensures names[i] != names[j] {
        if j == 6 {
          assert |names[i]| <= 2;
        }
      }
    }
    forall name ensures Lookup(f, name) == Produced(sample, name) {
      if name in names {
        var i :| 0 <= i < |f| && f[i].name == name;
        LookupDistinct(f, i);
        ProducedAt(sample, f, i);
      } else {
        assert name !in NumericColumns && name != d;
      }
    }
  }

  lemma {:induction false} ProducedAt(sample: SoilSample, f: Frame, i: int)
    requires f == SampleFrame(sample)[1..] + [Column(DummyName(SoilcolorColumn, sample.soilcolor), Flag(true))]
    requires 0 <= i < |f|
    ensures Produced(sample, f[i].name) == Some(f[i].cell)
  {
    if i == 6 {
      assert |f[i].name| >= 10;
    }
  }

  /**
   * The aligned feature frame the classifier receives: exactly the schema's
   * columns, in the schema's order, each holding what the form and the one-hot
   * step produced under that name, or 0.
   */
  function Vectorize(sample: SoilSample, cols: seq<string>): (v: Frame)
    ensures |v| == |cols| && Names(v) == cols
    ensures forall i :: 0 <= i < |cols| ==> v[i].cell == Produced(sample, cols[i]).GetOr(Fill)
  {
    Reindex(Encode(sample), cols).value
  }

  /** How the classifier reads a cell: an indicator is 1 or 0. Text has no number. */
  function AsNumber(c: Cell): real
    requires !c.Text?
  {
    if c.Flag? then (if c.on then 1.0 else 0.0) else c.x
  }

  /** No text is left after the one-hot step: every cell is a number or an indicator. */
  lemma {:induction false} VectorizeNumeric(sample: SoilSample, cols: seq<string>)
    ensures forall i :: 0 <= i < |cols| ==> !Vectorize(sample, cols)[i].cell.Text?
  {
    forall i | 0 <= i < |cols| ensures !Vectorize(sample, cols)[i].cell.Text? {
      ProducedNumeric(sample, cols[i]);
    }
  }

  /** A schema column named after one of the numeric fields carries the value entered. */
  lemma {:induction false} VectorizeInputs(sample: SoilSample, cols: seq<string>, i: int)
    requires 0 <= i < |cols|
    ensures cols[i] == "Ph" ==> Vectorize(sample, cols)[i].cell == Num(sample.ph)
    ensures cols[i] == "K" ==> Vectorize(sample, cols)[i].cell == Num(sample.k)
    ensures cols[i] == "P" ==> Vectorize(sample, cols)[i].cell == Num(sample.p)
    ensures cols[i] == "N" ==> Vectorize(sample, cols)[i].cell == Num(sample.n)
    ensures cols[i] == "Zn" ==> Vectorize(sample, cols)[i].cell == Num(sample.zn)
    ensures cols[i] == "S" ==> Vectorize(sample, cols)[i].cell == Num(sample.s)
  {
  }

  /**
   * The chosen colour's indicator column, wherever the schema has it, is set;
   * every other colour indicator is 0.
   */
  lemma {:induction false} VectorizeIndicators(sample: SoilSample, cols: seq<string>, i: int)
    requires 0 <= i < |cols|
    ensures cols[i] == DummyName(SoilcolorColumn, sample.soilcolor) ==> Vectorize(sample, cols)[i].cell == Flag(true)
    ensures (IsIndicator(cols[i]) && cols[i] != DummyName(SoilcolorColumn, sample.soilcolor))
            ==> Vectorize(sample, cols)[i].cell == Fill
  {
    if IsIndicator(cols[i]) {
      ProducedIndicator(sample, cols[i]);
    }
  }

  /** At most one colour indicator is nonzero (two nonzero ones name the same column). */
  lemma {:induction false} VectorizeAtMostOneHot(sample: SoilSample, cols: seq<string>)
    ensures forall i :: 0 <= i < |cols| ==> !Vectorize(sample, cols)[i].cell.Text?
    ensures forall i, j :: 0 <= i < |cols| && 0 <= j < |cols| && IsIndicator(cols[i]) && IsIndicator(cols[j])
              && AsNumber(Vectorize(sample, cols)[i].cell) != 0.0 && AsNumber(Vectorize(sample, cols)[j].cell) != 0.0
              ==> cols[i] == cols[j]
  {
    VectorizeNumeric(sample, cols);
    forall i | 0 <= i < |cols| && IsIndicator(cols[i]) && AsNumber(Vectorize(sample, cols)[i].cell) != 0.0
      ensures cols[i] == DummyName(SoilcolorColumn, sample.soilcolor)
    {
      VectorizeIndicators(sample, cols, i);
    }
  }

  /** When the schema has the chosen colour's indicator, that indicator is the one set. */
  lemma {:induction false} VectorizeOneHot(sample: SoilSample, cols: seq<string>)
    requires DummyName(SoilcolorColumn, sample.soilcolor) in cols
    ensures exists i :: 0 <= i < |cols| && IsIndicator(cols[i]) && Vectorize(sample, cols)[i].cell == Flag(true)
  {
    var d := DummyName(SoilcolorColumn, sample.soilcolor);
    var i :| 0 <= i < |cols| && cols[i] == d;
    assert d[..|SoilcolorColumn + PrefixSep|] == SoilcolorColumn + PrefixSep;
    assert IsIndicator(cols[i]);
    VectorizeIndicators(sample, cols, i);
  }

  /** A schema column that neither the form nor the one-hot step produced is 0. */
  lemma {:induction false} VectorizeUnproduced(sample: SoilSample, cols: seq<string>, i: int)
    requires 0 <= i < |cols|
    requires cols[i] !in NumericColumns && cols[i] != DummyName(SoilcolorColumn, sample.soilcolor)
    ensures Vectorize(sample, cols)[i].cell == Fill
  {
    var name := cols[i];
    assert name != "Ph" && name != "K" && name != "P" && name != "N" && name != "Zn" && name != "S";
    assert Produced(sample, name) == None;
  }

  /**
   * When the schema lacks the chosen colour's indicator every colour indicator is
   * 0, and nothing fails.
   */
  lemma {:induction false} VectorizeMissingIndicator(sample: SoilSample, cols: seq<string>)
    requires DummyName(SoilcolorColumn, sample.soilcolor) !in cols
    ensures forall i :: 0 <= i < |cols| && IsIndicator(cols[i]) ==> Vectorize(sample, cols)[i].cell == Fill
  {
    forall i | 0 <= i < |cols| && IsIndicator(cols[i]) ensures Vectorize(sample, cols)[i].cell == Fill {
      VectorizeIndicators(sample, cols, i);
    }
  }

  /**
   * Reindexing an aligned frame to the same schema gives it back unchanged, for
   * every schema, repeated names included.
   */
  lemma {:induction false} ReindexIdempotent(f: Frame, cols: seq<string>)
    requires Reindex(f, cols).Success?
    ensures Reindex(Reindex(f, cols).value, cols) == Reindex(f, cols)
  {
  }

  /** Re-vectorizing an already aligned frame against the same schema changes nothing. */
  lemma {:induction false} VectorizeIdempotent(sample: SoilSample, cols: seq<string>)
    ensures Reindex(Vectorize(sample, cols), cols) == Success(Vectorize(sample, cols))
  {
    ReindexIdempotent(Encode(sample), cols);
  }

  /**
   * The indicator names of the form's colours: each is "Soilcolor_" followed by the
   * colour verbatim, "yellowish brown" keeping its space, and different colours
   * give different names.
   */
  lemma {:induction false} FormColorIndicators()
    ensures DummyName(SoilcolorColumn, SoilColors[4]) == "Soilcolor_yellowish brown"
    ensures forall c :: c in SoilColors ==> IsIndicator(DummyName(SoilcolorColumn, c))
    ensures forall a, b :: DummyName(SoilcolorColumn, a) == DummyName(SoilcolorColumn, b) ==> a == b
  {
    forall c | c in SoilColors ensures IsIndicator(DummyName(SoilcolorColumn, c)) {
      assert DummyName(SoilcolorColumn, c)[..|SoilcolorColumn + PrefixSep|] == SoilcolorColumn + PrefixSep;
    }
    forall a, b | DummyName(SoilcolorColumn, a) == DummyName(SoilcolorColumn, b) ensures a == b {
      var n := |SoilcolorColumn + PrefixSep|;
      assert DummyName(SoilcolorColumn, a)[n..] == a;
      assert DummyName(SoilcolorColumn, b)[n..] == b;
    }
  }
}
