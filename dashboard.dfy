/** The dashboard's loading and filtering: numeric coercion of the table,
    the four inclusion filters applied one after another, and the totals. */
module Dashboard {
  import opened RecordFormat

  /** A loaded row: the text cells, the derived year-month label, and the two
      numeric columns after coercion (the budget in cents). */
  datatype Entry = Entry(
    timestamp: string,
    month: string,
    divisyen: string,
    jabatan: string,
    negeri: string,
    aktiviti: string,
    pic: string,
    lokasi: string,
    benef: int,
    budget: int)

  /** A loaded table: its column names and its entries. */
  datatype Table = Table(columns: seq<string>, entries: seq<Entry>)

  /** Numeric coercion of one cell: its number, or 0 for text that is not a
      number and for a missing cell. */
  function ToCount(cell: string): (n: int)
    ensures ParseInt(cell).Some? ==> n == ParseInt(cell).value
    ensures ParseInt(cell).None? ==> n == 0
  {
    match ParseInt(cell)
    case Some(v) => v
    case None => 0
  }

  function ToCents(cell: string): (n: int)
    ensures ParseCents(cell).Some? ==> n == ParseCents(cell).value
    ensures ParseCents(cell).None? ==> n == 0
  {
    match ParseCents(cell)
    case Some(v) => v
    case None => 0
  }

  /** One row as loaded; monthOf stands for the date parsing and year-month
      labelling of the timestamp. */
  function Coerce(r: Row, monthOf: string -> string): (e: Entry)
    ensures e.benef == ToCount(r.benef) && e.budget == ToCents(r.budget)
    ensures e.month == monthOf(r.timestamp)
    ensures e.timestamp == r.timestamp && e.divisyen == r.divisyen && e.jabatan == r.jabatan
    ensures e.negeri == r.negeri && e.aktiviti == r.aktiviti && e.pic == r.pic && e.lokasi == r.lokasi
  {
    Entry(r.timestamp, monthOf(r.timestamp), r.divisyen, r.jabatan, r.negeri,
          r.aktiviti, r.pic, r.lokasi, ToCount(r.benef), ToCents(r.budget))
  }

  function CoerceAll(rows: seq<Row>, monthOf: string -> string): (es: seq<Entry>)
    ensures |es| == |rows|
    ensures forall i :: 0 <= i < |rows| ==> es[i] == Coerce(rows[i], monthOf)
  {
    if rows == [] then [] else [Coerce(rows[0], monthOf)] + CoerceAll(rows[1..], monthOf)
  }

  /** The loader as written: a missing file gives an empty table with the
      nine stored columns only; a present file gains the Month column. */
  function LoadAsWritten(file: Option<seq<Row>>, monthOf: string -> string): (t: Table)
    ensures file.None? ==> t == Table(Headers, [])
    ensures file.Some? ==> t.columns == Headers + ["Month"] && t.entries == CoerceAll(file.value, monthOf)
  {
    match file
    case None => Table(Headers, [])
    case Some(rows) => Table(Headers + ["Month"], CoerceAll(rows, monthOf))
  }

  /** The loader with the Month column present in the empty table too. */
  function Load(file: Option<seq<Row>>, monthOf: string -> string): (t: Table)
    ensures "Month" in t.columns
    ensures file.None? ==> t.entries == []
    ensures file.Some? ==> |t.entries| == |file.value|
    ensures file.Some? ==> forall i :: 0 <= i < |file.value| ==> t.entries[i] == Coerce(file.value[i], monthOf)
  {
    match file
    case None => Table(Headers + ["Month"], [])
    case Some(rows) => LoadAsWritten(file, monthOf)
  }

  /** Loading a table that gained one row gives the earlier entries, in order,
      and then that row's entry. */
  lemma {:induction false} CoerceAllAppend(rows: seq<Row>, r: Row, monthOf: string -> string)
    ensures CoerceAll(rows + [r], monthOf) == CoerceAll(rows, monthOf) + [Coerce(r, monthOf)]
  {
    if rows != [] {
      assert (rows + [r])[1..] == rows[1..] + [r];
      CoerceAllAppend(rows[1..], r, monthOf);
    } else {
      assert rows + [r] == [r];
    }
  }

  // ----- Filters -----

  /** The columns the dashboard filters on. */
  datatype Column = MonthCol | DivisyenCol | JabatanCol | NegeriCol

  function Key(e: Entry, c: Column): string
  {
    match c
    case MonthCol => e.month
    case DivisyenCol => e.divisyen
    case JabatanCol => e.jabatan
    case NegeriCol => e.negeri
  }

  /** One multiselect: a column and the chosen values; no value chosen means
      no filter. */
  datatype Filter = Filter(col: Column, sel: seq<string>)

  /** The membership test of one selection: a missing cell ("") is never a
      member. */
  predicate IsIn(e: Entry, c: Column, sel: seq<string>)
  {
    Key(e, c) != "" && Key(e, c) in sel
  }

  /** An entry passes a filter when nothing is chosen or its value is chosen. */
  predicate Passes(e: Entry, f: Filter)
  {
    f.sel == [] || IsIn(e, f.col, f.sel)
  }

  predicate PassesAll(e: Entry, fs: seq<Filter>)
  {
    forall i :: 0 <= i < |fs| ==> Passes(e, fs[i])
  }

  /** a is b with some elements left out, the rest in their order. */
  ghost predicate IsSubsequence<T>(a: seq<T>, b: seq<T>)
  {
    if a == [] then true
    else if b == [] then false
    else if a[0] == b[0] then IsSubsequence(a[1..], b[1..])
    else IsSubsequence(a, b[1..])
  }

  /** The rows whose value in column c is in sel, in their order (the
      dataframe indexed by an isin mask). */
  function Select(rows: seq<Entry>, c: Column, sel: seq<string>): seq<Entry>
  {
    if rows == [] then []
    else if IsIn(rows[0], c, sel) then [rows[0]] + Select(rows[1..], c, sel)
    else Select(rows[1..], c, sel)
  }

  /** Reference definition of the whole filter chain: the rows that pass
      every filter, in their order. */
  function Filtered(rows: seq<Entry>, fs: seq<Filter>): seq<Entry>
  {
    if rows == [] then []
    else if PassesAll(rows[0], fs) then [rows[0]] + Filtered(rows[1..], fs)
    else Filtered(rows[1..], fs)
  }

  /** Selecting keeps a subsequence: exactly the occurrences of the rows
      whose value is chosen. */
  lemma {:induction false} SelectMeaning(rows: seq<Entry>, c: Column, sel: seq<string>)
    ensures IsSubsequence(Select(rows, c, sel), rows)
    ensures forall e :: multiset(Select(rows, c, sel))[e] == if IsIn(e, c, sel) then multiset(rows)[e] else 0
  {
    if rows != [] {
      SelectMeaning(rows[1..], c, sel);
      assert rows == [rows[0]] + rows[1..];
    }
  }

  /** The chain keeps a subsequence: exactly the occurrences of the rows that
      pass every filter. */
  lemma {:induction false} FilteredMultiset(rows: seq<Entry>, fs: seq<Filter>)
    ensures IsSubsequence(Filtered(rows, fs), rows)
    ensures forall e :: multiset(Filtered(rows, fs))[e] == if PassesAll(e, fs) then multiset(rows)[e] else 0
  {
    if rows != [] {
      FilteredMultiset(rows[1..], fs);
      assert rows == [rows[0]] + rows[1..];
    }
  }

  lemma {:induction false} FilteredNone(rows: seq<Entry>)
    ensures Filtered(rows, []) == rows
  {
    if rows != [] {
      FilteredNone(rows[1..]);
      assert rows == [rows[0]] + rows[1..];
    }
  }

  /** One more filter step (the `if sel:` guard and the isin selection) agrees
      with the reference definition over the longer list of filters. */
  lemma {:induction false} FilterStep(rows: seq<Entry>, fs: seq<Filter>, f: Filter)
    ensures f.sel == [] ==> Filtered(rows, fs + [f]) == Filtered(rows, fs)
    ensures f.sel != [] ==> Filtered(rows, fs + [f]) == Select(Filtered(rows, fs), f.col, f.sel)
  {
    if rows != [] {
      FilterStep(rows[1..], fs, f);
      var e := rows[0];
      assert PassesAll(e, fs + [f]) <==> PassesAll(e, fs) && Passes(e, f) by {
        assert forall i :: 0 <= i < |fs| ==> (fs + [f])[i] == fs[i];
        assert (fs + [f])[|fs|] == f;
      }
    }
  }

  /** The four multiselects in the order the dashboard applies them. */
  function Filters(months: seq<string>, divs: seq<string>, jabs: seq<string>, negs: seq<string>): seq<Filter>
  {
    [Filter(MonthCol, months), Filter(DivisyenCol, divs), Filter(JabatanCol, jabs), Filter(NegeriCol, negs)]
  }

  /** The filter chain as the dashboard runs it: the month filter, then the
      division, department and region filters in a loop. */
  method ApplyFilters(rows: seq<Entry>, months: seq<string>, divs: seq<string>,
                      jabs: seq<string>, negs: seq<string>) returns (df: seq<Entry>)
    ensures df == Filtered(rows, Filters(months, divs, jabs, negs))
  {
    var steps := [Filter(DivisyenCol, divs), Filter(JabatanCol, jabs), Filter(NegeriCol, negs)];
    ghost var applied := [Filter(MonthCol, months)];
    FilteredNone(rows);
    FilterStep(rows, [], applied[0]);
    assert [] + [applied[0]] == applied;
    df := rows;
    if months != [] {
      df := Select(df, MonthCol, months);
    }
    for i := 0 to |steps|
      invariant applied == [Filter(MonthCol, months)] + steps[..i]
      invariant df == Filtered(rows, applied)
    {
      var f := steps[i];
      FilterStep(rows, applied, f);
      if f.sel != [] {
        df := Select(df, f.col, f.sel);
      }
      applied := applied + [f];
      assert steps[..i + 1] == steps[..i] + [f];
    }
    assert steps[..3] == steps;
    assert applied == Filters(months, divs, jabs, negs);
  }

  /** What the filter chain keeps: a subsequence of the rows, every kept row
      passes every filter, and every row that passes is kept as often as it
      occurs. */
  lemma FilteredMeaning(rows: seq<Entry>, fs: seq<Filter>, e: Entry)
    ensures IsSubsequence(Filtered(rows, fs), rows)
    ensures e in Filtered(rows, fs) ==> PassesAll(e, fs)
    ensures e in rows && PassesAll(e, fs) ==> e in Filtered(rows, fs)
    ensures (forall i :: 0 <= i < |fs| ==> fs[i].sel == []) ==> Filtered(rows, fs) == rows
  {
    var r := Filtered(rows, fs);
    FilteredMultiset(rows, fs);
    assert e in r <==> multiset(r)[e] > 0;
    assert e in rows <==> multiset(rows)[e] > 0;
    if forall i :: 0 <= i < |fs| ==> fs[i].sel == [] {
      AllEmptyKeepsAll(rows, fs);
    }
  }

  lemma {:induction false} AllEmptyKeepsAll(rows: seq<Entry>, fs: seq<Filter>)
    requires forall i :: 0 <= i < |fs| ==> fs[i].sel == []
    ensures Filtered(rows, fs) == rows
  {
    if rows != [] {
      AllEmptyKeepsAll(rows[1..], fs);
      assert PassesAll(rows[0], fs);
      assert rows == [rows[0]] + rows[1..];
    }
  }

  // ----- Totals -----

  /** The two numeric columns. */
  datatype Measure = Beneficiaries | Budget

  function Value(e: Entry, m: Measure): int
  {
    match m
    case Beneficiaries => e.benef
    case Budget => e.budget
  }

  /** The column sum. */
  function Sum(rows: seq<Entry>, m: Measure): int
  {
    if rows == [] then 0 else Value(rows[0], m) + Sum(rows[1..], m)
  }

  lemma {:induction false} SumAppend(a: seq<Entry>, b: seq<Entry>, m: Measure)
    ensures Sum(a + b, m) == Sum(a, m) + Sum(b, m)
  {
    if a != [] {
      assert (a + b)[1..] == a[1..] + b;
      SumAppend(a[1..], b, m);
    } else {
      assert a + b == b;
    }
  }

  /** The KPI total: the column sum, and 0 for an empty table. */
  function Total(rows: seq<Entry>, m: Measure): (t: int)
    ensures rows == [] ==> t == 0
    ensures (forall i :: 0 <= i < |rows| ==> Value(rows[i], m) >= 0) ==> t >= 0
  {
    NonNegativeSum(rows, m);
    if rows == [] then 0 else Sum(rows, m)
  }

  lemma {:induction false} NonNegativeSum(rows: seq<Entry>, m: Measure)
    ensures (forall i :: 0 <= i < |rows| ==> Value(rows[i], m) >= 0) ==> Sum(rows, m) >= 0
  {
    if rows != [] {
      NonNegativeSum(rows[1..], m);
      if forall i :: 0 <= i < |rows| ==> Value(rows[i], m) >= 0 {
        assert forall i :: 0 <= i < |rows| - 1 ==> rows[1..][i] == rows[i + 1];
      }
    }
  }

  /** A row appended to the table adds its own value to the total. */
  lemma TotalAppend(rows: seq<Entry>, e: Entry, m: Measure)
    ensures Total(rows + [e], m) == Total(rows, m) + Value(e, m)
  {
    SumAppend(rows, [e], m);
  }
}
