/** The dashboard as a whole: load, filter, and the KPI totals with the three
    breakdowns; and the loader's missing-file path as written. */
module Report {
  import opened RecordFormat
  import opened StringOrder
  import opened Dashboard
  import opened Grouping

  /** Number of departments shown in the department breakdown. */
  const TopJabatan: nat := 20

  /** What the dashboard shows for the filtered rows. */
  datatype Summary = Summary(
    totalBenef: int,
    totalBudget: int,
    byDiv: seq<Group>,
    byJab: seq<Group>,
    byNeg: seq<Group>)

  /** The KPIs, and the charts' group-by tables when there is any row. */
  function Summarize(df: seq<Entry>): Summary
  {
    if df == [] then Summary(0, 0, [], [], [])
    else Summary(Total(df, Beneficiaries), Total(df, Budget),
                 GroupSum(df, DivisyenCol),
                 TopN(GroupSum(df, JabatanCol), TopJabatan),
                 GroupSum(df, NegeriCol))
  }

  /** The partition property: the division and region breakdowns add up to
      the rows that have a division (a region), and to the KPI total when no
      row lacks one; the department breakdown has at most 20 groups, largest
      first, a prefix of the full sorted breakdown, without repeated keys. */
  lemma SummaryMeaning(df: seq<Entry>, m: Measure)
    ensures var s := Summarize(df);
      SumGroups(s.byDiv, m) == SumKeyed(df, DivisyenCol, m) &&
      SumGroups(s.byNeg, m) == SumKeyed(df, NegeriCol, m) &&
      ((forall i :: 0 <= i < |df| ==> df[i].divisyen != "") ==> SumGroups(s.byDiv, m) == Total(df, m)) &&
      ((forall i :: 0 <= i < |df| ==> df[i].negeri != "") ==> SumGroups(s.byNeg, m) == Total(df, m)) &&
      s.totalBenef == Total(df, Beneficiaries) && s.totalBudget == Total(df, Budget) &&
      |s.byJab| <= TopJabatan && SortedDesc(s.byJab) && DistinctKeys(s.byJab) &&
      s.byJab == SortDesc(GroupSum(df, JabatanCol))[..|s.byJab|]
  {
    if df != [] {
      GroupSumMeaning(df, DivisyenCol, m);
      GroupSumMeaning(df, NegeriCol, m);
      GroupSumMeaning(df, JabatanCol, m);
      var jab := GroupSum(df, JabatanCol);
      assert DistinctKeys(jab) by {
        forall i, j | 0 <= i < j < |jab| ensures jab[i].key != jab[j].key {
          LessIrreflexive(jab[i].key);
        }
      }
      TopNMeaning(jab, TopJabatan);
      TopNDistinct(jab, TopJabatan);
      if forall i :: 0 <= i < |df| ==> df[i].divisyen != "" {
        SumKeyedTotal(df, DivisyenCol, m);
      }
      if forall i :: 0 <= i < |df| ==> df[i].negeri != "" {
        SumKeyedTotal(df, NegeriCol, m);
      }
    }
  }

  /** The breakdowns shown are the group-bys of the filtered rows: the
      division and region charts hold each occurring value once, ascending,
      with its own sums, and the department chart keeps min(20, n) groups. */
  lemma SummaryGroupBy(df: seq<Entry>)
    ensures var s := Summarize(df);
      IsGroupBy(s.byDiv, df, DivisyenCol) && IsGroupBy(s.byNeg, df, NegeriCol)
    ensures var n := |GroupSum(df, JabatanCol)|;
      |Summarize(df).byJab| == if n <= TopJabatan then n else TopJabatan
  {
    if df == [] {
      assert GroupSum(df, JabatanCol) == [];
      assert forall c :: KeySet(df, c) == {};
    } else {
      GroupSumMeaning(df, DivisyenCol, Beneficiaries);
      GroupSumMeaning(df, NegeriCol, Beneficiaries);
      TopNMeaning(GroupSum(df, JabatanCol), TopJabatan);
    }
  }

  /** The dashboard's computation: load, the filter chain, the summary. */
  method ShowDashboard(file: Option<seq<Row>>, monthOf: string -> string, months: seq<string>,
                       divs: seq<string>, jabs: seq<string>, negs: seq<string>) returns (s: Summary)
    ensures s == Summarize(Filtered(Load(file, monthOf).entries, Filters(months, divs, jabs, negs)))
  {
    var t := Load(file, monthOf);
    var df := ApplyFilters(t.entries, months, divs, jabs, negs);
    s := Summarize(df);
  }

  /** What the page shows, or the column whose lookup fails. */
  datatype Outcome = Shown(summary: Summary) | KeyError(column: string)

  /** The dashboard over the loader as written: the month options are read
      from the Month column before any filter is applied. */
  function DashboardAsWritten(file: Option<seq<Row>>, monthOf: string -> string, months: seq<string>,
                              divs: seq<string>, jabs: seq<string>, negs: seq<string>): Outcome
  {
    var t := LoadAsWritten(file, monthOf);
    if "Month" !in t.columns then KeyError("Month")
    else Shown(Summarize(Filtered(t.entries, Filters(months, divs, jabs, negs))))
  }

  /** As written, a deployment without the file fails on the Month column
      instead of showing the empty dashboard, whatever the selections. */
  lemma MissingFileFailsAsWritten(monthOf: string -> string, months: seq<string>,
                                  divs: seq<string>, jabs: seq<string>, negs: seq<string>)
    ensures DashboardAsWritten(None, monthOf, months, divs, jabs, negs) == KeyError("Month")
  {
    assert forall i :: 0 <= i < |Headers| ==> |Headers[i]| != |"Month"|;
  }

  /** With the Month column in the empty table, a missing file shows zero
      totals and no breakdowns; a present file is shown as the loader as
      written shows it. */
  lemma CorrectedLoadAgrees(file: Option<seq<Row>>, monthOf: string -> string, months: seq<string>,
                            divs: seq<string>, jabs: seq<string>, negs: seq<string>)
    ensures file.None? ==>
      Summarize(Filtered(Load(file, monthOf).entries, Filters(months, divs, jabs, negs))) == Summary(0, 0, [], [], [])
    ensures file.Some? ==>
      DashboardAsWritten(file, monthOf, months, divs, jabs, negs)
        == Shown(Summarize(Filtered(Load(file, monthOf).entries, Filters(months, divs, jabs, negs))))
  {
    if file.Some? {
      assert "Month" in Headers + ["Month"] by {
        assert (Headers + ["Month"])[|Headers|] == "Month";
      }
    }
  }
}
