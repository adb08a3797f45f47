/** The data-entry page's record store: the beneficiaries file, created with
    its fixed header when absent and rewritten with one more row on each
    submission. */
module Store {
  import opened RecordFormat
  import opened DataEntry
  import Dashboard

  /** The backing file: whether it exists, its header and its rows. */
  class RecordStore {
    var present: bool
    var header: seq<string>
    var rows: seq<Row>

    /** An absent file holds nothing; a present one has the nine-column header. */
    ghost predicate Valid()
      reads this
    {
      (present ==> header == Headers) && (!present ==> header == [] && rows == [])
    }

    /** The file's contents as the dashboard reads them: absent, or its rows. */
    function File(): (f: Option<seq<Row>>)
      reads this
      ensures f.Some? <==> present
      ensures f.Some? ==> f.value == rows
    {
      if present then Some(rows) else None
    }

    /** A deployment with no file yet. */
    constructor Absent()
      ensures Valid() && !present && rows == []
    {
      present, header, rows := false, [], [];
    }

    /** A file written earlier with the nine-column header. */
    constructor Existing(existing: seq<Row>)
      ensures Valid() && present && rows == existing
    {
      present, header, rows := true, Headers, existing;
    }

    /** Creates the empty nine-column table when the file is absent, and
        otherwise leaves the file as it is. */
    method EnsureInitialized()
      requires Valid()
      modifies this
      ensures Valid() && present && header == Headers
      ensures rows == old(rows)
      ensures old(present) ==> header == old(header)
    {
      if !present {
        present, header, rows := true, Headers, [];
      }
    }

    /** Reads the table (empty when absent), adds one row at the end and
        writes the whole table back. */
    method Append(row: Row)
      requires Valid()
      modifies this
      ensures Valid() && present
      ensures rows == old(rows) + [row]
    {
      var table := if present then rows else [];
      present, header, rows := true, Headers, table + [row];
    }

    /** The submit handler: checks the choices, and only when they are all
        made ensures the file and appends the new row carrying the computed
        beneficiary count. The clock reading is a parameter. */
    method Submit(timestamp: string, div: string, neg: string, jab: string, calcMethod: string,
                  inp: Inputs, aktiviti: string, pic: string, lokasi: string, budgetCents: nat)
      returns (outcome: SubmitOutcome)
      requires Valid()
      modifies this
      ensures Valid()
      ensures outcome == CheckSubmission(div, neg, jab, calcMethod)
      ensures outcome != Accepted ==>
        present == old(present) && header == old(header) && rows == old(rows)
      ensures outcome == Accepted ==>
        (present && rows == old(rows) + [NewRow(timestamp, div, jab, neg, aktiviti, pic, lokasi,
                                                Calculate(calcMethod, inp, neg), budgetCents)])
    {
      outcome := CheckSubmission(div, neg, jab, calcMethod);
      if outcome == Accepted {
        EnsureInitialized();
        var benef := Calculate(calcMethod, inp, neg);
        Append(NewRow(timestamp, div, jab, neg, aktiviti, pic, lokasi, benef, budgetCents));
      }
    }
  }

  /** Ensuring the file twice is ensuring it once: the second call changes
      nothing, and no header or row is repeated. */
  method EnsureTwice(store: RecordStore)
    requires store.Valid()
    modifies store
    ensures store.Valid() && store.present && store.header == Headers
    ensures store.rows == old(store.rows)
  {
    store.EnsureInitialized();
    store.EnsureInitialized();
  }

  /** After a submission is accepted, the dashboard loads the store's file as
      the earlier rows unchanged and in order, followed by one entry that
      carries the computed count, the budget and every text cell as submitted. */
  lemma SubmittedRowLoadsBack(store: RecordStore, earlier: seq<Row>, timestamp: string, div: string,
                              jab: string, neg: string, aktiviti: string, pic: string, lokasi: string,
                              benef: nat, budgetCents: nat, monthOf: string -> string)
    requires store.File() == Some(earlier + [NewRow(timestamp, div, jab, neg, aktiviti, pic, lokasi, benef, budgetCents)])
    ensures var loaded := Dashboard.Load(store.File(), monthOf).entries;
      |loaded| == |earlier| + 1 &&
      loaded[..|earlier|] == Dashboard.Load(Some(earlier), monthOf).entries &&
      loaded[|earlier|].benef == benef && loaded[|earlier|].budget == budgetCents &&
      loaded[|earlier|].divisyen == div && loaded[|earlier|].jabatan == jab &&
      loaded[|earlier|].negeri == neg &&
      loaded[|earlier|].timestamp == timestamp && loaded[|earlier|].aktiviti == aktiviti &&
      loaded[|earlier|].pic == pic && loaded[|earlier|].lokasi == lokasi
  {
    var r := NewRow(timestamp, div, jab, neg, aktiviti, pic, lokasi, benef, budgetCents);
    Dashboard.CoerceAllAppend(earlier, r, monthOf);
  }
}
