/** The dashboard's breakdowns: group-by sums per division, department and
    region, the descending sort and the top-20 cut of the department
    breakdown, and the whole report. */
module Grouping {
  import opened StringOrder
  import opened Dashboard

  /** One output row of a group-by: the key and the two column sums. */
  datatype Group = Group(key: string, benef: int, budget: int)

  /** The values that occur in column c, missing cells left out. */
  ghost function KeySet(rows: seq<Entry>, c: Column): set<string>
  {
    set i | 0 <= i < |rows| && Key(rows[i], c) != "" :: Key(rows[i], c)
  }

  /** The group keys in ascending order. */
  function Keys(rows: seq<Entry>, c: Column): (ks: seq<string>)
    ensures StrictlySorted(ks)
    ensures forall k :: k in ks <==> k in KeySet(rows, c)
  {
    if rows == [] then []
    else
      var rest := Keys(rows[1..], c);
      var k := Key(rows[0], c);
      assert forall x :: x in KeySet(rows, c) <==> (x == k && k != "") || x in KeySet(rows[1..], c) by {
        forall x ensures x in KeySet(rows, c) <==> (x == k && k != "") || x in KeySet(rows[1..], c) {
          if x in KeySet(rows[1..], c) {
            var i :| 1 <= i + 1 < |rows| && Key(rows[1..][i], c) == x;
            assert Key(rows[i + 1], c) == x;
          }
          if x in KeySet(rows, c) && x != k {
            var i :| 0 <= i < |rows| && Key(rows[i], c) == x && x != "";
            assert i > 0 && Key(rows[1..][i - 1], c) == x;
          }
        }
      }
      if k == "" then rest else Insert(k, rest)
  }

  /** Sum of a column over the rows whose key is k. */
  function SumFor(rows: seq<Entry>, c: Column, k: string, m: Measure): int
  {
    if rows == [] then 0
    else (if Key(rows[0], c) == k then Value(rows[0], m) else 0) + SumFor(rows[1..], c, k, m)
  }

  /** Sum of a column over the rows with a key, missing keys left out. */
  function SumKeyed(rows: seq<Entry>, c: Column, m: Measure): int
  {
    if rows == [] then 0
    else (if Key(rows[0], c) != "" then Value(rows[0], m) else 0) + SumKeyed(rows[1..], c, m)
  }

  function MakeGroups(ks: seq<string>, rows: seq<Entry>, c: Column): (gs: seq<Group>)
    ensures |gs| == |ks|
    ensures forall i :: 0 <= i < |ks| ==> gs[i] == Group(ks[i], SumFor(rows, c, ks[i], Beneficiaries), SumFor(rows, c, ks[i], Budget))
  {
    if ks == [] then []
    else [Group(ks[0], SumFor(rows, c, ks[0], Beneficiaries), SumFor(rows, c, ks[0], Budget))] + MakeGroups(ks[1..], rows, c)
  }

  /** The group-by aggregation: one group per key, in key order. */
  function GroupSum(rows: seq<Entry>, c: Column): seq<Group>
  {
    MakeGroups(Keys(rows, c), rows, c)
  }

  function GroupValue(g: Group, m: Measure): int
  {
    match m
    case Beneficiaries => g.benef
    case Budget => g.budget
  }

  function SumGroups(gs: seq<Group>, m: Measure): int
  {
    if gs == [] then 0 else GroupValue(gs[0], m) + SumGroups(gs[1..], m)
  }

  /** Adding one row to the front adds its value to the group of its key. */
  lemma {:induction false} GroupsOfCons(ks: seq<string>, e: Entry, rows: seq<Entry>, c: Column, m: Measure)
    requires Distinct(ks)
    ensures SumGroups(MakeGroups(ks, [e] + rows, c), m)
      == (if Key(e, c) in ks then Value(e, m) else 0) + SumGroups(MakeGroups(ks, rows, c), m)
  {
    assert ([e] + rows)[1..] == rows;
    if ks != [] {
      assert Distinct(ks[1..]) by {
        forall i, j | 0 <= i < j < |ks[1..]| ensures ks[1..][i] != ks[1..][j] {
          assert ks[1..][i] == ks[i + 1] && ks[1..][j] == ks[j + 1];
        }
      }
      GroupsOfCons(ks[1..], e, rows, c, m);
      if Key(e, c) == ks[0] {
        assert Key(e, c) !in ks[1..] by {
          forall j | 0 <= j < |ks[1..]| ensures ks[1..][j] != ks[0] {
            assert ks[1..][j] == ks[j + 1];
          }
        }
      }
      assert Key(e, c) in ks <==> Key(e, c) == ks[0] || Key(e, c) in ks[1..] by {
        assert ks == [ks[0]] + ks[1..];
      }
    }
  }

  /** Over distinct keys covering every keyed row, the groups' sums add up
      to the sum over the keyed rows. */
  lemma {:induction false} GroupsPartition(ks: seq<string>, rows: seq<Entry>, c: Column, m: Measure)
    requires Distinct(ks) && "" !in ks
    requires forall i :: 0 <= i < |rows| && Key(rows[i], c) != "" ==> Key(rows[i], c) in ks
    ensures SumGroups(MakeGroups(ks, rows, c), m) == SumKeyed(rows, c, m)
  {
    if rows == [] {
      GroupsOfEmpty(ks, c, m);
    } else {
      assert rows == [rows[0]] + rows[1..];
      GroupsOfCons(ks, rows[0], rows[1..], c, m);
      assert forall i :: 0 <= i < |rows[1..]| ==> rows[1..][i] == rows[i + 1];
      GroupsPartition(ks, rows[1..], c, m);
      assert Key(rows[0], c) != "" ==> Key(rows[0], c) in ks;
    }
  }

  /** No key of an empty table holds a value. */
  lemma {:induction false} GroupsOfEmpty(ks: seq<string>, c: Column, m: Measure)
    ensures SumGroups(MakeGroups(ks, [], c), m) == 0
  {
    if ks != [] {
      GroupsOfEmpty(ks[1..], c, m);
    }
  }

  /** gs is the group-by of rows on column c: keys in strictly ascending
      order (so each key once), exactly the values that occur in the column,
      each with the sums over the rows of that key. */
  ghost predicate IsGroupBy(gs: seq<Group>, rows: seq<Entry>, c: Column)
  {
    (forall i, j :: 0 <= i < j < |gs| ==> Less(gs[i].key, gs[j].key)) &&
    (forall i :: 0 <= i < |gs| ==> gs[i].key in KeySet(rows, c)) &&
    (forall k :: k in KeySet(rows, c) ==> exists i :: 0 <= i < |gs| && gs[i].key == k) &&
    (forall i :: 0 <= i < |gs| ==>
      gs[i].benef == SumFor(rows, c, gs[i].key, Beneficiaries) &&
      gs[i].budget == SumFor(rows, c, gs[i].key, Budget))
  }

  /** The group-by output is the group-by of its rows, and together its
      groups carry the sums over all keyed rows. */
  lemma GroupSumMeaning(rows: seq<Entry>, c: Column, m: Measure)
    ensures IsGroupBy(GroupSum(rows, c), rows, c)
    ensures SumGroups(GroupSum(rows, c), m) == SumKeyed(rows, c, m)
  {
    var ks := Keys(rows, c);
    var gs := GroupSum(rows, c);
    StrictlySortedDistinct(ks);
    forall i | 0 <= i < |rows| && Key(rows[i], c) != "" ensures Key(rows[i], c) in ks {
      assert Key(rows[i], c) in KeySet(rows, c);
    }
    GroupsPartition(ks, rows, c, m);
    forall k | k in KeySet(rows, c) ensures exists i :: 0 <= i < |gs| && gs[i].key == k {
      var i :| 0 <= i < |ks| && ks[i] == k;
      assert gs[i].key == k;
    }
  }

  /** When no row lacks the key, the groups add up to the KPI total. */
  lemma SumKeyedTotal(rows: seq<Entry>, c: Column, m: Measure)
    requires forall i :: 0 <= i < |rows| ==> Key(rows[i], c) != ""
    ensures SumKeyed(rows, c, m) == Total(rows, m)
  {
    SumKeyedAll(rows, c, m);
    assert Total(rows, m) == Sum(rows, m);
  }

  lemma {:induction false} SumKeyedAll(rows: seq<Entry>, c: Column, m: Measure)
    requires forall i :: 0 <= i < |rows| ==> Key(rows[i], c) != ""
    ensures SumKeyed(rows, c, m) == Sum(rows, m)
  {
    if rows != [] {
      assert forall i :: 0 <= i < |rows[1..]| ==> rows[1..][i] == rows[i + 1];
      SumKeyedAll(rows[1..], c, m);
    }
  }

  // ----- Sorting and the top-20 cut -----

  /** Non-increasing by beneficiaries. */
  predicate SortedDesc(gs: seq<Group>)
  {
    forall i, j :: 0 <= i < j < |gs| ==> gs[i].benef >= gs[j].benef
  }

  /** Puts g before the first group with fewer beneficiaries. */
  function InsertDesc(g: Group, gs: seq<Group>): (r: seq<Group>)
    requires SortedDesc(gs)
    ensures SortedDesc(r)
    ensures multiset(r) == multiset(gs) + multiset{g}
  {
    if gs == [] || g.benef >= gs[0].benef then [g] + gs
    else
      TailSorted(gs);
      var tail := InsertDesc(g, gs[1..]);
      HeadBound(g, gs, tail);
      ConsSorted(gs[0], tail);
      ConsMultiset(gs, tail);
      [gs[0]] + tail
  }

  lemma TailSorted(gs: seq<Group>)
    requires SortedDesc(gs) && gs != []
    ensures SortedDesc(gs[1..])
  {
    forall i, j | 0 <= i < j < |gs[1..]| ensures gs[1..][i].benef >= gs[1..][j].benef {
      assert gs[1..][i] == gs[i + 1] && gs[1..][j] == gs[j + 1];
    }
  }

  lemma ConsSorted(h: Group, tail: seq<Group>)
    requires SortedDesc(tail)
    requires forall j :: 0 <= j < |tail| ==> h.benef >= tail[j].benef
    ensures SortedDesc([h] + tail)
  {
    var r := [h] + tail;
    forall i, j | 0 <= i < j < |r| ensures r[i].benef >= r[j].benef {
      assert r[j] == tail[j - 1];
      if i > 0 { assert r[i] == tail[i - 1]; }
    }
  }

  lemma ConsMultiset(gs: seq<Group>, tail: seq<Group>)
    requires gs != []
    ensures multiset([gs[0]] + tail) == multiset{gs[0]} + multiset(tail)
    ensures multiset(gs) == multiset{gs[0]} + multiset(gs[1..])
  {
    assert gs == [gs[0]] + gs[1..];
  }

  lemma HeadBound(g: Group, gs: seq<Group>, tail: seq<Group>)
    requires SortedDesc(gs) && gs != [] && g.benef < gs[0].benef
    requires multiset(tail) == multiset(gs[1..]) + multiset{g}
    ensures forall j :: 0 <= j < |tail| ==> gs[0].benef >= tail[j].benef
  {
    forall j | 0 <= j < |tail| ensures gs[0].benef >= tail[j].benef {
      assert tail[j] in multiset(tail);
      if tail[j] != g {
        assert tail[j] in multiset(gs[1..]);
      }
    }
  }

  /** The breakdown sorted by beneficiaries, largest first. */
  function SortDesc(gs: seq<Group>): (r: seq<Group>)
    ensures SortedDesc(r)
    ensures multiset(r) == multiset(gs)
  {
    if gs == [] then []
    else
      assert gs == [gs[0]] + gs[1..];
      InsertDesc(gs[0], SortDesc(gs[1..]))
  }

  /** The first n groups of the sorted breakdown. */
  function TopN(gs: seq<Group>, n: nat): seq<Group>
  {
    var s := SortDesc(gs);
    if |s| <= n then s else s[..n]
  }

  /** The cut keeps at most n groups (all of them when there are fewer), in
      non-increasing order, as a prefix of the full sorted breakdown, and
      each kept group is a group of the breakdown. */
  lemma TopNMeaning(gs: seq<Group>, n: nat)
    ensures var t := TopN(gs, n);
      |t| <= n && |t| == (if |gs| <= n then |gs| else n) &&
      SortedDesc(t) &&
      t == SortDesc(gs)[..|t|] &&
      (forall i :: 0 <= i < |t| ==> t[i] in gs)
  {
    var s := SortDesc(gs);
    var t := TopN(gs, n);
    assert |s| == |gs| by {
      assert |multiset(s)| == |multiset(gs)|;
    }
    forall i | 0 <= i < |t| ensures t[i] in gs {
      assert t[i] == s[i];
      assert s[i] in multiset(s);
    }
  }

  /** No group of gs has key k. */
  predicate NoKey(k: string, gs: seq<Group>)
  {
    forall i :: 0 <= i < |gs| ==> gs[i].key != k
  }

  predicate DistinctKeys(gs: seq<Group>)
  {
    forall i, j :: 0 <= i < j < |gs| ==> gs[i].key != gs[j].key
  }

  lemma InsertDescDistinct(g: Group, gs: seq<Group>)
    requires SortedDesc(gs) && DistinctKeys(gs) && NoKey(g.key, gs)
    ensures DistinctKeys(InsertDesc(g, gs))
  {
    var r := InsertDesc(g, gs);
    forall i, j | 0 <= i < j < |r| ensures r[i].key != r[j].key {
      assert r[i] in multiset(r) && r[j] in multiset(r);
      if r[i] == r[j] {
        // An element of r at two places occurs twice.
        CountTwo(r, i, j);
        assert multiset(gs)[r[i]] + multiset{g}[r[i]] >= 2;
        if r[i] != g {
          CountTwoBack(gs, r[i]);
        }
      } else if r[i] != g && r[j] != g {
        assert r[i] in multiset(gs) && r[j] in multiset(gs);
        var a :| 0 <= a < |gs| && gs[a] == r[i];
        var b :| 0 <= b < |gs| && gs[b] == r[j];
      }
    }
  }

  /** An element found at two places of s occurs at least twice. */
  lemma {:induction false} CountTwo<T>(s: seq<T>, i: nat, j: nat)
    requires i < j < |s| && s[i] == s[j]
    ensures multiset(s)[s[i]] >= 2
  {
    if i > 0 {
      assert s == [s[0]] + s[1..];
      CountTwo(s[1..], i - 1, j - 1);
    } else {
      assert s == [s[0]] + s[1..];
      assert s[1..][j - 1] == s[i];
      assert s[i] in multiset(s[1..]);
    }
  }

  /** With distinct keys, no group occurs twice. */
  lemma {:induction false} CountTwoBack(gs: seq<Group>, x: Group)
    requires DistinctKeys(gs)
    ensures multiset(gs)[x] <= 1
  {
    if gs != [] {
      assert gs == [gs[0]] + gs[1..];
      assert DistinctKeys(gs[1..]) by {
        forall i, j | 0 <= i < j < |gs[1..]| ensures gs[1..][i].key != gs[1..][j].key {
          assert gs[1..][i] == gs[i + 1] && gs[1..][j] == gs[j + 1];
        }
      }
      CountTwoBack(gs[1..], x);
    }
  }

  lemma {:induction false} SortDescDistinct(gs: seq<Group>)
    requires DistinctKeys(gs)
    ensures DistinctKeys(SortDesc(gs))
  {
    if gs != [] {
      assert DistinctKeys(gs[1..]) by {
        forall i, j | 0 <= i < j < |gs[1..]| ensures gs[1..][i].key != gs[1..][j].key {
          assert gs[1..][i] == gs[i + 1] && gs[1..][j] == gs[j + 1];
        }
      }
      SortDescDistinct(gs[1..]);
      var rest := SortDesc(gs[1..]);
      forall i | 0 <= i < |rest| ensures rest[i].key != gs[0].key {
        assert rest[i] in multiset(gs[1..]);
        var j :| 0 <= j < |gs[1..]| && gs[1..][j] == rest[i];
        assert gs[j + 1] == rest[i];
      }
      InsertDescDistinct(gs[0], rest);
    }
  }

  /** Cutting a breakdown with distinct keys keeps the keys distinct. */
  lemma TopNDistinct(gs: seq<Group>, n: nat)
    requires DistinctKeys(gs)
    ensures DistinctKeys(TopN(gs, n))
  {
    SortDescDistinct(gs);
  }
}
