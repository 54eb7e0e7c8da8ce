/**
 * The sidebar totals of the user's selection: every selected name that has a
 * record (a group's merged record, or a neighbourhood's own) is added into a
 * running record, bucket by bucket, over the union of the keys.
 */
module Selection {
  import opened Results
  import opened Buckets
  import opened Groups
  import opened Merge

  /** What the sidebar shows: the prompt for an empty selection, or the summed record. */
  datatype Sidebar = Prompt | Totals(merged: Demographics)

  /** The record of one selected name: a group's merged record, the name's own record, or none. */
  function RecordFor(groups: seq<Group>, data: Records, name: string): Result<Option<Demographics>, MergeError>
  {
    match Lookup(groups, name)
    case Some(members) =>
      (match Merged(SetOf(members), data)
       case Ok(d) => Ok(Some(d))
       case Err(e) => Err(e))
    case None => Ok(if name in data then Some(data[name]) else None)
  }

  /** The records found for the selection, in order; a group merge that throws aborts. */
  function Found(selected: seq<string>, groups: seq<Group>, data: Records): Result<seq<Demographics>, MergeError>
  {
    if selected == [] then Ok([])
    else
      match Found(selected[..|selected| - 1], groups, data)
      case Err(e) => Err(e)
      case Ok(rs) =>
        match RecordFor(groups, data, selected[|selected| - 1])
        case Err(e) => Err(e)
        case Ok(None) => Ok(rs)
        case Ok(Some(d)) => Ok(rs + [d])
  }

  /** The running record after adding `rs` in order into the empty record. */
  function SumRecords(rs: seq<Demographics>): Demographics
  {
    if rs == [] then NoData else AddRecords(SumRecords(rs[..|rs| - 1]), rs[|rs| - 1])
  }

  /** What the sidebar shows for a selection. */
  function SidebarFor(selected: seq<string>, groups: seq<Group>, data: Records): Result<Sidebar, MergeError>
  {
    if selected == [] then Ok(Prompt)
    else
      match Found(selected, groups, data)
      case Err(e) => Err(e)
      case Ok(rs) => Ok(Totals(SumRecords(rs)))
  }

  /** Once a prefix of the selection throws, the whole selection throws the same error. */
  lemma {:induction false} FoundAbortsAtError(selected: seq<string>, n: nat, groups: seq<Group>, data: Records)
    requires n <= |selected| && Found(selected[..n], groups, data).Err?
    ensures Found(selected, groups, data) == Found(selected[..n], groups, data)
    decreases |selected| - n
  {
    if n < |selected| {
      assert selected[..n + 1][..n] == selected[..n];
      FoundAbortsAtError(selected, n + 1, groups, data);
    } else {
      assert selected[..n] == selected;
    }
  }

  /** `for (const k in c) acc[k] = (acc[k] || 0) + (c[k] || 0)`. */
  method AddInto(acc: Counts, c: Counts) returns (r: Counts)
    ensures r == AddCounts(acc, c)
  {
    r := acc;
    var todo := c.Keys;
    while todo != {}
      invariant todo <= c.Keys
      invariant r.Keys == acc.Keys + (c.Keys - todo)
      invariant forall k | k in r :: r[k] == Get(acc, k) + (if k in todo then 0 else Get(c, k))
      decreases todo
    {
      var k :| k in todo;
      r := r[k := Get(r, k) + Get(c, k)];
      todo := todo - {k};
    }
  }

  /** The selection loop: copy the first record found, add every later one into it. */
  method SelectionTotals(selected: seq<string>, groups: seq<Group>, data: Records)
    returns (r: Result<Sidebar, MergeError>)
    ensures r == SidebarFor(selected, groups, data)
  {
    if |selected| == 0 {
      return Ok(Prompt);
    }
    var merged := NoData;
    var first := true;
    ghost var found: seq<Demographics> := [];
    for i := 0 to |selected|
      invariant Found(selected[..i], groups, data) == Ok(found)
      invariant first <==> found == []
      invariant merged == SumRecords(found)
    {
      assert selected[..i + 1][..i] == selected[..i];
      var demo: Demographics;
      var members := Lookup(groups, selected[i]);
      if members.Some? {
        var m := MergeDemographics(SetOf(members.value), data);
        if m.Err? {
          FoundAbortsAtError(selected, i + 1, groups, data);
          return Err(m.error);
        }
        demo := m.value;
      } else if selected[i] in data {
        demo := data[selected[i]];
      } else {
        continue;
      }
      if first {
        AddIntoEmpty(demo.income);
        AddIntoEmpty(demo.age);
        merged := demo;
        first := false;
      } else {
        var income := AddInto(merged.income, demo.income);
        var age := AddInto(merged.age, demo.age);
        merged := Demographics(income, age);
      }
      found := found + [demo];
    }
    assert selected[..|selected|] == selected;
    return Ok(Totals(merged));
  }

  // ----------------------------------------------------------------- lemmas

  /** One bucket summed over a list of records, a record without the bucket counting as 0. */
  function RecordsSum(rs: seq<Demographics>, side: Side, key: string): nat
  {
    if rs == [] then 0 else RecordsSum(rs[..|rs| - 1], side, key) + Get(Table(rs[|rs| - 1], side), key)
  }

  /**
   * The running record has every key some found record has, and no other, and
   * under each key the sum of that bucket over the found records.
   */
  lemma SumRecordsBuckets(rs: seq<Demographics>, side: Side, key: string)
    ensures key in Table(SumRecords(rs), side) <==> exists i | 0 <= i < |rs| :: key in Table(rs[i], side)
    ensures Get(Table(SumRecords(rs), side), key) == RecordsSum(rs, side, key)
  {
    SumRecordsKeys(rs, side, key);
    SumRecordsCounts(rs, side, key);
  }

  /** The running record has a key exactly when some found record has it. */
  lemma {:induction false} SumRecordsKeys(rs: seq<Demographics>, side: Side, key: string)
    ensures key in Table(SumRecords(rs), side) <==> exists i | 0 <= i < |rs| :: key in Table(rs[i], side)
  {
    if rs != [] {
      var init := rs[..|rs| - 1];
      SumRecordsKeys(init, side, key);
      assert Table(SumRecords(rs), side).Keys == Table(SumRecords(init), side).Keys + Table(rs[|rs| - 1], side).Keys;
      if key in Table(SumRecords(init), side) {
        var i :| 0 <= i < |init| && key in Table(init[i], side);
        assert rs[i] == init[i];
      }
      if exists i | 0 <= i < |rs| :: key in Table(rs[i], side) {
        var i :| 0 <= i < |rs| && key in Table(rs[i], side);
        if i < |init| {
          assert init[i] == rs[i];
        }
      }
    }
  }

  /** Under each key the running record holds the sum of that bucket over the found records. */
  lemma {:induction false} SumRecordsCounts(rs: seq<Demographics>, side: Side, key: string)
    ensures Get(Table(SumRecords(rs), side), key) == RecordsSum(rs, side, key)
  {
    if rs != [] {
      SumRecordsCounts(rs[..|rs| - 1], side, key);
    }
  }

  /** The records of a list of plain neighbourhood names. */
  function RecordsOf(names: seq<string>, data: Records): (rs: seq<Demographics>)
    requires forall n | n in names :: n in data
    ensures |rs| == |names| && forall i | 0 <= i < |names| :: rs[i] == data[names[i]]
  {
    if names == [] then [] else RecordsOf(names[..|names| - 1], data) + [data[names[|names| - 1]]]
  }

  /** A selection of neighbourhoods that all have records and none of which is a group finds each record, in order. */
  lemma {:induction false} FoundPlainNames(selected: seq<string>, groups: seq<Group>, data: Records)
    requires forall n | n in selected :: n in data && Lookup(groups, n).None?
    ensures Found(selected, groups, data) == Ok(RecordsOf(selected, data))
  {
    if selected != [] {
      FoundPlainNames(selected[..|selected| - 1], groups, data);
    }
  }

  /** Over plain records, the bucket sum of the selection is the merger's bucket sum. */
  lemma {:induction false} RecordsSumIsSumAt(names: seq<string>, data: Records, side: Side, key: string)
    requires forall n | n in names :: n in data
    ensures RecordsSum(RecordsOf(names, data), side, key) == SumAt(names, data, side, key)
  {
    if names != [] {
      var init := names[..|names| - 1];
      var last := names[|names| - 1];
      assert init + [last] == names;
      RecordsSumIsSumAt(init, data, side, key);
      SumAtAppend(init, [last], data, side, key);
      assert [last][1..] == [];
      assert RecordsOf(names, data)[..|names| - 1] == RecordsOf(init, data);
    }
  }

  /** Records that all have the same keys in one table sum to a table with those keys. */
  lemma {:induction false} SumRecordsUniformKeys(rs: seq<Demographics>, side: Side, keys: set<string>)
    requires rs != []
    requires forall i | 0 <= i < |rs| :: Table(rs[i], side).Keys == keys
    ensures Table(SumRecords(rs), side).Keys == keys
  {
    if |rs| > 1 {
      SumRecordsUniformKeys(rs[..|rs| - 1], side, keys);
    }
  }

  /** One table of the summed plain records is the merger's table over the first name's keys. */
  lemma SumRecordsIsSumsOver(names: seq<string>, data: Records, side: Side)
    requires names != []
    requires forall n | n in names :: n in data
    requires forall n | n in names :: Table(data[n], side).Keys == Table(data[names[0]], side).Keys
    ensures Table(SumRecords(RecordsOf(names, data)), side) ==
            SumsOver(Table(data[names[0]], side).Keys, names, data, side)
  {
    var rs := RecordsOf(names, data);
    var keys := Table(data[names[0]], side).Keys;
    assert forall i | 0 <= i < |rs| :: Table(rs[i], side).Keys == keys by {
      forall i | 0 <= i < |rs| ensures Table(rs[i], side).Keys == keys {
        assert rs[i] == data[names[i]] && names[i] in names;
      }
    }
    SumRecordsUniformKeys(rs, side, keys);
    var sum := Table(SumRecords(rs), side);
    forall k | k in keys ensures sum[k] == SumAt(names, data, side, k) {
      SumRecordsBuckets(rs, side, k);
      RecordsSumIsSumAt(names, data, side, k);
    }
  }

  /**
   * For a selection of neighbourhoods that all have records with the same
   * buckets, none of them a group, the selection totals are what
   * `mergeDemographics` computes for the same names.
   */
  lemma SelectionAgreesWithMerge(selected: seq<string>, groups: seq<Group>, data: Records)
    requires selected != []
    requires forall n | n in selected :: n in data && Lookup(groups, n).None?
    requires forall n | n in selected ::
      data[n].income.Keys == data[selected[0]].income.Keys && data[n].age.Keys == data[selected[0]].age.Keys
    ensures Merged(selected, data).Ok?
    ensures SidebarFor(selected, groups, data) == Ok(Totals(Merged(selected, data).value))
  {
    FoundPlainNames(selected, groups, data);
    assert FirstAbsent(selected, data).None?;
    SumRecordsIsSumsOver(selected, data, Income);
    SumRecordsIsSumsOver(selected, data, Age);
  }
}
