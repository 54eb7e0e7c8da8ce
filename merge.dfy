/**
 * `mergeDemographics`: the record of a named group, summing its members'
 * records bucket by bucket. The buckets reported are those of the FIRST member;
 * a member without a record makes the merge throw as soon as a bucket is summed.
 */
module Merge {
  import opened Results
  import opened Buckets

  /** Name -> record, as loaded from the demographics file. */
  type Records = map<string, Demographics>

  /** Why the merge throws (both are a TypeError on an undefined record in the source). */
  datatype MergeError =
    | NoMembers                  // the set is empty: its "first member" is undefined
    | MissingRecord(name: string) // `data[name]` is undefined

  /** The first member, in order, that has no record. */
  function FirstAbsent(members: seq<string>, data: Records): (r: Option<string>)
    ensures r.None? <==> forall m | m in members :: m in data
    ensures r.Some? ==> r.value in members && r.value !in data
  {
    if members == [] then None
    else if members[0] !in data then Some(members[0])
    else FirstAbsent(members[1..], data)
  }

  /** The sum of one bucket over the members that have a record, a missing bucket counting as 0. */
  function SumAt(members: seq<string>, data: Records, side: Side, key: string): nat
  {
    if members == [] then 0
    else
      (if members[0] in data then Get(Table(data[members[0]], side), key) else 0)
      + SumAt(members[1..], data, side, key)
  }

  /**
   * One `reduce` of the merge: the running sum of one bucket over the members
   * in order, failing at the first member that has no record.
   */
  function ColumnSum(members: seq<string>, data: Records, side: Side, key: string): (r: Result<nat, MergeError>)
    ensures FirstAbsent(members, data).Some? ==> r == Err(MissingRecord(FirstAbsent(members, data).value))
    ensures FirstAbsent(members, data).None? ==> r == Ok(SumAt(members, data, side, key))
  {
    if members == [] then Ok(0)
    else if members[0] !in data then Err(MissingRecord(members[0]))
    else
      match ColumnSum(members[1..], data, side, key)
      case Err(e) => Err(e)
      case Ok(rest) => Ok(Get(Table(data[members[0]], side), key) + rest)
  }

  /** The sums of `keys`, one entry per key. */
  function SumsOver(keys: set<string>, members: seq<string>, data: Records, side: Side): Counts
  {
    map k | k in keys :: SumAt(members, data, side, k)
  }

  /** What `mergeDemographics(members, data)` returns or throws. */
  function Merged(members: seq<string>, data: Records): Result<Demographics, MergeError>
  {
    if |members| == 0 then Err(NoMembers)
    else if members[0] !in data then Err(MissingRecord(members[0]))
    else
      var first := data[members[0]];
      var absent := FirstAbsent(members, data);
      if absent.Some? && (first.income != map[] || first.age != map[]) then Err(MissingRecord(absent.value))
      else Ok(Demographics(SumsOver(first.income.Keys, members, data, Income),
                           SumsOver(first.age.Keys, members, data, Age)))
  }

  /** One of the two loops: fill a table with the sum of each key, key by key. */
  method SumBuckets(keys: set<string>, members: seq<string>, data: Records, side: Side)
    returns (r: Result<Counts, MergeError>)
    ensures keys != {} && FirstAbsent(members, data).Some? ==>
      r == Err(MissingRecord(FirstAbsent(members, data).value))
    ensures keys == {} || FirstAbsent(members, data).None? ==> r == Ok(SumsOver(keys, members, data, side))
  {
    var sums: Counts := map[];
    var todo := keys;
    while todo != {}
      invariant todo <= keys
      invariant sums.Keys == keys - todo
      invariant forall k | k in sums :: sums[k] == SumAt(members, data, side, k)
      invariant todo != keys ==> FirstAbsent(members, data).None?
      decreases todo
    {
      var key :| key in todo;
      var s := ColumnSum(members, data, side, key);
      if s.Err? {
        return Err(s.error);
      }
      sums := sums[key := s.value];
      todo := todo - {key};
    }
    assert sums == SumsOver(keys, members, data, side);
    return Ok(sums);
  }

  /** The merge as the source writes it: the first member's keys, then one sum per key. */
  method MergeDemographics(members: seq<string>, data: Records) returns (r: Result<Demographics, MergeError>)
    ensures r == Merged(members, data)
  {
    if |members| == 0 {
      return Err(NoMembers);
    }
    if members[0] !in data {
      return Err(MissingRecord(members[0]));
    }
    var first := data[members[0]];
    var income := SumBuckets(first.income.Keys, members, data, Income);
    if income.Err? {
      return Err(income.error);
    }
    var age := SumBuckets(first.age.Keys, members, data, Age);
    if age.Err? {
      return Err(age.error);
    }
    return Ok(Demographics(income.value, age.value));
  }

  // ----------------------------------------------------------------- lemmas

  /**
   * The merge throws exactly when the set is empty, the first member has no
   * record, or some member has no record while the first member's record has
   * at least one bucket to sum.
   */
  lemma MergedFailsIff(members: seq<string>, data: Records)
    ensures Merged(members, data).Err? <==>
      |members| == 0 || members[0] !in data ||
      ((exists m | m in members :: m !in data) &&
       (data[members[0]].income != map[] || data[members[0]].age != map[]))
  {
  }

  /**
   * A successful merge reports exactly the first member's buckets, each holding
   * that bucket's sum over all members (a bucket a member lacks counting as 0);
   * a bucket only later members have is dropped.
   */
  lemma MergedBuckets(members: seq<string>, data: Records, side: Side, key: string)
    requires Merged(members, data).Ok?
    ensures key in Table(Merged(members, data).value, side) <==> key in Table(data[members[0]], side)
    ensures key in Table(data[members[0]], side) ==>
      Table(Merged(members, data).value, side)[key] == SumAt(members, data, side, key)
  {
  }

  /** Merging a one-member set reproduces that member's record. */
  lemma MergedSingleton(name: string, data: Records)
    requires name in data
    ensures Merged([name], data) == Ok(data[name])
  {
    var d := data[name];
    assert [name][1..] == [];
    forall side: Side, k | k in Table(d, side) ensures SumAt([name], data, side, k) == Table(d, side)[k] {
    }
    assert SumsOver(d.income.Keys, [name], data, Income) == d.income;
    assert SumsOver(d.age.Keys, [name], data, Age) == d.age;
  }

  /** A bucket's sum over two member lists put together is the sum of the two sums. */
  lemma {:induction false} SumAtAppend(a: seq<string>, b: seq<string>, data: Records, side: Side, key: string)
    ensures SumAt(a + b, data, side, key) == SumAt(a, data, side, key) + SumAt(b, data, side, key)
  {
    if a != [] {
      assert (a + b)[1..] == a[1..] + b;
      SumAtAppend(a[1..], b, data, side, key);
    } else {
      assert a + b == b;
    }
  }

  /**
   * Merging two member lists put together adds, bucket by bucket, the second
   * list's sums to the first list's merge (on the first list's buckets).
   */
  lemma MergedAppend(a: seq<string>, b: seq<string>, data: Records, side: Side, key: string)
    requires Merged(a, data).Ok? && Merged(a + b, data).Ok?
    requires key in Table(Merged(a, data).value, side)
    ensures key in Table(Merged(a + b, data).value, side)
    ensures Table(Merged(a + b, data).value, side)[key] ==
            Table(Merged(a, data).value, side)[key] + SumAt(b, data, side, key)
  {
    assert (a + b)[0] == a[0];
    SumAtAppend(a, b, data, side, key);
  }

  /**
   * When both lists merge and their first members have the same buckets, the
   * merge of the two lists together is the bucket-wise sum of the two merges.
   */
  lemma MergedUnion(a: seq<string>, b: seq<string>, data: Records)
    requires Merged(a, data).Ok? && Merged(b, data).Ok?
    requires data[a[0]].income.Keys == data[b[0]].income.Keys
    requires data[a[0]].age.Keys == data[b[0]].age.Keys
    ensures Merged(a + b, data) == Ok(AddRecords(Merged(a, data).value, Merged(b, data).value))
  {
    assert (a + b)[0] == a[0];
    assert Merged(a + b, data).Ok? by {
      var absent := FirstAbsent(a + b, data);
      if absent.Some? {
        assert absent.value in a || absent.value in b;
      }
    }
    var ab := Merged(a + b, data).value;
    var sum := AddRecords(Merged(a, data).value, Merged(b, data).value);
    forall k | k in ab.income ensures ab.income[k] == sum.income[k] {
      SumAtAppend(a, b, data, Income, k);
    }
    forall k | k in ab.age ensures ab.age[k] == sum.age[k] {
      SumAtAppend(a, b, data, Age, k);
    }
    assert ab.income == sum.income;
    assert ab.age == sum.age;
  }
}
