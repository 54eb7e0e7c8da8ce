/**
 * Demographic records: two bucket tables (income and age), each a JSON object
 * from bucket label to a count.
 */
module Buckets {

  /** A bucket table: label -> head count. */
  type Counts = map<string, nat>

  /** The count under `key`, an absent key counting as 0 (`table[key] || 0`). */
  function Get(c: Counts, key: string): nat
  {
    if key in c then c[key] else 0
  }

  /** One neighbourhood's record, as loaded from the demographics file. */
  datatype Demographics = Demographics(income: Counts, age: Counts)

  /** The record the selection merge starts from: `{ income: {}, age: {} }`. */
  const NoData := Demographics(map[], map[])

  /** Which of the two tables of a record an operation works on. */
  datatype Side = Income | Age

  function Table(d: Demographics, side: Side): Counts
  {
    match side
    case Income => d.income
    case Age => d.age
  }

  /**
   * Bucket-wise sum whose key set is the union of both key sets; it is what
   * `acc[k] = (acc[k] || 0) + (c[k] || 0)` for every key `k` of `c` leaves in `acc`.
   */
  function AddCounts(acc: Counts, c: Counts): (r: Counts)
    ensures r.Keys == acc.Keys + c.Keys
    ensures forall k :: Get(r, k) == Get(acc, k) + Get(c, k)
  {
    map k | k in acc.Keys + c.Keys :: Get(acc, k) + Get(c, k)
  }

  /** Bucket-wise sum of two records, table by table. */
  function AddRecords(a: Demographics, b: Demographics): Demographics
  {
    Demographics(AddCounts(a.income, b.income), AddCounts(a.age, b.age))
  }

  /** Adding into the empty table copies the table: the selection merge's `{ ...demo.income }`. */
  lemma AddIntoEmpty(c: Counts)
    ensures AddCounts(map[], c) == c
  {
  }
}
