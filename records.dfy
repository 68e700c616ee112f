/**
  The shapes of data the front end receives from the back end. A forecast
  file is a list of rows (`CsvData`); the "all files" response
  (`ApiResponse`) is a dictionary from file name (the source) to that file's
  rows, in the order the back end inserted the keys. Prices are taken as
  already-parsed exact reals.
 */
module Records {
  import opened Wrappers

  /** One row of a forecast file: a `YYYYMMDD` date, an `HHMM` time of 1 to 4 digits, a price. */
  datatype Record = Record(date: string, time: string, priceFcst: real)

  /** A row that also names the file it came from. */
  datatype SourcedRecord = SourcedRecord(date: string, time: string, priceFcst: real, source: string)

  /** One `[key, rows]` pair of a dictionary, as `Object.entries` yields it. */
  datatype Entry = Entry(key: string, rows: seq<Record>)

  predicate DistinctKeys(entries: seq<Entry>)
  {
    forall i, j :: 0 <= i < j < |entries| ==> entries[i].key != entries[j].key
  }

  /** A JavaScript object used as a dictionary: its entries in key order, each key once. */
  type Dict = entries: seq<Entry> | DistinctKeys(entries) witness []

  /** What a fetch delivers: the rows of one file, or the dictionary of all files. */
  datatype Payload = Rows(rows: seq<Record>) | BySource(dict: Dict)

  function Keys(entries: seq<Entry>): (r: seq<string>)
    ensures |r| == |entries|
    ensures forall i :: 0 <= i < |entries| ==> r[i] == entries[i].key
  {
    if entries == [] then [] else [entries[0].key] + Keys(entries[1..])
  }

  /** `d[key]`: the rows stored under `key`, if any. */
  function Lookup(d: Dict, key: string): (r: Option<seq<Record>>)
    ensures r.Some? <==> key in Keys(d)
    ensures forall i :: 0 <= i < |d| && d[i].key == key ==> r == Some(d[i].rows)
  {
    if d == [] then None
    else if d[0].key == key then Some(d[0].rows)
    else Lookup(d[1..], key)
  }

  /** Where `key` sits among the entries. */
  function IndexOf(entries: seq<Entry>, key: string): (i: nat)
    requires key in Keys(entries)
    ensures i < |entries| && entries[i].key == key
  {
    if entries[0].key == key then 0
    else
      assert Keys(entries) == [entries[0].key] + Keys(entries[1..]);
      1 + IndexOf(entries[1..], key)
  }

  /**
    `d[key] = rows` on a JavaScript object: an existing key keeps its place
    and gets the new rows; a new key is added after all the others.
   */
  function Assign(d: Dict, key: string, rows: seq<Record>): (r: Dict)
    ensures Lookup(r, key) == Some(rows)
    ensures forall k :: k != key ==> Lookup(r, k) == Lookup(d, k)
    ensures Keys(r) == if key in Keys(d) then Keys(d) else Keys(d) + [key]
    ensures key !in Keys(d) ==> r == d + [Entry(key, rows)]
  {
    if key in Keys(d) then
      var i := IndexOf(d, key);
      var r := d[i := Entry(key, rows)];
      assert Keys(r) == Keys(d);
      LookupAfterAssign(d, r, key, rows);
      r
    else
      var r := d + [Entry(key, rows)];
      assert Keys(r) == Keys(d) + [key];
      LookupAfterAssign(d, r, key, rows);
      r
  }

  /** Lookups in a dictionary whose entries differ from `d`'s only in those under `key`. */
  lemma LookupAfterAssign(d: Dict, r: Dict, key: string, rows: seq<Record>)
    requires Keys(r) == Keys(d) || Keys(r) == Keys(d) + [key]
    requires forall i :: 0 <= i < |d| && d[i].key != key ==> r[i] == d[i]
    requires Entry(key, rows) in r
    ensures Lookup(r, key) == Some(rows)
    ensures forall k :: k != key ==> Lookup(r, k) == Lookup(d, k)
  {
    forall k | k != key
      ensures Lookup(r, k) == Lookup(d, k)
    {
      if k in Keys(d) {
        var m := IndexOf(d, k);
        assert r[m] == d[m];
      } else {
        assert k !in Keys(r);
      }
    }
  }

  /** Assigning a key the dictionary lacks appends its entry. */
  lemma AssignNewKey(d: Dict, key: string, rows: seq<Record>)
    requires key !in Keys(d)
    ensures Assign(d, key, rows) == d + [Entry(key, rows)]
  {
  }
}
