/**
  The table view: the rows it lists and the columns it shows. The rows of a
  single file are listed as they are. The "all files" dictionary is turned
  into one long list in which every row names the file it came from, and a
  "Source" column is put in front of the page's columns.
 */
module Spreadsheet {
  import opened Wrappers
  import opened Records
  import Seqs

  /** A react-table column: its heading and the row field it shows. */
  datatype Column = Column(header: string, accessor: string)

  const SourceColumn := Column("Source", "source")

  /** The fields of a `CsvData` row. */
  const CsvFields: set<string> := {"date", "time", "price_fcst"}

  /** The rows handed to the table: plain rows, or rows tagged with their source. */
  datatype TableRows = Plain(rows: seq<Record>) | Tagged(tagged: seq<SourcedRecord>)

  /** The fields every row in `rows` has. */
  function Fields(rows: TableRows): set<string>
  {
    if rows.Plain? then CsvFields else CsvFields + {"source"}
  }

  /** `{ ...item, source: key }`: the row with its source added, which `Untag` removes again. */
  function Tag(key: string): (f: Record -> SourcedRecord)
    ensures forall item :: f(item).source == key && Untag(f(item)) == item
  {
    (item: Record) => SourcedRecord(item.date, item.time, item.priceFcst, key)
  }

  /** The row a tagged row was made from. */
  function Untag(row: SourcedRecord): Record
  {
    Record(row.date, row.time, row.priceFcst)
  }

  /** Whether a tagged row came from file `key`. */
  function HasSource(key: string): SourcedRecord -> bool
  {
    (row: SourcedRecord) => row.source == key
  }

  /** `d[key] ?? []`: the rows of file `key`, none if the dictionary lacks it. */
  function RowsOf(d: Dict, key: string): seq<Record>
  {
    match Lookup(d, key)
    case Some(rows) => rows
    case None => []
  }

  /** The number of rows over all entries. */
  function TotalRows(entries: seq<Entry>): nat
  {
    if entries == [] then 0 else |entries[0].rows| + TotalRows(entries[1..])
  }

  /** `Object.entries(d).flatMap(([key, value]) => value.map(item => ({ ...item, source: key })))`. */
  function FlattenEntries(entries: seq<Entry>): (r: seq<SourcedRecord>)
    ensures |r| == TotalRows(entries)
  {
    if entries == [] then []
    else Seqs.Map(Tag(entries[0].key), entries[0].rows) + FlattenEntries(entries[1..])
  }

  /** Every row of the flattened list is tagged with one of the keys. */
  lemma {:induction false} FlattenedSources(entries: seq<Entry>)
    ensures forall i :: 0 <= i < |FlattenEntries(entries)| ==> FlattenEntries(entries)[i].source in Keys(entries)
  {
    if entries != [] {
      FlattenedSources(entries[1..]);
      assert Keys(entries) == [entries[0].key] + Keys(entries[1..]);
    }
  }

  /** `flattenedData`: a file's rows unchanged; a dictionary flattened with every row tagged. */
  function Flatten(data: Payload): (r: TableRows)
    ensures data.Rows? <==> r.Plain?
    ensures data.Rows? ==> r.rows == data.rows
    ensures data.BySource? ==> |r.tagged| == TotalRows(data.dict)
  {
    match data
    case Rows(rows) => Plain(rows)
    case BySource(d) => Tagged(FlattenEntries(d))
  }

  /**
    Entries keep their order and so do the rows within an entry: row `j` of
    entry `k` is listed after all rows of the entries before it, tagged with
    entry `k`'s key and otherwise unchanged.
   */
  lemma {:induction false} FlattenAt(entries: seq<Entry>, k: nat, j: nat)
    requires k < |entries| && j < |entries[k].rows|
    ensures TotalRows(entries[..k]) + j < |FlattenEntries(entries)|
    ensures FlattenEntries(entries)[TotalRows(entries[..k]) + j] == Tag(entries[k].key)(entries[k].rows[j])
  {
    if k == 0 {
      assert entries[..0] == [];
    } else {
      FlattenAt(entries[1..], k - 1, j);
      TotalRowsPrefix(entries, k);
      IndexPastHead(entries, TotalRows(entries[1..][..k - 1]) + j);
      assert entries[1..][k - 1] == entries[k];
    }
  }

  /** The rows of the first `k` entries are those of the first entry and of the next `k - 1`. */
  lemma TotalRowsPrefix(entries: seq<Entry>, k: nat)
    requires 0 < k <= |entries|
    ensures TotalRows(entries[..k]) == |entries[0].rows| + TotalRows(entries[1..][..k - 1])
  {
    assert entries[..k][1..] == entries[1..][..k - 1];
  }

  /** Past the first entry's rows, the flattened list continues with the flattened rest. */
  lemma IndexPastHead(entries: seq<Entry>, t: nat)
    requires entries != [] && t < |FlattenEntries(entries[1..])|
    ensures |entries[0].rows| + t < |FlattenEntries(entries)|
    ensures FlattenEntries(entries)[|entries[0].rows| + t] == FlattenEntries(entries[1..])[t]
  {
    var head := Seqs.Map(Tag(entries[0].key), entries[0].rows);
    assert FlattenEntries(entries) == head + FlattenEntries(entries[1..]);
  }

  /** A dictionary's tail is a dictionary. */
  function Rest(d: Dict): (r: Dict)
    requires d != []
    ensures r == d[1..]
  {
    assert DistinctKeys(d[1..]) by {
      forall i, j | 0 <= i < j < |d| - 1
        ensures d[1..][i].key != d[1..][j].key
      {
        assert d[1..][i] == d[i + 1] && d[1..][j] == d[j + 1];
      }
    }
    d[1..]
  }

  /**
    Flattening loses nothing: picking out the rows tagged with `key` and
    dropping the tag gives back exactly the rows the dictionary holds for `key`.
   */
  lemma {:induction false} UntagSource(d: Dict, key: string)
    ensures Seqs.Map(Untag, Seqs.Filter(HasSource(key), FlattenEntries(d))) == RowsOf(d, key)
  {
    if d != [] {
      if d[0].key == key {
        UntagFirstSource(d, key);
      } else {
        SkipOtherSource(d, key);
        UntagSource(Rest(d), key);
      }
    }
  }

  /** The rows of the first file are the first rows of the table, and the only ones tagged with its key. */
  lemma UntagFirstSource(d: Dict, key: string)
    requires d != [] && d[0].key == key
    ensures Seqs.Map(Untag, Seqs.Filter(HasSource(key), FlattenEntries(d))) == RowsOf(d, key)
  {
    var rest := Rest(d);
    var head := Seqs.Map(Tag(key), d[0].rows);
    Seqs.FilterConcat(HasSource(key), head, FlattenEntries(rest));
    FilterTagged(key, key, d[0].rows);
    assert key !in Keys(rest);
    FlattenedSources(rest);
    Seqs.FilterNone(HasSource(key), FlattenEntries(rest));
    UntagTag(key, d[0].rows);
  }

  /** A first file with another key contributes no row tagged with `key`. */
  lemma SkipOtherSource(d: Dict, key: string)
    requires d != [] && d[0].key != key
    ensures Seqs.Filter(HasSource(key), FlattenEntries(d)) == Seqs.Filter(HasSource(key), FlattenEntries(Rest(d)))
    ensures RowsOf(d, key) == RowsOf(Rest(d), key)
  {
    var head := Seqs.Map(Tag(d[0].key), d[0].rows);
    Seqs.FilterConcat(HasSource(key), head, FlattenEntries(Rest(d)));
    FilterTagged(d[0].key, key, d[0].rows);
  }

  /** Of the rows tagged with `k`, those from file `key` are all of them or none. */
  lemma FilterTagged(k: string, key: string, rows: seq<Record>)
    ensures Seqs.Filter(HasSource(key), Seqs.Map(Tag(k), rows)) == if k == key then Seqs.Map(Tag(k), rows) else []
  {
    if k == key {
      Seqs.FilterAll(HasSource(key), Seqs.Map(Tag(k), rows));
    } else {
      Seqs.FilterNone(HasSource(key), Seqs.Map(Tag(k), rows));
    }
  }

  /** Dropping the tag undoes tagging. */
  lemma UntagTag(key: string, rows: seq<Record>)
    ensures Seqs.Map(Untag, Seqs.Map(Tag(key), rows)) == rows
  {
  }

  /** `allColumns`: the "Source" column in front of the given ones for a dictionary, the given ones for a file. */
  function AllColumns(data: Payload, columns: seq<Column>): (r: seq<Column>)
    ensures data.BySource? ==> r == [SourceColumn] + columns
    ensures data.Rows? ==> r == columns
  {
    if data.BySource? then [SourceColumn] + columns else columns
  }

  /**
    Given columns over `CsvData` fields, every column of the table names a
    field its rows have, and the "Source" column is shown exactly when the
    rows carry their source.
   */
  lemma ColumnsMatchRows(data: Payload, columns: seq<Column>)
    requires forall c :: c in columns ==> c.accessor in CsvFields
    ensures forall c :: c in AllColumns(data, columns) ==> c.accessor in Fields(Flatten(data))
    ensures SourceColumn in AllColumns(data, columns) <==> Flatten(data).Tagged?
  {
    assert SourceColumn !in columns;
  }
}
