/** The dataset accumulator: an in-memory table of (image path, product label)
    rows that only ever grows, and snapshots of the whole table written to a
    file named after the second at which the snapshot was taken. */
module Dataset {

  datatype Option<T> = None | Some(value: T)

  /** One row of the table, with the table's two columns. */
  datatype Row = Row(imagePath: string, productLabel: string)

  /** What one save would write: the file path and the rows in it (whether the
      write itself succeeds is decided by the file system). */
  datatype Snapshot = Snapshot(path: string, rows: seq<Row>)

  const Directory: string := "datasets/"
  const Extension: string := ".parquet"

  /** The timestamp a dataset path was built from, or None for a path no
      timestamp produces. */
  function TimestampOf(path: string): (t: Option<string>)
  {
    if |path| >= |Directory| + |Extension|
       && path[..|Directory|] == Directory
       && path[|path| - |Extension|..] == Extension
    then Some(path[|Directory|..|path| - |Extension|])
    else None
  }

  /** The file a save writes to, given the second-resolution timestamp already
      formatted as `%Y-%m-%dT%H:%M:%S`: the timestamp can be read back from it. */
  function DatasetFilepath(timestamp: string): (path: string)
    ensures |path| == |timestamp| + |Directory| + |Extension|
    ensures TimestampOf(path) == Some(timestamp)
  {
    var path := Directory + timestamp + Extension;
    assert path[..|Directory|] == Directory;
    assert path[|path| - |Extension|..] == Extension;
    assert path[|Directory|..|path| - |Extension|] == timestamp;
    path
  }

  /** Every path that names a timestamp is the path of that timestamp, so dataset
      paths and timestamps correspond one to one. */
  lemma DatasetFilepathOf(path: string)
    requires TimestampOf(path).Some?
    ensures DatasetFilepath(TimestampOf(path).value) == path
  {
  }

  /** Two saves get the same path exactly when their timestamps are equal, in
      particular when they happen within the same second. */
  lemma SamePathIffSameTimestamp(t1: string, t2: string)
    ensures DatasetFilepath(t1) == DatasetFilepath(t2) <==> t1 == t2
  {
  }

  /** The generator owns the table; `add_label` is the only operation that changes it. */
  class DatasetGenerator {
    var rows: seq<Row>

    /** A new generator starts with an empty table. */
    constructor ()
      ensures rows == []
    {
      rows := [];
    }

    /** Appends one row, without checking the path or the label (either may be empty). */
    method AddLabel(imagePath: string, productLabel: string)
      modifies this
      ensures rows == old(rows) + [Row(imagePath, productLabel)]
      ensures |rows| == |old(rows)| + 1
      ensures rows[..|old(rows)|] == old(rows)
      ensures rows[|rows| - 1] == Row(imagePath, productLabel)
    {
      rows := rows + [Row(imagePath, productLabel)];
    }

    /** Writes the whole table to the file of `timestamp`; the table stays as it is
        (the method modifies nothing). */
    method SaveDataset(timestamp: string) returns (snapshot: Snapshot)
      ensures snapshot.rows == rows
      ensures TimestampOf(snapshot.path) == Some(timestamp)
      ensures snapshot.path == DatasetFilepath(timestamp)
    {
      snapshot := Snapshot(DatasetFilepath(timestamp), rows);
    }
  }
}
