/** Row preparation shared by the CSV and SQLite writers of the API runner and
    the scraper: keep the dict records that carry no 'error' key, in order;
    take the union of their keys as the columns; project every kept record onto
    the columns, with '' for a key the record lacks. Writing the file or the
    database is not modelled; what would be written is returned. */
module Storage {
  import opened Values

  /** `isinstance(item, dict) and 'error' not in item`. */
  predicate Survives(item: Value)
  {
    item.Dict? && "error" !in Keys(item.entries)
  }

  /** The records a writer keeps, in their original order. */
  function Kept(data: seq<Value>): (r: seq<Value>)
    ensures |r| <= |data|
    ensures forall i :: 0 <= i < |r| ==> Survives(r[i])
  {
    if data == [] then []
    else Kept(data[..|data| - 1]) + (if Survives(data[|data| - 1]) then [data[|data| - 1]] else [])
  }

  /** Filtering distributes over concatenation: what survives of a + b is what
      survives of a followed by what survives of b. */
  lemma {:induction false} KeptAppend(a: seq<Value>, b: seq<Value>)
    ensures Kept(a + b) == Kept(a) + Kept(b)
    decreases |b|
  {
    if b != [] {
      assert (a + b)[..|a + b| - 1] == a + b[..|b| - 1];
      KeptAppend(a, b[..|b| - 1]);
    } else {
      assert a + b == a;
    }
  }

  /** A record is kept exactly when it is in the input and survives. */
  lemma {:induction false} KeptMembers(data: seq<Value>, v: Value)
    ensures v in Kept(data) <==> v in data && Survives(v)
  {
    if data != [] {
      var init := data[..|data| - 1];
      KeptMembers(init, v);
      assert data == init + [data[|data| - 1]];
    }
  }

  /** When every record survives, nothing is dropped. */
  lemma {:induction false} KeptAll(data: seq<Value>)
    requires forall i :: 0 <= i < |data| ==> Survives(data[i])
    ensures Kept(data) == data
  {
    if data != [] {
      KeptAll(data[..|data| - 1]);
      assert data == data[..|data| - 1] + [data[|data| - 1]];
    }
  }

  /** The keys of a record; a non-dict has none. */
  function RecordKeys(v: Value): set<string>
  {
    if v.Dict? then Keys(v.entries) else {}
  }

  /** The union of the keys of all records. */
  function Columns(rows: seq<Value>): set<string>
  {
    if rows == [] then {} else Columns(rows[..|rows| - 1]) + RecordKeys(rows[|rows| - 1])
  }

  lemma {:induction false} ColumnsUnion(rows: seq<Value>)
    ensures forall k :: k in Columns(rows) <==> exists i :: 0 <= i < |rows| && k in RecordKeys(rows[i])
  {
    if rows != [] {
      var init := rows[..|rows| - 1];
      ColumnsUnion(init);
      forall k | k in Columns(rows)
        ensures exists i :: 0 <= i < |rows| && k in RecordKeys(rows[i])
      {
        if k in Columns(init) {
          var i :| 0 <= i < |init| && k in RecordKeys(init[i]);
          assert rows[i] == init[i];
        }
      }
      forall k, i | 0 <= i < |rows| && k in RecordKeys(rows[i])
        ensures k in Columns(rows)
      {
        if i < |rows| - 1 { assert init[i] == rows[i]; }
      }
    }
  }

  /** A row as the writer emits it: one cell per column, `cell(item.get(key, ''))`. */
  function Project<C>(item: Value, columns: set<string>, cell: Value -> C): map<string, C>
  {
    map k | k in columns :: cell(if item.Dict? then Get(item.entries, k, Str("")) else Str(""))
  }

  /** What one writer prepares to write: the column set and the rows in order. */
  datatype Table<C> = Table(columns: set<string>, rows: seq<map<string, C>>)

  /** The filter loop that builds `flattened_data`. */
  method FilterRecords(data: seq<Value>) returns (kept: seq<Value>)
    ensures kept == Kept(data)
  {
    kept := [];
    var i := 0;
    while i < |data|
      invariant 0 <= i <= |data|
      invariant kept == Kept(data[..i])
    {
      assert data[..i + 1][..i] == data[..i];
      if data[i].Dict? && "error" !in Keys(data[i].entries) {
        kept := kept + [data[i]];
      }
      i := i + 1;
    }
    assert data[..|data|] == data;
  }

  /** The key loop, `keys.update(item.keys())` for every kept record. */
  method CollectKeys(rows: seq<Value>) returns (keys: set<string>)
    ensures keys == Columns(rows)
  {
    keys := {};
    var i := 0;
    while i < |rows|
      invariant 0 <= i <= |rows|
      invariant keys == Columns(rows[..i])
    {
      assert rows[..i + 1][..i] == rows[..i];
      if rows[i].Dict? {
        keys := keys + Keys(rows[i].entries);
      }
      i := i + 1;
    }
    assert rows[..|rows|] == rows;
  }

  /** The projected rows of some records, in order. */
  function Rows<C>(records: seq<Value>, columns: set<string>, cell: Value -> C): (r: seq<map<string, C>>)
    ensures |r| == |records|
  {
    if records == [] then []
    else Rows(records[..|records| - 1], columns, cell) + [Project(records[|records| - 1], columns, cell)]
  }

  /** Row i is record i projected onto the columns. */
  lemma {:induction false} RowsProject<C>(records: seq<Value>, columns: set<string>, cell: Value -> C)
    ensures forall i :: 0 <= i < |records| ==> Rows(records, columns, cell)[i] == Project(records[i], columns, cell)
  {
    if records != [] {
      var init := records[..|records| - 1];
      RowsProject(init, columns, cell);
      assert forall i :: 0 <= i < |init| ==> init[i] == records[i];
    }
  }

  /** The table a writer prepares for some data: none, and an early return,
      when no record survives. */
  function Prepared<C>(data: seq<Value>, cell: Value -> C): Option<Table<C>>
  {
    var kept := Kept(data);
    if kept == [] then None else Some(Table(Columns(kept), Rows(kept, Columns(kept), cell)))
  }

  /** No table is prepared when the input is empty or no record survives;
      otherwise the columns are the keys found in some kept record, and there
      is one row per kept record, in order, holding a cell for every column:
      the record's value for it, or '' when it lacks the key. */
  lemma PreparedTable<C>(data: seq<Value>, cell: Value -> C)
    ensures Prepared(data, cell).None? <==> Kept(data) == []
    ensures data == [] ==> Prepared(data, cell).None?
    ensures var t := Prepared(data, cell);
      t.Some? ==>
      && (forall k :: k in t.value.columns <==> exists i :: 0 <= i < |Kept(data)| && k in Keys(Kept(data)[i].entries))
      && |t.value.rows| == |Kept(data)|
      && forall i :: 0 <= i < |t.value.rows| ==>
           t.value.rows[i].Keys == t.value.columns
           && forall k :: k in t.value.columns ==>
                t.value.rows[i][k] == cell(Get(Kept(data)[i].entries, k, Str("")))
  {
    var kept := Kept(data);
    if kept != [] {
      var columns := Columns(kept);
      ColumnsUnion(kept);
      RowsProject(kept, columns, cell);
      forall k | k in columns
        ensures exists i :: 0 <= i < |kept| && k in Keys(kept[i].entries)
      {
        var i :| 0 <= i < |kept| && k in RecordKeys(kept[i]);
        assert kept[i].Dict?;
      }
      forall k, i | 0 <= i < |kept| && k in Keys(kept[i].entries)
        ensures k in columns
      {
        assert k in RecordKeys(kept[i]);
      }
    }
  }

  /** The row loop: one projected row per kept record. */
  method ProjectRows<C>(kept: seq<Value>, keys: set<string>, cell: Value -> C) returns (rows: seq<map<string, C>>)
    ensures rows == Rows(kept, keys, cell)
  {
    rows := [];
    var i := 0;
    while i < |kept|
      invariant 0 <= i <= |kept|
      invariant rows == Rows(kept[..i], keys, cell)
    {
      assert kept[..i + 1][..i] == kept[..i];
      rows := rows + [Project(kept[i], keys, cell)];
      i := i + 1;
    }
    assert kept[..|kept|] == kept;
  }

  /** Everything a writer does before it opens its file. */
  method Prepare<C>(data: seq<Value>, cell: Value -> C) returns (t: Option<Table<C>>)
    ensures t == Prepared(data, cell)
  {
    if data == [] {
      return None;
    }
    var kept := FilterRecords(data);
    if kept == [] {
      return None;
    }
    var keys := CollectKeys(kept);
    var rows := ProjectRows(kept, keys, cell);
    t := Some(Table(keys, rows));
  }
}
