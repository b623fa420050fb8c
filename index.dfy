/** The item index (bdl/index.py): the `bdlitems` rows, the position
    counter, storing, querying and renaming items. */
module ItemIndex {
  import opened Wrappers
  import opened Errors
  import Strings
  import Items
  import opened Schema
  import Storenames
  import Disk

  /** Rows in strictly increasing position order: the primary key makes
      positions distinct, and every query reads them `ORDER BY position`. */
  predicate Increasing(rows: seq<Row>)
  {
    forall i, j :: 0 <= i < j < |rows| ==> rows[i].position < rows[j].position
  }

  /** No row lies beyond the counter. */
  predicate Below(rows: seq<Row>, counter: int)
  {
    forall i :: 0 <= i < |rows| ==> rows[i].position <= counter
  }

  /** Each URL is indexed at most once. */
  predicate UniqueUrls(rows: seq<Row>)
  {
    forall i, j :: 0 <= i < j < |rows| ==> rows[i].url != rows[j].url
  }

  /** `after` holds the rows of `rows`, in order, with the same position,
      URL and hash each: only the other columns may differ. */
  predicate KeysKept(rows: seq<Row>, after: seq<Row>)
  {
    && |after| == |rows|
    && forall i :: 0 <= i < |rows| ==>
         after[i].position == rows[i].position && after[i].url == rows[i].url
         && after[i].hashed == rows[i].hashed
  }

  /** Every table of a database file lists its rows in position order. */
  predicate WellFormed(db: Database)
  {
    forall name :: name in db.tables ==> Increasing(db.tables[name].rows)
  }

  /** `SELECT position FROM bdlitems WHERE url == :url`, first row. */
  function FindUrl(rows: seq<Row>, url: Items.Url): (p: Option<int>)
    ensures p.None? <==> forall i :: 0 <= i < |rows| ==> rows[i].url != url
    ensures p.Some? ==> exists i :: 0 <= i < |rows| && rows[i].url == url && rows[i].position == p.value
    decreases |rows|
  {
    if rows == [] then None
    else if rows[0].url == url then Some(rows[0].position)
    else
      var p := FindUrl(rows[1..], url);
      if p.Some? then
        ghost var i :| 0 <= i < |rows[1..]| && rows[1..][i].url == url && rows[1..][i].position == p.value;
        assert rows[i + 1] == rows[1..][i];
        p
      else p
  }

  /** `query_update_item` (index.py:57-62): every row with that URL gets the
      new filename, extension, storename and metadata; position, URL and
      hash are kept. */
  function UpdateByUrl(rows: seq<Row>, url: Items.Url, filename: string, extension: string,
                       storename: string, metadata: map<string, string>): (r: seq<Row>)
    ensures KeysKept(rows, r)
    ensures forall i :: 0 <= i < |rows| && rows[i].url != url ==> r[i] == rows[i]
    ensures forall i :: 0 <= i < |rows| && rows[i].url == url ==>
              r[i] == rows[i].(filename := Some(filename), extension := Some(extension),
                               storename := Some(storename), metadata := Encoded(metadata))
  {
    seq(|rows|, i requires 0 <= i < |rows| =>
      if rows[i].url == url then
        rows[i].(filename := Some(filename), extension := Some(extension),
                 storename := Some(storename), metadata := Encoded(metadata))
      else rows[i])
  }

  /** The item `get_queried` builds from a row (index.py:262-268): no
      content, the stored hash, the decoded metadata. */
  function RowItem(row: Row): Items.ItemData
  {
    Items.MakeItem(row.url, row.filename, row.extension, row.storename, None, row.hashed,
                   DecodeMetadata(row.metadata), None)
  }

  /** `get_queried` (index.py:248-269) over rows in position order: an empty
      result yields the single pair (None, 0). */
  function Queried(rows: seq<Row>): (r: seq<(Option<Items.ItemData>, int)>)
    ensures rows == [] ==> r == [(None, 0)]
    ensures rows != [] ==> |r| == |rows| && forall i :: 0 <= i < |rows| ==>
              r[i] == (Some(RowItem(rows[i])), rows[i].position)
  {
    if rows == [] then [(None, 0)]
    else seq(|rows|, i requires 0 <= i < |rows| => (Some(RowItem(rows[i])), rows[i].position))
  }

  /** `get_last`: the row with the highest position, or (None, 0). */
  function Last(rows: seq<Row>): (r: (Option<Items.ItemData>, int))
    ensures rows == [] ==> r == (None, 0)
    ensures rows != [] ==> r == (Some(RowItem(rows[|rows| - 1])), rows[|rows| - 1].position)
  {
    if rows == [] then (None, 0) else (Some(RowItem(rows[|rows| - 1])), rows[|rows| - 1].position)
  }

  /** `get_first`: the row with the lowest position, or (None, 0). */
  function First(rows: seq<Row>): (r: (Option<Items.ItemData>, int))
    ensures rows == [] ==> r == (None, 0)
    ensures rows != [] ==> r == (Some(RowItem(rows[0])), rows[0].position)
  {
    if rows == [] then (None, 0) else (Some(RowItem(rows[0])), rows[0].position)
  }

  /** The counter `load` seeds from the last row (index.py:189-191). */
  function SeedCounter(rows: seq<Row>): (c: int)
    ensures c >= 0
    ensures rows != [] && rows[|rows| - 1].position >= 0 ==> c == rows[|rows| - 1].position
  {
    var last := Last(rows).1;
    if last >= 0 then last else 0
  }

  /** After `load` the counter is the highest stored position, or 0 for an
      empty table or one whose positions are all negative. */
  lemma SeedCounterIsMax(rows: seq<Row>)
    requires Increasing(rows)
    ensures Below(rows, SeedCounter(rows))
    ensures rows == [] ==> SeedCounter(rows) == 0
    ensures forall i :: 0 <= i < |rows| && rows[i].position >= 0 ==> rows[i].position <= SeedCounter(rows)
    ensures rows != [] && rows[|rows| - 1].position >= 0 ==>
              exists i :: 0 <= i < |rows| && rows[i].position == SeedCounter(rows)
  {
  }

  /** What one `store` does to the table: the rows, the counter, and the
      storename it returns (`None` when the item is ignored). */
  datatype Stored = Stored(rows: seq<Row>, counter: int, storename: Option<string>)

  /** The table effect of `store(item, update=update)` (index.py:355-385). */
  function StoreRows(rows: seq<Row>, counter: int, parsed: Storenames.Parsed, item: Items.ItemData,
                     update: bool): Result<Stored>
  {
    var found := FindUrl(rows, item.url);
    if found.Some? then
      if !update then Ok(Stored(rows, counter, None))
      else
        var name := Storenames.BuildParsed(parsed, found.value, item.filename, item.extension,
                                              item.metadata);
        if name.Err? then Err(name.error)
        else Ok(Stored(UpdateByUrl(rows, item.url, item.filename, item.extension, name.value, item.metadata),
                       counter, Some(name.value)))
    else
      var name := Storenames.BuildParsed(parsed, counter + 1, item.filename, item.extension,
                                            item.metadata);
      if name.Err? then Err(name.error)
      else Ok(Stored(rows + [InsertedRow(counter, parsed, item)], counter + 1, Some(name.value)))
  }

  /** The storename a fresh item gets at `position`, if the template
      formats. */
  function FreshName(parsed: Storenames.Parsed, position: int, item: Items.ItemData): Option<string>
  {
    var name := Storenames.BuildParsed(parsed, position, item.filename, item.extension, item.metadata);
    if name.Ok? then Some(name.value) else None
  }

  /** The row `query_insert_item` adds for a fresh item at `counter + 1`. */
  function InsertedRow(counter: int, parsed: Storenames.Parsed, item: Items.ItemData): Row
  {
    Row(counter + 1, item.url, Some(item.filename), Some(item.extension),
        FreshName(parsed, counter + 1, item), Some(item.hashed), Encoded(item.metadata))
  }

  /** Storing an unindexed URL appends one row at `counter + 1`, named from
      that position, and moves the counter up by exactly one. */
  lemma StoreInserts(rows: seq<Row>, counter: int, parsed: Storenames.Parsed, item: Items.ItemData, update: bool)
    requires forall i :: 0 <= i < |rows| ==> rows[i].url != item.url
    requires parsed.Ok?
    ensures var s := StoreRows(rows, counter, parsed, item, update);
            && s.Ok?
            && s.value.counter == counter + 1
            && s.value.rows == rows + [InsertedRow(counter, parsed, item)]
            && s.value.storename.Some?
            && s.value.storename == FreshName(parsed, counter + 1, item)
            && InsertedRow(counter, parsed, item).position == counter + 1
            && InsertedRow(counter, parsed, item).url == item.url
            && InsertedRow(counter, parsed, item).hashed == Some(item.hashed)
  {
  }

  /** Storing an indexed URL without `update` changes nothing and returns
      no storename. */
  lemma StoreIgnores(rows: seq<Row>, counter: int, parsed: Storenames.Parsed, item: Items.ItemData)
    requires exists i :: 0 <= i < |rows| && rows[i].url == item.url
    ensures StoreRows(rows, counter, parsed, item, false) == Ok(Stored(rows, counter, None))
  {
  }

  /** Storing an indexed URL with `update` keeps every position, the counter
      and every hash; only the rows of that URL change, and only in filename,
      extension, storename and metadata. */
  lemma StoreUpdatesInPlace(rows: seq<Row>, counter: int, parsed: Storenames.Parsed, item: Items.ItemData)
    requires exists i :: 0 <= i < |rows| && rows[i].url == item.url
    ensures var s := StoreRows(rows, counter, parsed, item, true);
            s.Ok? ==>
              && s.value.counter == counter
              && |s.value.rows| == |rows|
              && (forall i :: 0 <= i < |rows| ==>
                    s.value.rows[i].position == rows[i].position
                    && s.value.rows[i].url == rows[i].url
                    && s.value.rows[i].hashed == rows[i].hashed)
              && (forall i :: 0 <= i < |rows| && rows[i].url != item.url ==> s.value.rows[i] == rows[i])
              && s.value.storename.Some?
    ensures var p := FindUrl(rows, item.url).value;
            var n := Storenames.BuildParsed(parsed, p, item.filename, item.extension, item.metadata);
            var s := StoreRows(rows, counter, parsed, item, true);
            && (n.Err? ==> s == Err(n.error))
            && (n.Ok? ==>
                  && s.value.storename == Some(n.value)
                  && forall i :: 0 <= i < |rows| && rows[i].url == item.url ==>
                       s.value.rows[i] == rows[i].(filename := Some(item.filename), extension := Some(item.extension),
                                                   storename := Some(n.value), metadata := Encoded(item.metadata)))
  {
  }

  /** Storing keeps the rows ordered, under the counter, and each URL
      indexed once. */
  lemma StorePreserves(rows: seq<Row>, counter: int, parsed: Storenames.Parsed, item: Items.ItemData, update: bool)
    requires Increasing(rows) && Below(rows, counter)
    ensures var s := StoreRows(rows, counter, parsed, item, update);
            s.Ok? ==> Increasing(s.value.rows) && Below(s.value.rows, s.value.counter)
                      && (UniqueUrls(rows) ==> UniqueUrls(s.value.rows))
  {
    var s := StoreRows(rows, counter, parsed, item, update);
    if s.Ok? {
      if FindUrl(rows, item.url).Some? {
        SameKeys(rows, s.value.rows, counter);
      } else {
        AppendKeeps(rows, InsertedRow(counter, parsed, item), counter);
      }
    }
  }

  /** Rows with the positions and URLs of `rows` keep their order, bound
      and uniqueness. */
  lemma SameKeys(rows: seq<Row>, after: seq<Row>, counter: int)
    requires KeysKept(rows, after)
    ensures Increasing(rows) ==> Increasing(after)
    ensures Below(rows, counter) ==> Below(after, counter)
    ensures UniqueUrls(rows) ==> UniqueUrls(after)
  {
  }

  /** Appending a row at `counter + 1` keeps the rows ordered and under the
      moved counter, and a new URL keeps them unique. */
  lemma AppendKeeps(rows: seq<Row>, row: Row, counter: int)
    requires Increasing(rows) && Below(rows, counter) && row.position == counter + 1
    ensures Increasing(rows + [row]) && Below(rows + [row], counter + 1)
    ensures UniqueUrls(rows) && (forall i :: 0 <= i < |rows| ==> rows[i].url != row.url) ==> UniqueUrls(rows + [row])
  {
  }

  /** Storing a sequence of items, in order, stopping at the first error. */
  function StoreAll(rows: seq<Row>, counter: int, parsed: Storenames.Parsed, items: seq<Items.ItemData>,
                    update: bool): Result<Stored>
    decreases |items|
  {
    if items == [] then Ok(Stored(rows, counter, None))
    else match StoreRows(rows, counter, parsed, items[0], update)
      case Err(e) => Err(e)
      case Ok(s) => StoreAll(s.rows, s.counter, parsed, items[1..], update)
  }

  /** `f` applied to each item together with its position, counted from `counter`. */
  function Positioned<T, U>(counter: int, items: seq<T>, f: (int, T) -> U): (r: seq<U>)
    ensures |r| == |items|
    decreases |items|
  {
    if items == [] then [] else [f(counter, items[0])] + Positioned(counter + 1, items[1..], f)
  }

  /** The `k`-th item is at position `counter + k`. */
  lemma {:induction false} PositionedAt<T, U>(counter: int, items: seq<T>, f: (int, T) -> U, k: nat)
    requires k < |items|
    ensures Positioned(counter, items, f)[k] == f(counter + k, items[k])
    decreases k
  {
    if k > 0 {
      PositionedAt(counter + 1, items[1..], f, k - 1);
      assert items[1..][k - 1] == items[k];
    }
  }

  /** The rows fresh items are inserted as, from `counter + 1` on. */
  function InsertedRows(counter: int, parsed: Storenames.Parsed, items: seq<Items.ItemData>): (r: seq<Row>)
    ensures |r| == |items|
  {
    Positioned(counter, items, (c, item) => InsertedRow(c, parsed, item))
  }

  /** The `k`-th fresh item is inserted as the row at position `counter + k + 1`. */
  lemma InsertedRowsAt(counter: int, parsed: Storenames.Parsed, items: seq<Items.ItemData>, k: nat)
    requires k < |items|
    ensures InsertedRows(counter, parsed, items)[k] == InsertedRow(counter + k, parsed, items[k])
  {
    PositionedAt(counter, items, (c, item) => InsertedRow(c, parsed, item), k);
  }

  /** No two items share a URL. */
  predicate DistinctUrls(items: seq<Items.ItemData>)
  {
    forall i, j :: 0 <= i < j < |items| ==> items[i].url != items[j].url
  }

  /** No item's URL is indexed in `rows`. */
  predicate Unindexed(rows: seq<Row>, items: seq<Items.ItemData>)
  {
    forall i, k :: 0 <= i < |rows| && 0 <= k < |items| ==> rows[i].url != items[k].url
  }

  /** Once the first item is inserted, the rest are still unindexed. */
  lemma UnindexedTail(rows: seq<Row>, row: Row, items: seq<Items.ItemData>)
    requires items != [] && row.url == items[0].url
    requires DistinctUrls(items) && Unindexed(rows, items)
    ensures DistinctUrls(items[1..]) && Unindexed(rows + [row], items[1..])
  {
    var next := rows + [row];
    forall i, k | 0 <= i < |next| && 0 <= k < |items[1..]|
      ensures next[i].url != items[1..][k].url
    {
      assert items[1..][k] == items[k + 1];
      if i < |rows| {
        assert next[i] == rows[i];
      }
    }
  }

  /** The first fresh item's row comes first, the rest continue from the next position. */
  lemma InsertedRowsCons(rows: seq<Row>, counter: int, parsed: Storenames.Parsed, items: seq<Items.ItemData>)
    requires items != []
    ensures rows + [InsertedRow(counter, parsed, items[0])] + InsertedRows(counter + 1, parsed, items[1..])
            == rows + InsertedRows(counter, parsed, items)
  {
    var row := InsertedRow(counter, parsed, items[0]);
    var rest := InsertedRows(counter + 1, parsed, items[1..]);
    assert InsertedRows(counter, parsed, items) == [row] + rest;
    Strings.AppendAssociates(rows, [row], rest);
  }

  /** An unindexed first item is inserted, and the rest are stored after it. */
  lemma StoreAllStep(rows: seq<Row>, counter: int, parsed: Storenames.Parsed,
                     items: seq<Items.ItemData>, update: bool)
    requires parsed.Ok? && items != []
    requires forall i :: 0 <= i < |rows| ==> rows[i].url != items[0].url
    ensures StoreAll(rows, counter, parsed, items, update)
            == StoreAll(rows + [InsertedRow(counter, parsed, items[0])], counter + 1, parsed, items[1..], update)
  {
    StoreInserts(rows, counter, parsed, items[0], update);
  }

  /** One step of a run of fresh items: the first is inserted, the rest stay
      fresh, and the rows inserted for them follow its row. */
  lemma FreshStep(rows: seq<Row>, counter: int, parsed: Storenames.Parsed,
                  items: seq<Items.ItemData>, update: bool)
    requires parsed.Ok? && items != []
    requires DistinctUrls(items) && Unindexed(rows, items)
    ensures var row := InsertedRow(counter, parsed, items[0]);
            && StoreAll(rows, counter, parsed, items, update)
               == StoreAll(rows + [row], counter + 1, parsed, items[1..], update)
            && DistinctUrls(items[1..]) && Unindexed(rows + [row], items[1..])
            && rows + [row] + InsertedRows(counter + 1, parsed, items[1..]) == rows + InsertedRows(counter, parsed, items)
  {
    var row := InsertedRow(counter, parsed, items[0]);
    StoreAllStep(rows, counter, parsed, items, update);
    UnindexedTail(rows, row, items);
    InsertedRowsCons(rows, counter, parsed, items);
  }

  /** Fresh items with distinct URLs are stored, in order, at positions
      `counter+1 .. counter+n`, each named from its own position. */
  lemma {:induction false} StoreAllFresh(rows: seq<Row>, counter: int, parsed: Storenames.Parsed,
                                         items: seq<Items.ItemData>, update: bool)
    requires parsed.Ok?
    requires DistinctUrls(items) && Unindexed(rows, items)
    ensures StoreAll(rows, counter, parsed, items, update)
            == Ok(Stored(rows + InsertedRows(counter, parsed, items), counter + |items|, None))
    decreases |items|
  {
    if items != [] {
      FreshStep(rows, counter, parsed, items, update);
      StoreAllFresh(rows + [InsertedRow(counter, parsed, items[0])], counter + 1, parsed, items[1..], update);
    } else {
      assert rows + InsertedRows(counter, parsed, items) == rows;
    }
  }

  /** With the default template (which parses to `DefaultSegments`), the
      `k`-th of a run of fresh items is inserted at `counter + k + 1` and
      named "<position>.<extension>" unless its metadata overrides either
      key. Together with `StoreAllFresh`, this is where three fresh items
      stored into an empty index with extension "ext" get "1.ext", "2.ext"
      and "3.ext". */
  lemma DefaultNamesFollowPositions(counter: int, items: seq<Items.ItemData>, k: nat)
    requires k < |items|
    requires "position" !in items[k].metadata && "extension" !in items[k].metadata
    ensures var row := InsertedRows(counter, Ok(Storenames.DefaultSegments), items)[k];
            && row.position == counter + k + 1
            && row.url == items[k].url
            && row.storename == Some(Strings.IntToString(counter + k + 1) + "." + items[k].extension)
  {
    InsertedRowsAt(counter, Ok(Storenames.DefaultSegments), items, k);
    DefaultFreshName(counter + k + 1, items[k]);
  }

  lemma DefaultFreshName(position: int, item: Items.ItemData)
    requires "position" !in item.metadata && "extension" !in item.metadata
    ensures FreshName(Ok(Storenames.DefaultSegments), position, item)
            == Some(Strings.IntToString(position) + "." + item.extension)
  {
    Storenames.DefaultParsedName(position, item.filename, item.extension, item.metadata);
  }

  /** The directory items are written to: `root`, or "." when absent or
      empty. */
  function RootDir(root: Option<string>): string
  {
    if root.Some? && root.value != "" then root.value else "."
  }

  /** The payload write of `store` as written (index.py:390-394): the test
      `if item.has_tempfile:` reads the method without calling it, which is
      always true, so the item is always moved from its tempfile, and an item
      without one makes `shutil.move(None, ...)` raise a TypeError. */
  function WritePayloadAsWritten(files: map<string, Items.Bytes>, item: Items.ItemData,
                                 fullpath: string): Result<map<string, Items.Bytes>>
  {
    if item.tempfile.None? then
      Err(Builtin("TypeError", "rename: src should be string, bytes or os.PathLike, not NoneType"))
    else if item.tempfile.value in files then Ok(Disk.Moved(files, item.tempfile.value, fullpath))
    else Err(NotFound(item.tempfile.value))
  }

  /** The payload write as intended: move the tempfile when there is one,
      else write the content (empty bytes when there is none). */
  function WritePayload(files: map<string, Items.Bytes>, item: Items.ItemData,
                        fullpath: string): (r: Result<map<string, Items.Bytes>>)
    ensures item.tempfile.None? ==> r.Ok? && fullpath in r.value
    ensures item.tempfile.None? ==> r.value[fullpath] == (if item.content.Some? then item.content.value else [])
    ensures item.tempfile.None? ==> forall p :: p != fullpath ==> (p in r.value <==> p in files)
    ensures item.tempfile.Some? && item.tempfile.value in files ==>
              r.Ok? && fullpath in r.value && r.value[fullpath] == files[item.tempfile.value]
    ensures item.tempfile.Some? && item.tempfile.value !in files ==> r.Err?
  {
    if item.tempfile.Some? then
      if item.tempfile.value in files then Ok(Disk.Moved(files, item.tempfile.value, fullpath))
      else Err(NotFound(item.tempfile.value))
    else Ok(files[fullpath := if item.content.Some? then item.content.value else []])
  }

  /** An item holding only its content, like the ones the index test stores,
      cannot be written as the code stands, while the intended write puts
      its content at the storename; for items with a tempfile the two agree. */
  lemma TempfileGuard(files: map<string, Items.Bytes>, item: Items.ItemData, fullpath: string)
    ensures item.tempfile.None? ==> WritePayloadAsWritten(files, item, fullpath).Err?
    ensures item.tempfile.None? ==> WritePayload(files, item, fullpath).Ok?
    ensures item.tempfile.Some? ==> WritePayloadAsWritten(files, item, fullpath) == WritePayload(files, item, fullpath)
  {
  }

  /** The template `rename` uses: the given one unless absent or empty. */
  function RenameTemplate(given: Option<string>, current: string): string
  {
    if given.Some? && given.value != "" then given.value else current
  }

  /** The end state of a rename run: rows, files, and the error that
      stopped it. */
  datatype Renamed = Renamed(rows: seq<Row>, files: map<string, Items.Bytes>, failure: Option<Error>)

  /** One iteration of the rename loop (index.py:405-427) for the queried
      row `row`: the new storename from the row's own position, the update of
      the rows with that URL, then the move of the old file, skipped when the
      old file is missing. A row without a storename makes `os.path.join`
      raise after the update. */
  function RenameStep(rows: seq<Row>, files: map<string, Items.Bytes>, row: Row, parsed: Storenames.Parsed,
                      dir: string): Renamed
  {
    var item := RowItem(row);
    var name := Storenames.BuildParsed(parsed, row.position, item.filename, item.extension, item.metadata);
    if name.Err? then Renamed(rows, files, Some(name.error))
    else
      var updated := UpdateByUrl(rows, item.url, item.filename, item.extension, name.value, item.metadata);
      if item.storename.None? then
        Renamed(updated, files, Some(Builtin("TypeError", "expected str, bytes or os.PathLike object, not NoneType")))
      else
        var src := Disk.PathJoin(dir, item.storename.value);
        var dst := Disk.PathJoin(dir, name.value);
        Renamed(updated, if src in files then Disk.Moved(files, src, dst) else files, None)
  }

  /** The rename loop over the queried rows `queried`, from the first. */
  function RenameRun(rows: seq<Row>, files: map<string, Items.Bytes>, queried: seq<Row>,
                     parsed: Storenames.Parsed, dir: string): Renamed
    decreases |queried|
  {
    if queried == [] then Renamed(rows, files, None)
    else
      var step := RenameStep(rows, files, queried[0], parsed, dir);
      if step.failure.Some? then step
      else RenameRun(step.rows, step.files, queried[1..], parsed, dir)
  }

  /** The rename run is its first step followed by the run over the rest,
      unless that step fails. */
  lemma RunStep(rows: seq<Row>, files: map<string, Items.Bytes>, queried: seq<Row>,
                parsed: Storenames.Parsed, dir: string)
    requires queried != []
    ensures var step := RenameStep(rows, files, queried[0], parsed, dir);
            RenameRun(rows, files, queried, parsed, dir)
            == if step.failure.Some? then step else RenameRun(step.rows, step.files, queried[1..], parsed, dir)
  {
  }

  /** One rename step changes no position, URL or hash. */
  lemma StepKeepsKeys(rows: seq<Row>, files: map<string, Items.Bytes>, row: Row, parsed: Storenames.Parsed, dir: string)
    ensures KeysKept(rows, RenameStep(rows, files, row, parsed, dir).rows)
  {
  }

  lemma KeysKeptTransitive(a: seq<Row>, b: seq<Row>, c: seq<Row>)
    requires KeysKept(a, b) && KeysKept(b, c)
    ensures KeysKept(a, c)
  {
  }

  /** A rename run changes no position, URL or hash. */
  lemma {:induction false} RenameKeepsKeys(rows: seq<Row>, files: map<string, Items.Bytes>,
                                           queried: seq<Row>, parsed: Storenames.Parsed, dir: string)
    ensures KeysKept(rows, RenameRun(rows, files, queried, parsed, dir).rows)
    decreases |queried|
  {
    if queried != [] {
      StepKeepsKeys(rows, files, queried[0], parsed, dir);
      var step := RenameStep(rows, files, queried[0], parsed, dir);
      if step.failure.None? {
        RenameKeepsKeys(step.rows, step.files, queried[1..], parsed, dir);
        KeysKeptTransitive(rows, step.rows, RenameRun(step.rows, step.files, queried[1..], parsed, dir).rows);
      }
    }
  }

  /** The storename row `row` gets when renamed with `template`, if the
      template formats. */
  function NewStorename(row: Row, parsed: Storenames.Parsed): Option<string>
  {
    var item := RowItem(row);
    var name := Storenames.BuildParsed(parsed, row.position, item.filename, item.extension, item.metadata);
    if name.Ok? then Some(name.value) else None
  }

  /** When every row has a storename and the template is well formed, the
      rename runs over all rows without failing, whatever files are missing,
      and each row ends up with the storename built from its own position. */
  lemma RenameCompletes(rows: seq<Row>, files: map<string, Items.Bytes>, parsed: Storenames.Parsed, dir: string)
    requires UniqueUrls(rows)
    requires forall i :: 0 <= i < |rows| ==> rows[i].storename.Some?
    requires parsed.Ok?
    ensures var r := RenameRun(rows, files, rows, parsed, dir);
            && r.failure.None?
            && |r.rows| == |rows|
            && forall i :: 0 <= i < |rows| ==>
                 r.rows[i].position == rows[i].position
                 && r.rows[i].url == rows[i].url
                 && r.rows[i].storename == NewStorename(rows[i], parsed)
  {
    RenameFrom(rows, rows, files, parsed, dir, 0);
  }

  /** The rows after renaming the first `k` queried rows. */
  predicate RenamedUpTo(cur: seq<Row>, rows: seq<Row>, parsed: Storenames.Parsed, k: nat)
    requires k <= |rows|
  {
    && |cur| == |rows|
    && (forall i :: 0 <= i < |rows| ==> cur[i].position == rows[i].position && cur[i].url == rows[i].url)
    && (forall i :: 0 <= i < k ==> cur[i].storename == NewStorename(rows[i], parsed))
    && (forall i :: k <= i < |rows| ==> cur[i] == rows[i])
  }

  /** Renaming the `k`-th row, when the first `k` are done, succeeds and
      leaves the first `k + 1` done. */
  lemma RenameAdvances(cur: seq<Row>, rows: seq<Row>, files: map<string, Items.Bytes>,
                       parsed: Storenames.Parsed, dir: string, k: nat)
    requires k < |rows|
    requires UniqueUrls(rows)
    requires forall i :: 0 <= i < |rows| ==> rows[i].storename.Some?
    requires parsed.Ok?
    requires RenamedUpTo(cur, rows, parsed, k)
    ensures var step := RenameStep(cur, files, rows[k], parsed, dir);
            step.failure.None? && RenamedUpTo(step.rows, rows, parsed, k + 1)
  {
    var row := rows[k];
    var step := RenameStep(cur, files, row, parsed, dir);
    assert step.failure.None?;
    assert RenamedUpTo(step.rows, rows, parsed, k + 1) by {
      forall i | 0 <= i < |rows| && i != k
        ensures cur[i].url != row.url
      {
        assert cur[i].url == rows[i].url;
      }
    }
  }

  lemma {:induction false} RenameFrom(cur: seq<Row>, rows: seq<Row>, files: map<string, Items.Bytes>,
                                      parsed: Storenames.Parsed, dir: string, k: nat)
    requires k <= |rows|
    requires UniqueUrls(rows)
    requires forall i :: 0 <= i < |rows| ==> rows[i].storename.Some?
    requires parsed.Ok?
    requires RenamedUpTo(cur, rows, parsed, k)
    ensures var r := RenameRun(cur, files, rows[k..], parsed, dir);
            r.failure.None? && RenamedUpTo(r.rows, rows, parsed, |rows|)
    decreases |rows| - k
  {
    if k < |rows| {
      assert rows[k..][0] == rows[k] && rows[k..][1..] == rows[k + 1..];
      RunStep(cur, files, rows[k..], parsed, dir);
      RenameAdvances(cur, rows, files, parsed, dir, k);
      var step := RenameStep(cur, files, rows[k], parsed, dir);
      RenameFrom(step.rows, rows, step.files, parsed, dir, k + 1);
    } else {
      assert rows[k..] == [];
    }
  }

  /** The payload write of `store`: move the item's tempfile to `fullpath`,
      or write its content there (index.py:387-393). */
  method WriteFile(fs: Disk.FileSystem, item: Items.ItemData, fullpath: string) returns (err: Option<Error>)
    modifies fs`files
    ensures var w := WritePayload(old(fs.files), item, fullpath);
            && (w.Ok? ==> err.None? && fs.files == w.value)
            && (w.Err? ==> err == Some(w.error) && fs.files == old(fs.files))
  {
    if item.tempfile.Some? {
      var moved := fs.Move(item.tempfile.value, fullpath);
      err := if moved.Fail? then Some(moved.error) else None;
    } else {
      fs.Write(fullpath, if item.content.Some? then item.content.value else []);
      err := None;
    }
  }

  /** The file-system effect of a rename step whose old file is missing is
      none: the row is still updated and the run goes on. */
  lemma MissingFileSkipped(rows: seq<Row>, files: map<string, Items.Bytes>, row: Row,
                           parsed: Storenames.Parsed, dir: string)
    requires row.storename.Some? && Disk.PathJoin(dir, row.storename.value) !in files
    requires NewStorename(row, parsed).Some?
    ensures var s := RenameStep(rows, files, row, parsed, dir);
            s.failure.None? && s.files == files
  {
  }

  /** A rename step whose old file exists moves it from the old storename
      to the new one, under the same directory. */
  lemma RenameMovesFile(rows: seq<Row>, files: map<string, Items.Bytes>, row: Row,
                        parsed: Storenames.Parsed, dir: string)
    requires row.storename.Some? && Disk.PathJoin(dir, row.storename.value) in files
    requires NewStorename(row, parsed).Some?
    ensures var s := RenameStep(rows, files, row, parsed, dir);
            && s.failure.None?
            && s.files == Disk.Moved(files, Disk.PathJoin(dir, row.storename.value),
                                     Disk.PathJoin(dir, NewStorename(row, parsed).value))
  {
  }

  /** The schema step of `load` (index.py:178-188): the check, and when it
      fails the migration and a second check. `after` is the database as the
      file holds it afterwards, the migration's committed steps included. */
  method CheckSchema(db: Database, path: string) returns (after: Database, r: Outcome)
    requires WellFormed(db)
    ensures r.Pass? ==> ItemsTable in after.tables && Compatible(LiveColumns(after))
                        && Increasing(after.tables[ItemsTable].rows)
    ensures Compatible(LiveColumns(db)) ==> r.Pass? && after == db
    ensures LegacyTable in db.tables && ItemsTable !in db.tables
            && (var cols := db.tables[LegacyTable].columns; 1 <= |cols| <= |Reference| && cols == Reference[..|cols|]) ==>
              r.Pass? && after.tables == (db.tables - {LegacyTable})[ItemsTable := Table(Reference, db.tables[LegacyTable].rows)]
  {
    ghost var legacy := LegacyTable in db.tables && ItemsTable !in db.tables
                        && (var cols := db.tables[LegacyTable].columns;
                            1 <= |cols| <= |Reference| && cols == Reference[..|cols|]);
    if legacy {
      LegacyMigrates(db);
    }
    after := db;
    r := Validate(db, path);
    if r.Pass? {
      CompatibleIff(LiveColumns(db));
      return;
    }
    var failure;
    after, failure := Migrate(db, path);
    if failure.Some? {
      return after, Fail(failure.value);
    }
    r := Validate(after, path);
    if r.Pass? {
      CompatibleIff(LiveColumns(after));
      assert after.tables[ItemsTable].rows == db.tables[LegacyTable].rows;
    }
  }

  class Index {
    const path: string
    var tables: map<string, Table>
    var loaded: bool
    var position: int
    var template: string

    /** The rows of `bdlitems` on the open connection. */
    function Rows(): seq<Row>
      reads this
    {
      if ItemsTable in tables then tables[ItemsTable].rows else []
    }

    /** A loaded index: the table exists, its rows are in order and the
        counter is at or beyond every position. */
    predicate Ready()
      reads this
    {
      loaded && ItemsTable in tables && Increasing(Rows()) && Below(Rows(), position)
    }

    /** `Index(path)` (index.py:139-152): not connected, counter 0, default
        template. */
    constructor (path: string)
      ensures this.path == path && !loaded && tables == map[]
      ensures position == 0 && template == Storenames.DefaultTemplate
    {
      this.path := path;
      tables := map[];
      loaded := false;
      position := 0;
      template := Storenames.DefaultTemplate;
    }

    /** The `template` setter ignores `None` (index.py:158-161). */
    method SetTemplate(value: Option<string>)
      modifies this`template
      ensures value.Some? ==> template == value.value
      ensures value.None? ==> template == old(template)
    {
      if value.Some? {
        template := value.value;
      }
    }

    /** `create` (index.py:163-171): a database holding an empty `bdlitems`
        table of the reference schema, unless the file exists. */
    method Create(fs: Disk.FileSystem)
      modifies fs`databases
      ensures path in old(fs.databases) ==> fs.databases == old(fs.databases)
      ensures path !in old(fs.databases) ==>
                fs.databases == old(fs.databases)[path := Database(map[ItemsTable := Table(Reference, [])])]
    {
      if path !in fs.databases {
        fs.databases := fs.databases[path := Database(map[ItemsTable := Table(Reference, [])])];
      }
    }

    /** `load` (index.py:173-192): connect (creating an empty file when
        none exists), check the schema, migrate and check again when it is
        outdated, then seed the counter from the last row. */
    method Load(fs: Disk.FileSystem) returns (r: Outcome)
      requires path in fs.databases ==> WellFormed(fs.databases[path])
      modifies this`tables, this`loaded, this`position, fs`databases
      ensures r.Pass? ==> Ready() && Compatible(LiveColumns(Database(tables)))
      ensures r.Pass? ==> position == SeedCounter(Rows())
      ensures path in old(fs.databases) && Compatible(LiveColumns(old(fs.databases[path]))) ==>
                r.Pass? && tables == old(fs.databases[path]).tables && fs.databases == old(fs.databases)
      ensures path in old(fs.databases) && LegacyTable in old(fs.databases[path]).tables
              && ItemsTable !in old(fs.databases[path]).tables
              && (var cols := old(fs.databases[path]).tables[LegacyTable].columns;
                  1 <= |cols| <= |Reference| && cols == Reference[..|cols|]) ==>
                var legacy := old(fs.databases[path]).tables;
                && r.Pass? && Rows() == legacy[LegacyTable].rows
                && tables == (legacy - {LegacyTable})[ItemsTable := Table(Reference, legacy[LegacyTable].rows)]
                && fs.databases == old(fs.databases)[path := Database(tables)]
      ensures r.Fail? ==> !loaded && position == old(position)
    {
      // Connecting creates an empty database file when none exists.
      var db := if path in fs.databases then fs.databases[path] else Database(map[]);
      loaded := false;
      var after, checked := CheckSchema(db, path);
      fs.databases := fs.databases[path := after];
      tables := after.tables;
      assert Database(tables) == after;
      if checked.Fail? {
        return checked;
      }
      position := SeedCounter(Rows());
      SeedCounterIsMax(Rows());
      loaded := true;
      r := Pass;
    }

    /** `commit`: the open connection's tables are written to the file. */
    method Commit(fs: Disk.FileSystem)
      modifies fs`databases
      ensures loaded ==> fs.databases == old(fs.databases)[path := Database(tables)]
      ensures !loaded ==> fs.databases == old(fs.databases)
    {
      if loaded {
        fs.databases := fs.databases[path := Database(tables)];
      }
    }

    /** `has_item` (index.py:210-226): whether the URL is indexed, with its
        position, or (False, -1). */
    function HasItem(url: Items.Url): (r: (bool, int))
      reads this
      ensures r.0 <==> exists i :: 0 <= i < |Rows()| && Rows()[i].url == url
      ensures !r.0 ==> r.1 == -1
      ensures r.0 ==> exists i :: 0 <= i < |Rows()| && Rows()[i].url == url && Rows()[i].position == r.1
    {
      match FindUrl(Rows(), url)
      case Some(p) => (true, p)
      case None => (false, -1)
    }

    /** `count` (index.py:233-241). */
    function Count(): (n: nat)
      reads this
      ensures n == |Rows()|
    {
      |Rows()|
    }

    /** `get_all` (index.py:307-321). */
    function GetAll(): seq<(Option<Items.ItemData>, int)>
      reads this
    {
      Queried(Rows())
    }

    function GetFirst(): (Option<Items.ItemData>, int)
      reads this
    {
      First(Rows())
    }

    function GetLast(): (Option<Items.ItemData>, int)
      reads this
    {
      Last(Rows())
    }

    /** The database half of `store` (index.py:355-385): the row is
        inserted or updated and the counter moves as `StoreRows` says. */
    method StoreRow(item: Items.ItemData, update: bool) returns (s: Result<Stored>)
      requires Ready()
      modifies this`tables, this`position
      ensures Ready()
      ensures s == StoreRows(old(Rows()), old(position), Storenames.Parse(template), item, update)
      ensures s.Err? ==> Rows() == old(Rows()) && position == old(position)
      ensures s.Ok? ==> Rows() == s.value.rows && position == s.value.counter
    {
      var rows := Rows();
      s := StoreRows(rows, position, Storenames.Parse(template), item, update);
      StorePreserves(rows, position, Storenames.Parse(template), item, update);
      if s.Ok? {
        tables := tables[ItemsTable := tables[ItemsTable].(rows := s.value.rows)];
        position := s.value.counter;
      }
    }

    /** `store` (index.py:337-396), with the intended payload write. A
        `None` item fails on reading its URL before the guard. The table is
        changed before the payload is written, so a failed write leaves the
        row in place. */
    method Store(fs: Disk.FileSystem, item: Option<Items.ItemData>, root: Option<string>, update: bool)
      returns (r: Result<Option<string>>)
      requires Ready()
      modifies this`tables, this`position, fs`files
      ensures Ready()
      ensures item.None? ==> r.Err? && Rows() == old(Rows()) && position == old(position)
                             && fs.files == old(fs.files)
      ensures item.Some? ==>
                var s := StoreRows(old(Rows()), old(position), Storenames.Parse(template), item.value, update);
                && (s.Err? ==> r == Err(s.error) && Rows() == old(Rows()) && position == old(position)
                               && fs.files == old(fs.files))
                && (s.Ok? ==> Rows() == s.value.rows && position == s.value.counter)
                && (s.Ok? && s.value.storename.None? ==> r == Ok(None) && fs.files == old(fs.files))
                && (s.Ok? && s.value.storename.Some? ==>
                      var w := WritePayload(old(fs.files), item.value,
                                            Disk.PathJoin(RootDir(root), s.value.storename.value));
                      && (w.Ok? ==> r == Ok(s.value.storename) && fs.files == w.value)
                      && (w.Err? ==> r == Err(w.error) && fs.files == old(fs.files)))
    {
      if item.None? {
        return Err(Builtin("AttributeError", "'NoneType' object has no attribute 'url'"));
      }
      var it := item.value;
      var s := StoreRow(it, update);
      if s.Err? {
        return Err(s.error);
      }
      if s.value.storename.None? {
        return Ok(None);
      }
      var name := s.value.storename.value;
      var err := WriteFile(fs, it, Disk.PathJoin(RootDir(root), name));
      r := if err.Some? then Err(err.value) else Ok(Some(name));
    }

    /** `rename` (index.py:398-427): every queried row is renamed from its
        own position with the given template, or the current one when none
        or an empty one is given; an empty table yields the (None, 0) pair,
        whose `None` item fails in `build_storename`. */
    method Rename(fs: Disk.FileSystem, root: Option<string>, given: Option<string>) returns (r: Outcome)
      requires Ready()
      modifies this`tables, fs`files
      ensures Ready()
      ensures old(Rows()) == [] ==> r.Fail? && Rows() == old(Rows()) && fs.files == old(fs.files)
      ensures old(Rows()) != [] ==>
                var run := RenameRun(old(Rows()), old(fs.files), old(Rows()),
                                     Storenames.Parse(RenameTemplate(given, template)), RootDir(root));
                Rows() == run.rows && fs.files == run.files
                && (r.Pass? <==> run.failure.None?)
                && (r.Fail? ==> r.error == run.failure.value)
    {
      var parsed := Storenames.Parse(RenameTemplate(given, template));
      var queried := Rows();
      if queried == [] {
        return Fail(Builtin("AttributeError", "'NoneType' object has no attribute 'filename'"));
      }
      var dir := RootDir(root);
      var failure := RenameAll(fs, queried, parsed, dir);
      r := if failure.None? then Pass else Fail(failure.value);
      RenameKeepsKeys(queried, old(fs.files), queried, parsed, dir);
      SameKeys(queried, Rows(), position);
    }

    /** The loop of `rename`: each queried row in turn, up to the first one
        that fails (index.py:406-427). */
    method RenameAll(fs: Disk.FileSystem, queried: seq<Row>, parsed: Storenames.Parsed, dir: string)
      returns (failure: Option<Error>)
      requires ItemsTable in tables
      modifies this`tables, fs`files
      ensures ItemsTable in tables
      ensures Renamed(Rows(), fs.files, failure) == RenameRun(old(Rows()), old(fs.files), queried, parsed, dir)
    {
      ghost var run := RenameRun(Rows(), fs.files, queried, parsed, dir);
      var i := 0;
      failure := None;
      while i < |queried| && failure.None?
        invariant 0 <= i <= |queried|
        invariant ItemsTable in tables
        invariant failure.None? ==> run == RenameRun(Rows(), fs.files, queried[i..], parsed, dir)
        invariant failure.Some? ==> run == Renamed(Rows(), fs.files, failure)
        decreases |queried| - i, if failure.None? then 1 else 0
      {
        assert queried[i..][0] == queried[i] && queried[i..][1..] == queried[i + 1..];
        RunStep(Rows(), fs.files, queried[i..], parsed, dir);
        failure := RenameOne(fs, queried[i], parsed, dir);
        if failure.None? {
          i := i + 1;
        }
      }
      if failure.None? {
        assert queried[i..] == [];
      }
    }

    /** One iteration of the `rename` loop on the open table and the disk. */
    method RenameOne(fs: Disk.FileSystem, row: Row, parsed: Storenames.Parsed, dir: string)
      returns (failure: Option<Error>)
      requires ItemsTable in tables
      modifies this`tables, fs`files
      ensures ItemsTable in tables
      ensures RenameStep(old(Rows()), old(fs.files), row, parsed, dir) == Renamed(Rows(), fs.files, failure)
    {
      var item := RowItem(row);
      var built := Storenames.BuildParsed(parsed, row.position, item.filename, item.extension, item.metadata);
      if built.Err? {
        return Some(built.error);
      }
      var name := built.value;
      var cur := UpdateByUrl(Rows(), item.url, item.filename, item.extension, name, item.metadata);
      tables := tables[ItemsTable := tables[ItemsTable].(rows := cur)];
      if item.storename.None? {
        return Some(Builtin("TypeError", "expected str, bytes or os.PathLike object, not NoneType"));
      }
      var src := Disk.PathJoin(dir, item.storename.value);
      var moved := fs.Move(src, Disk.PathJoin(dir, name));
      failure := None;
    }
  }
}
