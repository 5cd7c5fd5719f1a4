/**
 * The resumable bulk upload of ZIP-code boundaries (upload_zip_boundaries in upload_zips.py).
 * The table is a map from ZIP code to stored geometry text. A run reads the codes already
 * stored, prepares a batch of the rows not yet stored (skipping rows whose geometry cannot be
 * serialised), and inserts the batch in chunks of 1000 with conflict-ignoring inserts, committing
 * after each chunk. A failed insert rolls back the open chunk; chunks committed before it stay.
 * The GeoJSON serialiser and the database's acceptance of a row enter as function parameters.
 */
module Upload {
  import opened Wrappers

  /** One record of the shapefile: its ZCTA5CE20 code and its geometry. */
  datatype Row<Shape> = Row(zcta: string, shape: Shape)

  /** A prepared row: the stripped code and the geometry as GeoJSON text. */
  type Prepared = (string, string)

  const BATCH_SIZE: nat := 1000

  // ---------------------------------------------------------------------------
  // Stored rows and conflict-ignoring inserts
  // ---------------------------------------------------------------------------

  /** `INSERT ... ON CONFLICT (zcta5ce20) DO NOTHING`: a code already present keeps its row. */
  function InsertIgnoring(table: map<string, string>, row: Prepared): map<string, string>
  {
    if row.0 in table then table else table[row.0 := row.1]
  }

  /** The codes of a sequence of prepared rows. */
  function Codes(rows: seq<Prepared>): set<string>
  {
    if |rows| == 0 then {} else Codes(rows[..|rows| - 1]) + {rows[|rows| - 1].0}
  }

  lemma {:induction false} CodesMembership(rows: seq<Prepared>, p: Prepared)
    requires p in rows
    ensures p.0 in Codes(rows)
    decreases |rows|
  {
    if p != rows[|rows| - 1] {
      var init := rows[..|rows| - 1];
      assert rows == init + [rows[|rows| - 1]];
      CodesMembership(init, p);
    }
  }

  /** The table after inserting the rows one after the other: it holds the old codes and the new ones. */
  function InsertAll(table: map<string, string>, rows: seq<Prepared>): (r: map<string, string>)
    ensures r.Keys == table.Keys + Codes(rows)
  {
    if |rows| == 0 then table
    else InsertIgnoring(InsertAll(table, rows[..|rows| - 1]), rows[|rows| - 1])
  }

  /** Rows already stored are never changed by later inserts. */
  lemma {:induction false} InsertAllKeepsStored(table: map<string, string>, rows: seq<Prepared>, zip: string)
    requires zip in table
    ensures zip in InsertAll(table, rows) && InsertAll(table, rows)[zip] == table[zip]
    decreases |rows|
  {
    if |rows| > 0 {
      InsertAllKeepsStored(table, rows[..|rows| - 1], zip);
    }
  }

  lemma {:induction false} InsertAllAppend(table: map<string, string>, a: seq<Prepared>, b: seq<Prepared>)
    ensures InsertAll(table, a + b) == InsertAll(InsertAll(table, a), b)
    decreases |b|
  {
    if |b| == 0 {
      assert a + b == a;
    } else {
      assert (a + b)[..|a + b| - 1] == a + b[..|b| - 1];
      InsertAllAppend(table, a, b[..|b| - 1]);
    }
  }

  /** Inserting rows whose codes are all stored already changes nothing. */
  lemma {:induction false} InsertAllPresent(table: map<string, string>, rows: seq<Prepared>)
    requires forall j :: 0 <= j < |rows| ==> rows[j].0 in table
    ensures InsertAll(table, rows) == table
    decreases |rows|
  {
    if |rows| > 0 {
      InsertAllPresent(table, rows[..|rows| - 1]);
    }
  }

  /** Re-running the same inserts is harmless: the second pass conflicts on every row. */
  lemma InsertAllIdempotent(table: map<string, string>, rows: seq<Prepared>)
    ensures InsertAll(InsertAll(table, rows), rows) == InsertAll(table, rows)
  {
    forall j | 0 <= j < |rows|
      ensures rows[j].0 in InsertAll(table, rows)
    {
      CodesMembership(rows, rows[j]);
    }
    InsertAllPresent(InsertAll(table, rows), rows);
  }

  // ---------------------------------------------------------------------------
  // The connection
  // ---------------------------------------------------------------------------

  /**
   * A database connection. `committed` is the table as stored; `pending` is the table as the
   * open transaction sees it, with its uncommitted inserts.
   */
  class Connection {
    var committed: map<string, string>
    var pending: map<string, string>
    var closed: bool

    constructor(stored: map<string, string>)
      ensures committed == stored && pending == stored && !closed
    {
      committed := stored;
      pending := stored;
      closed := false;
    }

    /** One conflict-ignoring insert inside the open transaction. */
    method Insert(row: Prepared)
      requires !closed
      modifies this
      ensures pending == InsertIgnoring(old(pending), row)
      ensures committed == old(committed) && closed == old(closed)
    {
      pending := InsertIgnoring(pending, row);
    }

    method Commit()
      requires !closed
      modifies this
      ensures committed == old(pending) && pending == old(pending) && !closed
    {
      committed := pending;
    }

    method Rollback()
      requires !closed
      modifies this
      ensures pending == old(committed) && committed == old(committed) && !closed
    {
      pending := committed;
    }

    /** Closing discards whatever the open transaction had not committed. */
    method Close()
      modifies this
      ensures closed && committed == old(committed) && pending == old(committed)
    {
      pending := committed;
      closed := true;
    }

    /** `SELECT COUNT(*)`, then the stored codes when there are any. */
    method ExistingZips() returns (existing: set<string>)
      requires !closed
      ensures existing == committed.Keys
    {
      if |committed.Keys| > 0 {
        existing := committed.Keys;
      } else {
        existing := {};
      }
    }
  }

  // ---------------------------------------------------------------------------
  // Preparing the batch
  // ---------------------------------------------------------------------------

  /** The characters Python's `str.isspace` accepts, which `str.strip()` removes. */
  predicate IsSpace(c: char)
  {
    ('\t' <= c <= '\r') || ('\U{1C}' <= c <= ' ') || c == '\U{85}' || c == '\U{A0}' || c == '\U{1680}'
    || ('\U{2000}' <= c <= '\U{200A}') || c == '\U{2028}' || c == '\U{2029}' || c == '\U{202F}'
    || c == '\U{205F}' || c == '\U{3000}'
  }

  /** `str.strip()`: leading and trailing whitespace removed. */
  function Strip(s: string): (r: string)
    ensures |r| <= |s|
    decreases |s|
  {
    if |s| > 0 && IsSpace(s[0]) then Strip(s[1..])
    else if |s| > 0 && IsSpace(s[|s| - 1]) then Strip(s[..|s| - 1])
    else s
  }

  /** `s[i..j]` is `s` with only whitespace around it. */
  ghost predicate SpaceOutside(s: string, i: int, j: int)
  {
    0 <= i <= j <= |s|
    && (forall k :: 0 <= k < i ==> IsSpace(s[k]))
    && (forall k :: j <= k < |s| ==> IsSpace(s[k]))
  }

  /** The stripped code is the input with only whitespace cut from either end. */
  lemma {:induction false} StripIsInfix(s: string)
    ensures exists i, j :: SpaceOutside(s, i, j) && Strip(s) == s[i..j]
    decreases |s|
  {
    if |s| > 0 && IsSpace(s[0]) {
      var tail := s[1..];
      StripIsInfix(tail);
      var i, j :| SpaceOutside(tail, i, j) && Strip(tail) == tail[i..j];
      assert tail[i..j] == s[i + 1..j + 1];
      assert forall k :: 1 <= k < i + 1 ==> s[k] == tail[k - 1];
      assert SpaceOutside(s, i + 1, j + 1);
    } else if |s| > 0 && IsSpace(s[|s| - 1]) {
      var init := s[..|s| - 1];
      StripIsInfix(init);
      var i, j :| SpaceOutside(init, i, j) && Strip(init) == init[i..j];
      assert init[i..j] == s[i..j];
      assert SpaceOutside(s, i, j);
    } else {
      assert Strip(s) == s[0..|s|];
      assert SpaceOutside(s, 0, |s|);
    }
  }

  /** A non-empty stripped code starts and ends with a character that is not whitespace. */
  lemma {:induction false} StripEnds(s: string)
    ensures |Strip(s)| > 0 ==> !IsSpace(Strip(s)[0]) && !IsSpace(Strip(s)[|Strip(s)| - 1])
    decreases |s|
  {
    if |s| > 0 && IsSpace(s[0]) {
      StripEnds(s[1..]);
    } else if |s| > 0 && IsSpace(s[|s| - 1]) {
      StripEnds(s[..|s| - 1]);
    }
  }

  /** The fate of one row in the preparation loop. */
  datatype Fate = Skipped | Failed | Appended(row: Prepared)

  function FateOf<Shape>(row: Row<Shape>, existing: set<string>, toJson: Shape -> Option<string>): Fate
  {
    var zip := Strip(row.zcta);
    if zip in existing then Skipped
    else match toJson(row.shape)
      case None => Failed
      case Some(geom) => Appended((zip, geom))
  }

  /** The rows the preparation loop appends to the batch, in input order. */
  function Batch<Shape>(rows: seq<Row<Shape>>, existing: set<string>, toJson: Shape -> Option<string>)
    : (r: seq<Prepared>)
    ensures |r| <= |rows|
  {
    if |rows| == 0 then []
    else
      Batch(rows[..|rows| - 1], existing, toJson)
      + match FateOf(rows[|rows| - 1], existing, toJson)
        case Appended(p) => [p]
        case _ => []
  }

  /** The number of rows with the given fate. */
  function CountFate<Shape>(rows: seq<Row<Shape>>, existing: set<string>, toJson: Shape -> Option<string>,
                            fate: Fate): nat
  {
    if |rows| == 0 then 0
    else
      CountFate(rows[..|rows| - 1], existing, toJson, fate)
      + if FateOf(rows[|rows| - 1], existing, toJson) == fate then 1 else 0
  }

  /** The preparation loop over the shapefile rows. */
  method PrepareBatch<Shape>(rows: seq<Row<Shape>>, existing: set<string>, toJson: Shape -> Option<string>)
    returns (batch: seq<Prepared>, skipped: nat)
    ensures batch == Batch(rows, existing, toJson)
    ensures skipped == CountFate(rows, existing, toJson, Skipped)
  {
    batch := [];
    skipped := 0;
    for i := 0 to |rows|
      invariant batch == Batch(rows[..i], existing, toJson)
      invariant skipped == CountFate(rows[..i], existing, toJson, Skipped)
    {
      assert rows[..i + 1][..i] == rows[..i];
      var zip := Strip(rows[i].zcta);
      if zip in existing {
        skipped := skipped + 1;
      } else {
        var geom := toJson(rows[i].shape);
        if geom.Some? {
          batch := batch + [(zip, geom.value)];
        }
      }
    }
    assert rows[..|rows|] == rows;
  }

  /** Every row is skipped, fails to serialise, or lands in the batch; none of the batch is stored. */
  lemma {:induction false} BatchAccounting<Shape>(rows: seq<Row<Shape>>, existing: set<string>,
                                                  toJson: Shape -> Option<string>)
    ensures CountFate(rows, existing, toJson, Skipped) + CountFate(rows, existing, toJson, Failed)
            + |Batch(rows, existing, toJson)| == |rows|
    ensures forall j :: 0 <= j < |Batch(rows, existing, toJson)| ==> Batch(rows, existing, toJson)[j].0 !in existing
    decreases |rows|
  {
    if |rows| > 0 {
      BatchAccounting(rows[..|rows| - 1], existing, toJson);
    }
  }

  /** A row is in the batch exactly when its stripped code is new and its geometry serialises. */
  lemma {:induction false} BatchMembership<Shape>(rows: seq<Row<Shape>>, existing: set<string>,
                                                  toJson: Shape -> Option<string>, p: Prepared)
    ensures p in Batch(rows, existing, toJson) <==>
              exists i :: 0 <= i < |rows| && FateOf(rows[i], existing, toJson) == Appended(p)
    decreases |rows|
  {
    if |rows| > 0 {
      var init := rows[..|rows| - 1];
      BatchMembership(init, existing, toJson, p);
      BatchLastRow(rows, existing, toJson, p);
      if exists i :: 0 <= i < |rows| && FateOf(rows[i], existing, toJson) == Appended(p) {
        var i :| 0 <= i < |rows| && FateOf(rows[i], existing, toJson) == Appended(p);
        if i < |init| {
          assert init[i] == rows[i];
        }
      }
      if exists i :: 0 <= i < |init| && FateOf(init[i], existing, toJson) == Appended(p) {
        var i :| 0 <= i < |init| && FateOf(init[i], existing, toJson) == Appended(p);
        assert rows[i] == init[i];
      }
    }
  }

  /** The last row adds its prepared pair to the batch, if it has one. */
  lemma BatchLastRow<Shape>(rows: seq<Row<Shape>>, existing: set<string>, toJson: Shape -> Option<string>,
                            p: Prepared)
    requires |rows| > 0
    ensures p in Batch(rows, existing, toJson) <==>
              p in Batch(rows[..|rows| - 1], existing, toJson) || FateOf(rows[|rows| - 1], existing, toJson) == Appended(p)
  {
  }

  /** When every row's code is stored already, the batch is empty and nothing is inserted. */
  lemma {:induction false} AllStoredMeansEmptyBatch<Shape>(rows: seq<Row<Shape>>, existing: set<string>,
                                                           toJson: Shape -> Option<string>)
    requires forall i :: 0 <= i < |rows| ==> Strip(rows[i].zcta) in existing
    ensures Batch(rows, existing, toJson) == []
    ensures CountFate(rows, existing, toJson, Skipped) == |rows|
    decreases |rows|
  {
    if |rows| > 0 {
      AllStoredMeansEmptyBatch(rows[..|rows| - 1], existing, toJson);
    }
  }

  // ---------------------------------------------------------------------------
  // The chunked upload
  // ---------------------------------------------------------------------------

  datatype Outcome = NothingToUpload | Uploaded(count: nat) | Aborted(committedRows: nat)

  function Min(a: int, b: int): int { if a < b then a else b }

  /**
   * The inner loop over one chunk: insert its rows in order inside the open transaction. On the
   * first row the database rejects, the transaction is rolled back and `ok` is false.
   */
  method InsertChunk(conn: Connection, chunk: seq<Prepared>, accepts: Prepared -> bool) returns (ok: bool)
    requires !conn.closed && conn.pending == conn.committed
    modifies conn
    ensures !conn.closed && conn.committed == old(conn.committed)
    ensures ok <==> forall j :: 0 <= j < |chunk| ==> accepts(chunk[j])
    ensures ok ==> conn.pending == InsertAll(old(conn.committed), chunk)
    ensures !ok ==> conn.pending == old(conn.committed)
  {
    var j := 0;
    while j < |chunk|
      invariant 0 <= j <= |chunk|
      invariant !conn.closed && conn.committed == old(conn.committed)
      invariant conn.pending == InsertAll(conn.committed, chunk[..j])
      invariant forall k :: 0 <= k < j ==> accepts(chunk[k])
    {
      if !accepts(chunk[j]) {
        conn.Rollback();
        return false;
      }
      conn.Insert(chunk[j]);
      assert chunk[..j + 1][..j] == chunk[..j];
      j := j + 1;
    }
    assert chunk[..|chunk|] == chunk;
    return true;
  }

  /**
   * The chunk loop: slices of at most 1000 rows, each inserted and then committed. A rejected
   * row rolls back its slice and ends the upload; the slices before it stay committed.
   */
  method UploadChunks(conn: Connection, batch: seq<Prepared>, accepts: Prepared -> bool)
    returns (outcome: Outcome, ghost chunks: seq<seq<Prepared>>)
    requires !conn.closed && conn.pending == conn.committed
    modifies conn
    ensures !conn.closed && conn.pending == conn.committed
    ensures forall c :: c in chunks ==> 0 < |c| <= BATCH_SIZE
    ensures outcome.Uploaded? || outcome.Aborted?
    ensures outcome.Uploaded? ==> outcome.count == |batch| && Flatten(chunks) == batch
    ensures outcome.Uploaded? ==> conn.committed == InsertAll(old(conn.committed), batch)
    ensures outcome.Aborted? ==> outcome.committedRows < |batch| && outcome.committedRows == BATCH_SIZE * |chunks|
    ensures outcome.Aborted? ==> Flatten(chunks) == batch[..outcome.committedRows]
    ensures outcome.Aborted? ==> conn.committed == InsertAll(old(conn.committed), batch[..outcome.committedRows])
    ensures outcome.Uploaded? <==> forall j :: 0 <= j < |batch| ==> accepts(batch[j])
    ensures outcome.Aborted? ==> forall j :: 0 <= j < outcome.committedRows ==> accepts(batch[j])
    ensures outcome.Aborted? ==> RejectedIn(batch, accepts, outcome.committedRows, Min(outcome.committedRows + BATCH_SIZE, |batch|))
  {
    ghost var start := conn.committed;
    var i := 0;
    chunks := [];
    while i < |batch|
      invariant 0 <= i <= |batch| && (i == BATCH_SIZE * |chunks| || i == |batch|)
      invariant !conn.closed && conn.pending == conn.committed
      invariant conn.committed == InsertAll(start, batch[..i])
      invariant Flatten(chunks) == batch[..i]
      invariant forall c :: c in chunks ==> 0 < |c| <= BATCH_SIZE
      invariant forall k :: 0 <= k < i ==> accepts(batch[k])
      decreases |batch| - i
    {
      var end := Min(i + BATCH_SIZE, |batch|);
      var chunk := batch[i..end];
      var ok := InsertChunk(conn, chunk, accepts);
      SliceAccepted(batch, accepts, i, end);
      if !ok {
        return Aborted(i), chunks;
      }
      conn.Commit();
      ChunkStep(start, batch, i, end, chunks);
      chunks := chunks + [chunk];
      i := end;
    }
    assert batch[..i] == batch;
    outcome := Uploaded(i);
  }

  /** Some row of `batch[from..to]` is one the database rejects. */
  ghost predicate RejectedIn(batch: seq<Prepared>, accepts: Prepared -> bool, from: int, to: int)
  {
    exists j :: 0 <= from <= j < to <= |batch| && !accepts(batch[j])
  }

  /** The slice `batch[i..end]` is accepted row by row exactly when it holds no rejected row. */
  lemma SliceAccepted(batch: seq<Prepared>, accepts: Prepared -> bool, i: nat, end: nat)
    requires i <= end <= |batch|
    ensures (forall j :: 0 <= j < |batch[i..end]| ==> accepts(batch[i..end][j]))
            <==> (forall k :: i <= k < end ==> accepts(batch[k]))
    ensures !(forall k :: i <= k < end ==> accepts(batch[k])) ==> RejectedIn(batch, accepts, i, end)
  {
    var chunk := batch[i..end];
    assert forall k :: i <= k < end ==> batch[k] == chunk[k - i];
  }

  /** Committing one more slice extends both the stored rows and the flattened slices by it. */
  lemma ChunkStep(start: map<string, string>, batch: seq<Prepared>, i: nat, end: nat, chunks: seq<seq<Prepared>>)
    requires i <= end <= |batch|
    ensures InsertAll(start, batch[..end]) == InsertAll(InsertAll(start, batch[..i]), batch[i..end])
    ensures Flatten(chunks) == batch[..i] ==> Flatten(chunks + [batch[i..end]]) == batch[..end]
  {
    SliceJoin(batch, i, end);
    InsertAllAppend(start, batch[..i], batch[i..end]);
    FlattenAppend(chunks, batch[i..end]);
  }

  lemma SliceJoin(batch: seq<Prepared>, i: nat, end: nat)
    requires i <= end <= |batch|
    ensures batch[..i] + batch[i..end] == batch[..end]
  {
  }

  function Flatten(chunks: seq<seq<Prepared>>): seq<Prepared>
  {
    if |chunks| == 0 then [] else Flatten(chunks[..|chunks| - 1]) + chunks[|chunks| - 1]
  }

  lemma FlattenAppend(chunks: seq<seq<Prepared>>, c: seq<Prepared>)
    ensures Flatten(chunks + [c]) == Flatten(chunks) + c
  {
    assert (chunks + [c])[..|chunks|] == chunks;
  }

  /**
   * upload_zip_boundaries after the connection is made: read the stored codes, prepare the
   * batch, stop early when it is empty, otherwise upload in chunks; the connection is closed
   * on every path.
   */
  method UploadZipBoundaries<Shape>(conn: Connection, rows: seq<Row<Shape>>, toJson: Shape -> Option<string>,
                                    accepts: Prepared -> bool)
    returns (outcome: Outcome)
    requires !conn.closed && conn.pending == conn.committed
    modifies conn
    ensures conn.closed
    ensures outcome == NothingToUpload <==> |Batch(rows, old(conn.committed).Keys, toJson)| == 0
    ensures outcome == NothingToUpload ==> conn.committed == old(conn.committed)
    ensures outcome.Uploaded? ==> outcome.count == |Batch(rows, old(conn.committed).Keys, toJson)|
    ensures outcome.Uploaded? ==> conn.committed == InsertAll(old(conn.committed), Batch(rows, old(conn.committed).Keys, toJson))
    ensures outcome.Aborted? ==> outcome.committedRows < |Batch(rows, old(conn.committed).Keys, toJson)|
    ensures outcome.Aborted? ==>
              conn.committed == InsertAll(old(conn.committed), Batch(rows, old(conn.committed).Keys, toJson)[..outcome.committedRows])
    ensures outcome.Uploaded? <==>
              var batch := Batch(rows, old(conn.committed).Keys, toJson);
              |batch| > 0 && forall j :: 0 <= j < |batch| ==> accepts(batch[j])
    ensures outcome.Aborted? ==>
              var batch := Batch(rows, old(conn.committed).Keys, toJson);
              (forall j :: 0 <= j < outcome.committedRows ==> accepts(batch[j]))
              && RejectedIn(batch, accepts, outcome.committedRows, Min(outcome.committedRows + BATCH_SIZE, |batch|))
  {
    var existing := conn.ExistingZips();
    var batch, skipped := PrepareBatch(rows, existing, toJson);
    if |batch| == 0 {
      conn.Close();
      return NothingToUpload;
    }
    ghost var chunks;
    outcome, chunks := UploadChunks(conn, batch, accepts);
    conn.Close();
  }

  /**
   * Resuming is idempotent: after a successful run, a second run over the same rows finds
   * nothing to upload, because every row it would append is stored already.
   */
  lemma SecondRunUploadsNothing<Shape>(rows: seq<Row<Shape>>, table: map<string, string>,
                                       toJson: Shape -> Option<string>)
    ensures Batch(rows, InsertAll(table, Batch(rows, table.Keys, toJson)).Keys, toJson) == []
  {
    var first := Batch(rows, table.Keys, toJson);
    var after := InsertAll(table, first).Keys;
    var second := Batch(rows, after, toJson);
    if |second| > 0 {
      BatchMembership(rows, after, toJson, second[0]);
      var i :| 0 <= i < |rows| && FateOf(rows[i], after, toJson) == Appended(second[0]);
      var zip := Strip(rows[i].zcta);
      assert zip !in after && zip !in table.Keys;
      var p := (zip, toJson(rows[i].shape).value);
      assert FateOf(rows[i], table.Keys, toJson) == Appended(p);
      BatchMembership(rows, table.Keys, toJson, p);
      CodesMembership(first, p);
      assert false;
    }
  }
}
