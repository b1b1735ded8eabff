/**
 Mint write-back on the `meter_readings` table. A row carries the canonical serial and the reading's
 epoch milliseconds; canonicalization of a raw serial is a parameter. A statement that fails is a
 step that does not happen, and so is an insert whose meter has no owner.
 */
module ReadingRows {
  import opened Wrappers
  import opened Windows

  datatype Status = Pending | Confirmed | NoSurplus

  /** `on_chain_confirmed_at`, `on_chain_slot` and `mint_tx_signature`, set together with `minted`. */
  datatype Stamp = Stamp(at: Instant, slot: int, signature: string)

  datatype Row = Row(serial: string, ms: int, mint: Option<Stamp>, status: Status)

  datatype Mark =
    | MarkMinted(serial: string, windowMs: int, stamp: Stamp)
    | MarkNoSurplus(serial: string, windowMs: int)

  datatype Step = Insert(serial: string, at: Instant) | Update(mark: Mark)

  type Canon = string -> string

  predicate Selects(canon: Canon, m: Mark, r: Row) {
    canon(m.serial) == r.serial && InWriteBackRange(r.ms, m.windowMs)
  }

  /** The WHERE clause of the statement. */
  predicate Affects(canon: Canon, m: Mark, r: Row) {
    Selects(canon, m, r) && r.mint.None? && (m.MarkNoSurplus? ==> r.status == Pending)
  }

  function Marked(canon: Canon, m: Mark, r: Row): Row {
    if !Affects(canon, m, r) then r
    else if m.MarkMinted? then r.(mint := Some(m.stamp), status := Confirmed)
    else r.(status := NoSurplus)
  }

  function MarkAll(canon: Canon, m: Mark, rows: seq<Row>): seq<Row> {
    seq(|rows|, i requires 0 <= i < |rows| => Marked(canon, m, rows[i]))
  }

  function NewRow(canon: Canon, serial: string, at: Instant): Row {
    Row(canon(serial), Millis(at), None, Pending)
  }

  function Run(canon: Canon, steps: seq<Step>): seq<Row> {
    if steps == [] then []
    else
      var before, last := Run(canon, steps[..|steps| - 1]), steps[|steps| - 1];
      match last
      case Insert(serial, at) => before + [NewRow(canon, serial, at)]
      case Update(m) => MarkAll(canon, m, before)
  }

  // ----- one row through a whole run -----

  /** The position of the row that step k inserts. */
  function Place(steps: seq<Step>, k: nat): nat
    requires k <= |steps|
  {
    if k == 0 then 0 else Place(steps, k - 1) + if steps[k - 1].Insert? then 1 else 0
  }

  lemma {:induction false} PlaceIsLength(canon: Canon, steps: seq<Step>, k: nat)
    requires k <= |steps|
    ensures |Run(canon, steps[..k])| == Place(steps, k)
  {
    if k > 0 {
      PlaceIsLength(canon, steps, k - 1);
      assert steps[..k][..k - 1] == steps[..k - 1];
    }
  }

  /** Step j is a mint mark of the reading inserted at step k. */
  predicate Mints(canon: Canon, steps: seq<Step>, k: nat, j: int) {
    && k < j < |steps| && steps[k].Insert? && steps[j].Update? && steps[j].mark.MarkMinted?
    && Selects(canon, steps[j].mark, NewRow(canon, steps[k].serial, steps[k].at))
  }

  predicate Dismisses(canon: Canon, steps: seq<Step>, k: nat, j: int) {
    && k < j < |steps| && steps[k].Insert? && steps[j].Update? && steps[j].mark.MarkNoSurplus?
    && Selects(canon, steps[j].mark, NewRow(canon, steps[k].serial, steps[k].at))
  }

  /** The row of step k after the first n steps. */
  ghost function RowAt(canon: Canon, steps: seq<Step>, k: nat, n: nat): Row
    requires k < n <= |steps| && steps[k].Insert?
  {
    PlaceIsLength(canon, steps, k);
    PlaceMonotone(steps, k + 1, n);
    PlaceIsLength(canon, steps, n);
    Run(canon, steps[..n])[Place(steps, k)]
  }

  lemma {:induction false} PlaceMonotone(steps: seq<Step>, k: nat, n: nat)
    requires k <= n <= |steps|
    ensures Place(steps, k) <= Place(steps, n)
    decreases n
  {
    if k < n { PlaceMonotone(steps, k, n - 1); }
  }

  lemma RowInserted(canon: Canon, steps: seq<Step>, k: nat)
    requires k < |steps| && steps[k].Insert?
    ensures RowAt(canon, steps, k, k + 1) == NewRow(canon, steps[k].serial, steps[k].at)
  {
    PlaceIsLength(canon, steps, k);
    assert steps[..k + 1][..k] == steps[..k];
  }

  lemma RowStep(canon: Canon, steps: seq<Step>, k: nat, n: nat)
    requires k < n < |steps| && steps[k].Insert?
    ensures var before := RowAt(canon, steps, k, n);
            RowAt(canon, steps, k, n + 1)
            == if steps[n].Update? then Marked(canon, steps[n].mark, before) else before
  {
    PlaceIsLength(canon, steps, n);
    PlaceMonotone(steps, k + 1, n);
    assert steps[..n + 1][..n] == steps[..n];
  }

  /** What the first n steps say of the row: the first mint mark after it wins, then any dismissal. */
  ghost predicate RowFollows(canon: Canon, steps: seq<Step>, k: nat, n: nat, r: Row)
    requires k < |steps| && steps[k].Insert?
  {
    && r.serial == canon(steps[k].serial) && r.ms == Millis(steps[k].at)
    && (r.mint.Some? <==> exists j :: j < n && Mints(canon, steps, k, j))
    && (forall j :: j < n && Mints(canon, steps, k, j) && (forall i :: i < j ==> !Mints(canon, steps, k, i)) ==>
          r.mint == Some(steps[j].mark.stamp))
    && (r.status == Confirmed <==> r.mint.Some?)
    && (r.status == NoSurplus <==> r.mint.None? && exists j :: j < n && Dismisses(canon, steps, k, j))
  }

  lemma {:induction false} RowsFollow(canon: Canon, steps: seq<Step>, k: nat, n: nat)
    requires k < n <= |steps| && steps[k].Insert?
    ensures RowFollows(canon, steps, k, n, RowAt(canon, steps, k, n))
    decreases n
  {
    if n == k + 1 {
      RowInserted(canon, steps, k);
    } else {
      RowsFollow(canon, steps, k, n - 1);
      RowStep(canon, steps, k, n - 1);
      StepFollows(canon, steps, k, n - 1, RowAt(canon, steps, k, n - 1));
    }
  }

  lemma {:induction false} StepFollows(canon: Canon, steps: seq<Step>, k: nat, n: nat, r: Row)
    requires k < n < |steps| && steps[k].Insert? && RowFollows(canon, steps, k, n, r)
    ensures RowFollows(canon, steps, k, n + 1, if steps[n].Update? then Marked(canon, steps[n].mark, r) else r)
  {
    var t := if steps[n].Update? then Marked(canon, steps[n].mark, r) else r;
    var inserted := NewRow(canon, steps[k].serial, steps[k].at);
    assert steps[n].Update? ==> (Selects(canon, steps[n].mark, r) <==> Selects(canon, steps[n].mark, inserted));
    assert (exists j :: j < n + 1 && Mints(canon, steps, k, j))
      <==> (exists j :: j < n && Mints(canon, steps, k, j)) || Mints(canon, steps, k, n);
    assert (exists j :: j < n + 1 && Dismisses(canon, steps, k, j))
      <==> (exists j :: j < n && Dismisses(canon, steps, k, j)) || Dismisses(canon, steps, k, n);
  }

  /**
   Over every run: a stored reading is minted exactly when some mint mark of its meter, for the very
   window the aggregator bins the reading in, comes after its insert; it keeps the first such stamp.
   */
  lemma MintedIff(canon: Canon, steps: seq<Step>, k: nat)
    requires k < |steps| && steps[k].Insert?
    requires forall j :: 0 <= j < |steps| && steps[j].Update? ==> AtWindow(steps[j].mark)
    ensures RowAt(canon, steps, k, |steps|).mint.Some?
       <==> exists j :: k < j < |steps| && OfReading(canon, steps[j], steps[k], true)
    ensures RowAt(canon, steps, k, |steps|).mint.None? ==>
      (RowAt(canon, steps, k, |steps|).status == NoSurplus
       <==> exists j :: k < j < |steps| && OfReading(canon, steps[j], steps[k], false))
    ensures RowAt(canon, steps, k, |steps|).mint.Some? <==> RowAt(canon, steps, k, |steps|).status == Confirmed
  {
    RowsFollow(canon, steps, k, |steps|);
    forall j | k < j < |steps|
      ensures Mints(canon, steps, k, j) <==> OfReading(canon, steps[j], steps[k], true)
      ensures Dismisses(canon, steps, k, j) <==> OfReading(canon, steps[j], steps[k], false)
    {
      if steps[j].Update? {
        var w := steps[j].mark.windowMs * NANOS_PER_MILLI;
        assert Millis(w) == steps[j].mark.windowMs;
        WriteBackAgreesWithBinning(steps[k].at, w);
      }
    }
  }

  /** Marks carry the start of a billing window. */
  predicate AtWindow(m: Mark) {
    m.windowMs * NANOS_PER_MILLI % WINDOW == 0
  }

  /** A mark of the reading's meter and of the window the aggregator puts the reading in. */
  predicate OfReading(canon: Canon, s: Step, reading: Step, minted: bool) {
    && s.Update? && reading.Insert? && s.mark.MarkMinted? == minted
    && canon(s.mark.serial) == canon(reading.serial)
    && GetWindowStart(reading.at) == s.mark.windowMs * NANOS_PER_MILLI
  }

  // ----- the statements -----

  class ReadingsTable {
    var rows: seq<Row>

    constructor ()
      ensures rows == []
    {
      rows := [];
    }

    method InsertRow(canon: Canon, serial: string, at: Instant)
      modifies this
      ensures rows == old(rows) + [NewRow(canon, serial, at)]
    {
      rows := rows + [Row(canon(serial), Millis(at), None, Pending)];
    }

    /** An UPDATE visits every row; the result is the number of rows it changes. */
    method UpdateRows(canon: Canon, m: Mark) returns (changed: nat)
      modifies this
      ensures rows == MarkAll(canon, m, old(rows))
      ensures changed == |set i | 0 <= i < |rows| && rows[i] != old(rows)[i]|
    {
      changed := 0;
      ghost var touched: set<int> := {};
      for i := 0 to |rows|
        invariant |rows| == |old(rows)| && changed == |touched|
        invariant forall j :: 0 <= j < i ==> rows[j] == Marked(canon, m, old(rows)[j])
        invariant forall j :: i <= j < |rows| ==> rows[j] == old(rows)[j]
        invariant touched == set j | 0 <= j < i && rows[j] != old(rows)[j]
      {
        var r := rows[i];
        if Affects(canon, m, r) {
          var marked := if m.MarkMinted? then r.(mint := Some(m.stamp), status := Confirmed)
                        else r.(status := NoSurplus);
          rows := rows[i := marked];
          touched := touched + {i};
          changed := changed + 1;
        }
      }
    }
  }

  /** A repeated confirmation changes nothing. */
  lemma MarkTwice(canon: Canon, m: Mark, rows: seq<Row>)
    ensures MarkAll(canon, m, MarkAll(canon, m, rows)) == MarkAll(canon, m, rows)
  {
  }
}
