/** The packed bulk payload: length byte, frame, 64-byte signature, entry after entry. */
module BulkFrames {
  import opened Bytes

  const SIGNATURE_LENGTH := 64

  datatype Entry = Entry(frame: seq<Byte>, signature: seq<Byte>)

  /** An entry that the format can carry. */
  predicate Packable(e: Entry) {
    |e.frame| < 256 && |e.signature| == SIGNATURE_LENGTH
  }

  ghost predicate AllPackable(es: seq<Entry>) {
    forall i :: 0 <= i < |es| ==> Packable(es[i])
  }

  function PackEntry(e: Entry): seq<Byte>
    requires Packable(e)
  {
    [|e.frame|] + e.frame + e.signature
  }

  ghost function Pack(es: seq<Entry>): seq<Byte>
    requires AllPackable(es)
  {
    if es == [] then [] else PackEntry(es[0]) + Pack(es[1..])
  }

  /** The bytes of the first entry, if the payload holds all of it. */
  function EntryLength(payload: seq<Byte>): int {
    if payload == [] then 1 else var len: int := payload[0]; 1 + len + SIGNATURE_LENGTH
  }

  predicate HasEntry(payload: seq<Byte>) {
    EntryLength(payload) <= |payload|
  }

  function FirstEntry(payload: seq<Byte>): (e: Entry)
    requires HasEntry(payload)
    ensures Packable(e) && PackEntry(e) == payload[..EntryLength(payload)]
  {
    var n := EntryLength(payload) - SIGNATURE_LENGTH;
    Entry(payload[1..n], payload[n..n + SIGNATURE_LENGTH])
  }

  /** The complete entries at the front of a payload. */
  function Split(payload: seq<Byte>): seq<Entry>
    decreases |payload|
  {
    if HasEntry(payload) then [FirstEntry(payload)] + Split(payload[EntryLength(payload)..]) else []
  }

  /** What is left behind them. */
  function Remainder(payload: seq<Byte>): seq<Byte>
    decreases |payload|
  {
    if HasEntry(payload) then Remainder(payload[EntryLength(payload)..]) else payload
  }

  lemma Assoc<T>(a: seq<T>, b: seq<T>, c: seq<T>)
    ensures a + (b + c) == (a + b) + c
  {
  }

  lemma TakeEntry(rest: seq<Byte>, len: nat, e: Entry)
    requires rest != [] && rest[0] == len && 1 + len + SIGNATURE_LENGTH <= |rest|
    requires e == Entry(rest[1..1 + len], rest[1 + len..1 + len + SIGNATURE_LENGTH])
    ensures Split(rest) == [e] + Split(rest[1 + len + SIGNATURE_LENGTH..])
  {
  }

  method SplitBulkFrames(payload: seq<Byte>) returns (out: seq<Entry>)
    ensures out == Split(payload)
  {
    out := [];
    var cursor := 0;
    assert payload[0..] == payload;
    while cursor < |payload|
      invariant 0 <= cursor <= |payload|
      invariant out + Split(payload[cursor..]) == Split(payload)
    {
      ghost var rest := payload[cursor..];
      var len: int := payload[cursor];
      cursor := cursor + 1;
      if cursor + len + SIGNATURE_LENGTH > |payload| {
        assert Split(rest) == [];
        return;
      }
      var frame := payload[cursor..cursor + len];
      assert frame == rest[1..1 + len];
      cursor := cursor + len;
      var signature := payload[cursor..cursor + SIGNATURE_LENGTH];
      assert signature == rest[1 + len..1 + len + SIGNATURE_LENGTH];
      cursor := cursor + SIGNATURE_LENGTH;
      var e := Entry(frame, signature);
      TakeEntry(rest, len, e);
      assert rest[1 + len + SIGNATURE_LENGTH..] == payload[cursor..];
      Assoc(out, [e], Split(payload[cursor..]));
      out := out + [e];
    }
  }

  lemma SplitFirst(e: Entry, rest: seq<Byte>)
    requires Packable(e)
    ensures Split(PackEntry(e) + rest) == [e] + Split(rest)
    ensures Remainder(PackEntry(e) + rest) == Remainder(rest)
  {
    var p := PackEntry(e) + rest;
    var n := |e.frame| + 1;
    assert EntryLength(p) == n + SIGNATURE_LENGTH;
    assert p[1..n] == e.frame && p[n..n + SIGNATURE_LENGTH] == e.signature && p[n + SIGNATURE_LENGTH..] == rest;
  }

  /** Splitting a packed list returns the same frame and signature pairs; a truncated tail adds none. */
  lemma {:induction false} SplitPacked(es: seq<Entry>, tail: seq<Byte>)
    requires AllPackable(es) && !HasEntry(tail)
    ensures Split(Pack(es) + tail) == es && Remainder(Pack(es) + tail) == tail
    decreases |es|
  {
    if es == [] {
      assert Pack(es) + tail == tail;
    } else {
      SplitPacked(es[1..], tail);
      assert Pack(es) + tail == PackEntry(es[0]) + (Pack(es[1..]) + tail);
      SplitFirst(es[0], Pack(es[1..]) + tail);
    }
  }

  lemma PackCons(e: Entry, es: seq<Entry>)
    requires Packable(e) && AllPackable(es)
    ensures AllPackable([e] + es) && Pack([e] + es) == PackEntry(e) + Pack(es)
  {
    assert ([e] + es)[1..] == es;
  }

  /** For any payload, packing the result is a prefix of it, and the remainder holds no complete entry. */
  lemma {:induction false} PackSplit(payload: seq<Byte>)
    ensures AllPackable(Split(payload))
    ensures payload == Pack(Split(payload)) + Remainder(payload)
    ensures !HasEntry(Remainder(payload))
    decreases |payload|
  {
    if HasEntry(payload) {
      var n := EntryLength(payload);
      var rest := payload[n..];
      PackSplit(rest);
      var e := FirstEntry(payload);
      PackCons(e, Split(rest));
      assert payload == PackEntry(e) + rest;
      Assoc(PackEntry(e), Pack(Split(rest)), Remainder(rest));
    }
  }
}
