/** Bytes and big-endian integers. */
module Bytes {
  type Byte = x: int | 0 <= x < 256

  function Pow256(n: nat): nat {
    if n == 0 then 1 else 256 * Pow256(n - 1)
  }

  function FromBE(bs: seq<Byte>): nat {
    if bs == [] then 0 else FromBE(bs[..|bs| - 1]) * 256 + bs[|bs| - 1]
  }

  function ToBE(n: nat, len: nat): (bs: seq<Byte>)
    ensures |bs| == len
  {
    if len == 0 then [] else ToBE(n / 256, len - 1) + [n % 256]
  }

  lemma {:induction false} BigEndianRoundTrip(n: nat, len: nat)
    requires n < Pow256(len)
    ensures FromBE(ToBE(n, len)) == n
  {
    if len > 0 {
      BigEndianRoundTrip(n / 256, len - 1);
      var bs := ToBE(n, len);
      assert bs[..len - 1] == ToBE(n / 256, len - 1);
    }
  }
}

/**
 The Secure DLMS-lite v4 frame. CRC-32 and AES-GCM are parameters. Text fields are kept as
 their bytes; a length byte below 23 is outside what the decoder's slices allow.
 */
module Frames {
  import opened Wrappers
  import opened Results
  import opened Ints
  import opened Bytes

  const VERSION_V4: Byte := 4
  const CRC_BOUND := 0x1_0000_0000
  // The range of instants that a date can represent.
  const MIN_TIMESTAMP := -8_334_601_228_800
  const MAX_TIMESTAMP := 8_210_266_876_799

  type Crc = seq<Byte> -> nat

  datatype Aead = Aead(
    encrypt: (seq<Byte>, seq<Byte>, seq<Byte>) -> seq<Byte>,
    decrypt: (seq<Byte>, seq<Byte>, seq<Byte>) -> Option<seq<Byte>>)

  /** Decrypting what was encrypted under the same key and nonce gives the plaintext back. */
  ghost predicate DecryptsEncrypted(c: Aead) {
    forall k, n, p :: c.decrypt(k, n, c.encrypt(k, n, p)) == Some(p)
  }

  ghost predicate Crc32(crc: Crc) {
    forall bs :: crc(bs) < CRC_BOUND
  }

  datatype ParseError =
    | TooSmall
    | LengthExceedsPayload
    | CrcMismatch
    | BadVersion(found: Byte)
    | BadTimestamp
    | DecryptionFailed

  datatype Header = Header(version: Byte, manufacturer: seq<Byte>, ldn: seq<Byte>, timestamp: int)

  /** The five readings a frame can carry. */
  datatype Readout = Readout(
    importWh: Option<nat>, exportWh: Option<nat>, voltageCv: Option<nat>, currentMa: Option<nat>, socBps: Option<nat>)

  datatype Frame = Frame(header: Header, readout: Readout)

  const NO_READOUT := Readout(None, None, None, None, None)

  // ----- header -----

  function TrimLeadingNul(bs: seq<Byte>): seq<Byte> {
    if bs != [] && bs[0] == 0 then TrimLeadingNul(bs[1..]) else bs
  }

  function TrimTrailingNul(bs: seq<Byte>): seq<Byte> {
    if bs != [] && bs[|bs| - 1] == 0 then TrimTrailingNul(bs[..|bs| - 1]) else bs
  }

  predicate Representable(t: int) {
    MIN_TIMESTAMP <= t <= MAX_TIMESTAMP
  }

  /** The declared length: what follows the two leading bytes. */
  function Declared(payload: seq<Byte>): int
    requires |payload| >= 2
  {
    payload[1]
  }

  /** Whenever the payload is long enough for its declared length, the frame holds the four bytes of the CRC. */
  predicate ChecksumFits(payload: seq<Byte>) {
    |payload| >= 25 && Declared(payload) + 2 <= |payload| ==> Declared(payload) >= 2
  }

  /** Likewise, and that length covers header and CRC, so the encrypted block is well formed. */
  predicate LengthByteOk(payload: seq<Byte>) {
    |payload| >= 25 && Declared(payload) + 2 <= |payload| ==> Declared(payload) >= 23
  }

  function ParseHeader(payload: seq<Byte>, crc: Crc): (r: Result<Header, ParseError>)
    requires ChecksumFits(payload)
    ensures r.Ok? ==> |payload| >= 25 && Declared(payload) + 2 <= |payload|
  {
    if |payload| < 25 then Err(TooSmall)
    else if |payload| < Declared(payload) + 2 then Err(LengthExceedsPayload)
    else
      var frame := payload[..Declared(payload) + 2];
      var body := |frame| - 4;
      if FromBE(frame[body..]) != crc(frame[..body]) then Err(CrcMismatch)
      else if payload[0] != VERSION_V4 then Err(BadVersion(payload[0]))
      else
        var seconds := AsI64(FromBE(payload[13..21]));
        if !Representable(seconds) then Err(BadTimestamp)
        else Ok(Header(payload[0], payload[2..5], TrimTrailingNul(TrimLeadingNul(payload[5..13])), seconds))
  }

  /** The last four bytes of the declared frame are the big-endian CRC of what precedes them. */
  predicate ChecksumHolds(payload: seq<Byte>, crc: Crc)
    requires |payload| >= 25 && 2 <= Declared(payload) && Declared(payload) + 2 <= |payload|
  {
    var n := Declared(payload);
    FromBE(payload[n - 2..n + 2]) == crc(payload[..n - 2])
  }

  /** The first failing test names the error; a header comes back exactly when none fails. */
  lemma HeaderAnswers(payload: seq<Byte>, crc: Crc)
    requires ChecksumFits(payload)
    ensures var r := ParseHeader(payload, crc);
            if |payload| < 25 then r == Err(TooSmall)
            else if |payload| < Declared(payload) + 2 then r == Err(LengthExceedsPayload)
            else if !ChecksumHolds(payload, crc) then r == Err(CrcMismatch)
            else if payload[0] != 4 then r == Err(BadVersion(payload[0]))
            else if !Representable(AsI64(FromBE(payload[13..21]))) then r == Err(BadTimestamp)
            else
              && r.Ok? && r.value.version == 4 && r.value.manufacturer == payload[2..5]
              && r.value.timestamp == AsI64(FromBE(payload[13..21])) && IsTrimmed(r.value.ldn, payload[5..13])
  {
    if |payload| >= 25 && Declared(payload) + 2 <= |payload| {
      var n := Declared(payload);
      var frame := payload[..n + 2];
      assert frame[n - 2..] == payload[n - 2..n + 2] && frame[..n - 2] == payload[..n - 2];
      TrimIs(payload[5..13]);
    }
  }

  /** `name` is what is left of `field` without the NULs at both ends. */
  ghost predicate IsTrimmed(name: seq<Byte>, field: seq<Byte>) {
    && (name != [] ==> name[0] != 0 && name[|name| - 1] != 0)
    && exists a: nat, b: nat :: field == Zeros(a) + name + Zeros(b)
  }

  lemma {:induction false} LeadingNuls(bs: seq<Byte>) returns (n: nat)
    ensures bs == Zeros(n) + TrimLeadingNul(bs) && (TrimLeadingNul(bs) != [] ==> TrimLeadingNul(bs)[0] != 0)
  {
    n := 0;
    if bs != [] && bs[0] == 0 {
      var m := LeadingNuls(bs[1..]);
      n := m + 1;
      assert Zeros(n) == [0] + Zeros(m);
    }
  }

  lemma {:induction false} TrailingNuls(bs: seq<Byte>) returns (n: nat)
    ensures bs == TrimTrailingNul(bs) + Zeros(n) && TrimTrailingNul(bs) <= bs
    ensures TrimTrailingNul(bs) != [] ==> TrimTrailingNul(bs)[|TrimTrailingNul(bs)| - 1] != 0
  {
    n := 0;
    if bs != [] && bs[|bs| - 1] == 0 {
      var m := TrailingNuls(bs[..|bs| - 1]);
      n := m + 1;
      assert Zeros(n) == Zeros(m) + [0];
    }
  }

  lemma TrimIs(bs: seq<Byte>)
    ensures IsTrimmed(TrimTrailingNul(TrimLeadingNul(bs)), bs)
  {
    var a := LeadingNuls(bs);
    var mid := TrimLeadingNul(bs);
    var b := TrailingNuls(mid);
    var name := TrimTrailingNul(mid);
    assert bs == Zeros(a) + name + Zeros(b);
    if name != [] { assert name[0] == mid[0]; }
  }

  // ----- the TLV block -----

  datatype Tlv = Tlv(tag: Byte, value: seq<Byte>)

  /** The complete TLVs at the front of a block; a truncated tail is ignored. */
  function SplitTlvs(data: seq<Byte>): seq<Tlv>
    decreases |data|
  {
    if |data| < 2 then []
    else
      var len: int := data[1];
      if 2 + len > |data| then [] else [Tlv(data[0], data[2..2 + len])] + SplitTlvs(data[2 + len..])
  }

  function ApplyTlv(r: Readout, t: Tlv): Readout {
    if t.tag == 1 && |t.value| == 8 then r.(importWh := Some(FromBE(t.value)))
    else if t.tag == 2 && |t.value| == 8 then r.(exportWh := Some(FromBE(t.value)))
    else if t.tag == 3 && |t.value| == 4 then r.(voltageCv := Some(FromBE(t.value)))
    else if t.tag == 4 && |t.value| == 4 then r.(currentMa := Some(FromBE(t.value)))
    else if t.tag == 5 && |t.value| == 4 then r.(socBps := Some(FromBE(t.value)))
    else r
  }

  function ApplyTlvs(r: Readout, ts: seq<Tlv>): Readout
    decreases |ts|
  {
    if ts == [] then r else ApplyTlvs(ApplyTlv(r, ts[0]), ts[1..])
  }

  /** The value of the last TLV with this tag and length: the reference for a readout. */
  function LastValue(ts: seq<Tlv>, tag: int, len: nat): Option<nat> {
    if ts == [] then None
    else
      var t := ts[|ts| - 1];
      if t.tag == tag && |t.value| == len then Some(FromBE(t.value)) else LastValue(ts[..|ts| - 1], tag, len)
  }

  function LastWins(ts: seq<Tlv>): Readout {
    Readout(LastValue(ts, 1, 8), LastValue(ts, 2, 8), LastValue(ts, 3, 4), LastValue(ts, 4, 4), LastValue(ts, 5, 4))
  }

  function Nonce(payload: seq<Byte>): seq<Byte>
    requires |payload| >= 21
  {
    payload[2..5] + payload[13..21] + [payload[0]]
  }

  function Block(payload: seq<Byte>, key: Option<seq<Byte>>, c: Aead): Option<seq<Byte>>
    requires |payload| >= 25 && 23 <= Declared(payload) && Declared(payload) + 2 <= |payload|
  {
    var encrypted := payload[21..Declared(payload) - 2];
    if key.Some? then c.decrypt(key.value, Nonce(payload), encrypted) else Some(encrypted)
  }

  function Parse(payload: seq<Byte>, key: Option<seq<Byte>>, crc: Crc, c: Aead): Result<Frame, ParseError>
    requires LengthByteOk(payload)
  {
    match ParseHeader(payload, crc)
    case Err(e) => Err(e)
    case Ok(h) =>
      match Block(payload, key, c)
      case None => Err(DecryptionFailed)
      case Some(data) => Ok(Frame(h, ApplyTlvs(NO_READOUT, SplitTlvs(data))))
  }

  method ReadTlv(r: Readout, tag: Byte, value: seq<Byte>) returns (r': Readout)
    ensures r' == ApplyTlv(r, Tlv(tag, value))
  {
    r' := r;
    var len := |value|;
    if tag == 1 && len == 8 {
      r' := r.(importWh := Some(FromBE(value)));
    } else if tag == 2 && len == 8 {
      r' := r.(exportWh := Some(FromBE(value)));
    } else if tag == 3 && len == 4 {
      r' := r.(voltageCv := Some(FromBE(value)));
    } else if tag == 4 && len == 4 {
      r' := r.(currentMa := Some(FromBE(value)));
    } else if tag == 5 && len == 4 {
      r' := r.(socBps := Some(FromBE(value)));
    }
  }

  /** One turn of the loop: the first TLV of the rest is applied. */
  lemma SplitFirst(r: Readout, data: seq<Byte>, cursor: nat, len: nat)
    requires cursor + 2 + len <= |data| && data[cursor + 1] == len
    ensures var end := cursor + 2 + len;
            ApplyTlvs(r, SplitTlvs(data[cursor..]))
            == ApplyTlvs(ApplyTlv(r, Tlv(data[cursor], data[cursor + 2..end])), SplitTlvs(data[end..]))
  {
    var rest := data[cursor..];
    var t := Tlv(data[cursor], data[cursor + 2..cursor + 2 + len]);
    assert rest[2..2 + len] == t.value && rest[2 + len..] == data[cursor + 2 + len..];
    assert SplitTlvs(rest) == [t] + SplitTlvs(data[cursor + 2 + len..]);
  }

  /** The loop stops where no complete TLV is left. */
  lemma SplitEnds(r: Readout, data: seq<Byte>, cursor: nat)
    requires cursor < |data| && (cursor + 1 < |data| ==> cursor + 2 + data[cursor + 1] > |data|)
    ensures ApplyTlvs(r, SplitTlvs(data[cursor..])) == r
  {
    assert SplitTlvs(data[cursor..]) == [];
  }

  /** The decoder's cursor loop over a decrypted block. */
  method ReadTlvs(data: seq<Byte>) returns (r: Readout)
    ensures r == ApplyTlvs(NO_READOUT, SplitTlvs(data))
  {
    r := NO_READOUT;
    var cursor := 0;
    assert data[0..] == data;
    while cursor < |data|
      invariant 0 <= cursor <= |data|
      invariant ApplyTlvs(r, SplitTlvs(data[cursor..])) == ApplyTlvs(NO_READOUT, SplitTlvs(data))
    {
      ghost var start := cursor;
      var tag := data[cursor];
      cursor := cursor + 1;
      if cursor >= |data| {
        SplitEnds(r, data, start);
        break;
      }
      var len: int := data[cursor];
      cursor := cursor + 1;
      if cursor + len > |data| {
        SplitEnds(r, data, start);
        break;
      }
      SplitFirst(r, data, start, len);
      r := ReadTlv(r, tag, data[cursor..cursor + len]);
      cursor := cursor + len;
    }
  }

  /** The header reads, field by field from a cursor. */
  method DecodeHeader(payload: seq<Byte>, crc: Crc) returns (r: Result<Header, ParseError>)
    requires ChecksumFits(payload)
    ensures r == ParseHeader(payload, crc)
  {
    if |payload| < 25 {
      return Err(TooSmall);
    }
    var total := Declared(payload);
    if |payload| < total + 2 {
      return Err(LengthExceedsPayload);
    }
    var frame := payload[..total + 2];
    var body, checksum := frame[..|frame| - 4], frame[|frame| - 4..];
    if FromBE(checksum) != crc(body) {
      return Err(CrcMismatch);
    }
    var version := payload[0];
    if version != VERSION_V4 {
      return Err(BadVersion(version));
    }
    var cursor := 2;
    var manufacturer := payload[cursor..cursor + 3];
    cursor := cursor + 3;
    var ldn := TrimTrailingNul(TrimLeadingNul(payload[cursor..cursor + 8]));
    cursor := cursor + 8;
    var seconds := AsI64(FromBE(payload[cursor..cursor + 8]));
    if !Representable(seconds) {
      return Err(BadTimestamp);
    }
    r := Ok(Header(version, manufacturer, ldn, seconds));
  }

  method DecodeFrame(payload: seq<Byte>, key: Option<seq<Byte>>, crc: Crc, c: Aead)
    returns (r: Result<Frame, ParseError>)
    requires LengthByteOk(payload)
    ensures r == Parse(payload, key, crc, c)
  {
    var h := DecodeHeader(payload, crc);
    if h.Err? {
      return Err(h.error);
    }
    var data := payload[21..Declared(payload) + 2 - 4];
    if key.Some? {
      var nonce := payload[2..5] + payload[13..21] + [payload[0]];
      var plain := c.decrypt(key.value, nonce, data);
      if plain.None? {
        return Err(DecryptionFailed);
      }
      data := plain.value;
    }
    var readout := ReadTlvs(data);
    r := Ok(Frame(h.value, readout));
  }

  // ----- the encoder -----

  function EncodeTlvs(ts: seq<Tlv>): seq<Byte>
    requires forall t :: t in ts ==> |t.value| < 256
  {
    if ts == [] then [] else [ts[0].tag, |ts[0].value|] + ts[0].value + EncodeTlvs(ts[1..])
  }

  function Zeros(n: nat): seq<Byte> {
    seq(n, i => 0)
  }

  function HeaderBytes(manufacturer: seq<Byte>, ldn: seq<Byte>, seconds: nat): (bs: seq<Byte>)
    requires |manufacturer| == 3 && |ldn| <= 8
    ensures |bs| == 19
  {
    manufacturer + ldn + Zeros(8 - |ldn|) + ToBE(seconds, 8)
  }

  function EncodeBlock(manufacturer: seq<Byte>, seconds: nat, data: seq<Byte>, key: Option<seq<Byte>>, c: Aead)
    : seq<Byte>
  {
    if key.Some? then c.encrypt(key.value, manufacturer + ToBE(seconds, 8) + [VERSION_V4], data) else data
  }

  /** Version, length, header, block, CRC over everything before it. */
  function Seal(header: seq<Byte>, block: seq<Byte>, crc: Crc): seq<Byte>
    requires |header| == 19 && |block| + 23 < 256
  {
    var body := [VERSION_V4, |block| + 23] + header + block;
    body + ToBE(crc(body), 4)
  }

  // ----- last wins, and what does not matter -----

  lemma {:induction false} ApplySnoc(r: Readout, ts: seq<Tlv>, t: Tlv)
    ensures ApplyTlvs(r, ts + [t]) == ApplyTlv(ApplyTlvs(r, ts), t)
    decreases |ts|
  {
    if ts == [] {
      assert [] + [t] == [t];
    } else {
      ApplySnoc(ApplyTlv(r, ts[0]), ts[1..], t);
      assert (ts + [t])[1..] == ts[1..] + [t];
    }
  }

  /** The loop's effect is the last-wins readout. */
  lemma {:induction false} LoopIsLastWins(ts: seq<Tlv>)
    ensures ApplyTlvs(NO_READOUT, ts) == LastWins(ts)
  {
    if ts != [] {
      var pre, t := ts[..|ts| - 1], ts[|ts| - 1];
      LoopIsLastWins(pre);
      ApplySnoc(NO_READOUT, pre, t);
      assert ts == pre + [t];
    }
  }

  lemma {:induction false} SplitValuesFit(data: seq<Byte>)
    ensures forall t :: t in SplitTlvs(data) ==> |t.value| < 256
    decreases |data|
  {
    if |data| >= 2 && 2 + data[1] as int <= |data| { SplitValuesFit(data[2 + data[1] as int..]); }
  }

  lemma EncodeCons(t: Tlv, ts: seq<Tlv>)
    requires |t.value| < 256 && forall x :: x in ts ==> |x.value| < 256
    ensures EncodeTlvs([t] + ts) == [t.tag, |t.value|] + t.value + EncodeTlvs(ts)
  {
    assert ([t] + ts)[1..] == ts;
  }

  /** The TLVs read are a packing of the front of the block, and what follows holds no complete TLV. */
  lemma {:induction false} TlvsArePrefix(data: seq<Byte>) returns (tail: seq<Byte>)
    ensures forall t :: t in SplitTlvs(data) ==> |t.value| < 256
    ensures data == EncodeTlvs(SplitTlvs(data)) + tail
    ensures |tail| < 2 || 2 + tail[1] as int > |tail|
    decreases |data|
  {
    SplitValuesFit(data);
    tail := data;
    if |data| >= 2 && 2 + data[1] as int <= |data| {
      var len: int := data[1];
      var t, rest := Tlv(data[0], data[2..2 + len]), data[2 + len..];
      tail := TlvsArePrefix(rest);
      EncodeCons(t, SplitTlvs(rest));
      assert data == [t.tag, |t.value|] + t.value + rest;
    }
  }

  /**
   The whole parser: header errors first, then a failed decryption of the block under the nonce of
   manufacturer, timestamp and version; otherwise the header with the last-wins readout of the block.
   */
  lemma FrameAnswers(payload: seq<Byte>, key: Option<seq<Byte>>, crc: Crc, c: Aead)
    requires LengthByteOk(payload)
    ensures var r, h := Parse(payload, key, crc, c), ParseHeader(payload, crc);
            && (h.Err? ==> r == Err(h.error))
            && (h.Ok? ==>
                  var sealed := payload[21..Declared(payload) - 2];
                  var nonce := payload[2..5] + payload[13..21] + [payload[0]];
                  var plain := if key.None? then Some(sealed) else c.decrypt(key.value, nonce, sealed);
                  r == if plain.None? then Err(DecryptionFailed)
                       else Ok(Frame(h.value, LastWins(SplitTlvs(plain.value)))))
  {
    var h := ParseHeader(payload, crc);
    if h.Ok? {
      var plain := Block(payload, key, c);
      if plain.Some? { LoopIsLastWins(SplitTlvs(plain.value)); }
    }
  }

  predicate Known(t: Tlv) {
    || (t.tag in {1, 2} && |t.value| == 8)
    || (t.tag in {3, 4, 5} && |t.value| == 4)
  }

  /** An unknown tag, or a known tag of the wrong length, changes nothing wherever it stands. */
  lemma {:induction false} UnknownTlvIgnored(a: seq<Tlv>, t: Tlv, b: seq<Tlv>)
    requires !Known(t)
    ensures LastWins(a + [t] + b) == LastWins(a + b)
    decreases |b|
  {
    if b == [] {
      assert (a + [t] + b)[..|a|] == a && a + b == a && a + [t] + b == a + [t];
    } else {
      var b', x := b[..|b| - 1], b[|b| - 1];
      UnknownTlvIgnored(a, t, b');
      assert (a + [t] + b)[..|a| + |b|] == a + [t] + b';
      assert (a + b)[..|a| + |b'|] == a + b';
    }
  }

  /** Splitting undoes encoding, and a truncated tail adds nothing. */
  lemma {:induction false} SplitEncoded(ts: seq<Tlv>, tail: seq<Byte>)
    requires forall t :: t in ts ==> |t.value| < 256
    requires SplitTlvs(tail) == []
    ensures SplitTlvs(EncodeTlvs(ts) + tail) == ts
    decreases |ts|
  {
    if ts == [] {
      assert EncodeTlvs(ts) + tail == tail;
    } else {
      var t, rest := ts[0], EncodeTlvs(ts[1..]) + tail;
      SplitEncoded(ts[1..], tail);
      assert EncodeTlvs(ts) + tail == [t.tag, |t.value|] + t.value + rest;
      SplitOne(t, rest);
    }
  }

  lemma SplitOne(t: Tlv, rest: seq<Byte>)
    requires |t.value| < 256
    ensures SplitTlvs([t.tag, |t.value|] + t.value + rest) == [t] + SplitTlvs(rest)
  {
    var data := [t.tag, |t.value|] + t.value + rest;
    assert data[2..2 + |t.value|] == t.value;
    assert data[2 + |t.value|..] == rest;
  }

  lemma {:induction false} TrimPadding(ldn: seq<Byte>, n: nat)
    requires ldn == [] || ldn[|ldn| - 1] != 0
    ensures TrimTrailingNul(ldn + Zeros(n)) == ldn
    decreases n
  {
    var all := ldn + Zeros(n);
    if n == 0 {
      assert all == ldn;
    } else {
      assert all[..|all| - 1] == ldn + Zeros(n - 1);
      TrimPadding(ldn, n - 1);
    }
  }

  lemma {:induction false} TrimZeros(n: nat)
    ensures TrimTrailingNul(TrimLeadingNul(Zeros(n))) == []
  {
    if n > 0 {
      assert Zeros(n)[1..] == Zeros(n - 1);
      TrimZeros(n - 1);
    }
  }

  /** A device name without leading or trailing NUL survives padding to eight bytes. */
  lemma PaddedNameRoundTrip(ldn: seq<Byte>, n: nat)
    requires ldn == [] || (ldn[0] != 0 && ldn[|ldn| - 1] != 0)
    ensures TrimTrailingNul(TrimLeadingNul(ldn + Zeros(n))) == ldn
  {
    if ldn == [] {
      assert ldn + Zeros(n) == Zeros(n);
      TrimZeros(n);
    } else {
      TrimPadding(ldn, n);
    }
  }

  // ----- round trips -----

  lemma Pow256At4()
    ensures Pow256(4) == CRC_BOUND
  {
  }

  lemma Pow256At8()
    ensures Pow256(8) == 0x1_0000_0000_0000_0000
  {
    Pow256At4();
    assert Pow256(5) == 256 * Pow256(4);
    assert Pow256(6) == 256 * Pow256(5);
    assert Pow256(7) == 256 * Pow256(6);
  }

  /** Where the parts of a sealed frame lie, with any bytes after it. */
  lemma SealedLayout(header: seq<Byte>, block: seq<Byte>, crc: Crc, extra: seq<Byte>)
    requires |header| == 19 && |block| + 23 < 256
    ensures var p := Seal(header, block, crc) + extra;
            var body := [VERSION_V4, |block| + 23] + header + block;
            && |p| >= 25 && p[0] == VERSION_V4 && Declared(p) == |block| + 23 && Declared(p) + 2 <= |p|
            && p[2..21] == header && p[21..Declared(p) - 2] == block
            && p[..Declared(p) + 2][..|block| + 21] == body
            && p[..Declared(p) + 2][|block| + 21..] == ToBE(crc(body), 4)
  {
  }

  lemma HeaderLayout(payload: seq<Byte>, manufacturer: seq<Byte>, ldn: seq<Byte>, seconds: nat)
    requires |payload| >= 21 && |manufacturer| == 3 && |ldn| <= 8
    requires payload[2..21] == HeaderBytes(manufacturer, ldn, seconds)
    ensures payload[2..5] == manufacturer && payload[5..13] == ldn + Zeros(8 - |ldn|)
    ensures payload[13..21] == ToBE(seconds, 8)
  {
    var h := HeaderBytes(manufacturer, ldn, seconds);
    assert payload[2..5] == h[0..3] && payload[5..13] == h[3..11] && payload[13..21] == h[11..19];
  }

  /** The header of an encoded frame comes back, whatever follows the frame. */
  lemma HeaderRoundTrip(manufacturer: seq<Byte>, ldn: seq<Byte>, seconds: nat, block: seq<Byte>, crc: Crc,
                        extra: seq<Byte>)
    requires |manufacturer| == 3 && |ldn| <= 8 && (ldn == [] || (ldn[0] != 0 && ldn[|ldn| - 1] != 0))
    requires seconds < 0x1_0000_0000_0000_0000 && Representable(AsI64(seconds)) && |block| + 23 < 256 && Crc32(crc)
    ensures var p := Seal(HeaderBytes(manufacturer, ldn, seconds), block, crc) + extra;
            LengthByteOk(p) && ParseHeader(p, crc) == Ok(Header(VERSION_V4, manufacturer, ldn, AsI64(seconds)))
  {
    var header := HeaderBytes(manufacturer, ldn, seconds);
    var p := Seal(header, block, crc) + extra;
    SealedLayout(header, block, crc, extra);
    HeaderLayout(p, manufacturer, ldn, seconds);
    var body := [VERSION_V4, |block| + 23] + header + block;
    Pow256At4();
    BigEndianRoundTrip(crc(body), 4);
    Pow256At8();
    BigEndianRoundTrip(seconds, 8);
    PaddedNameRoundTrip(ldn, 8 - |ldn|);
  }

  /**
   Frame round trip: parsing an encoded frame gives back its header and the last-wins readout
   of its TLVs. A truncated TLV tail and bytes after the frame change nothing.
   */
  lemma FrameRoundTrip(manufacturer: seq<Byte>, ldn: seq<Byte>, seconds: nat, ts: seq<Tlv>, tail: seq<Byte>,
                       key: Option<seq<Byte>>, crc: Crc, c: Aead, extra: seq<Byte>)
    requires |manufacturer| == 3 && |ldn| <= 8 && (ldn == [] || (ldn[0] != 0 && ldn[|ldn| - 1] != 0))
    requires seconds < 0x1_0000_0000_0000_0000 && Representable(AsI64(seconds))
    requires (forall t :: t in ts ==> |t.value| < 256) && SplitTlvs(tail) == []
    requires Crc32(crc) && DecryptsEncrypted(c)
    requires |EncodeBlock(manufacturer, seconds, EncodeTlvs(ts) + tail, key, c)| + 23 < 256
    ensures var block := EncodeBlock(manufacturer, seconds, EncodeTlvs(ts) + tail, key, c);
            var p := Seal(HeaderBytes(manufacturer, ldn, seconds), block, crc) + extra;
            LengthByteOk(p)
            && Parse(p, key, crc, c) == Ok(Frame(Header(VERSION_V4, manufacturer, ldn, AsI64(seconds)), LastWins(ts)))
  {
    var data := EncodeTlvs(ts) + tail;
    var block := EncodeBlock(manufacturer, seconds, data, key, c);
    var header := HeaderBytes(manufacturer, ldn, seconds);
    var p := Seal(header, block, crc) + extra;
    HeaderRoundTrip(manufacturer, ldn, seconds, block, crc, extra);
    SealedLayout(header, block, crc, extra);
    HeaderLayout(p, manufacturer, ldn, seconds);
    assert Nonce(p) == manufacturer + ToBE(seconds, 8) + [VERSION_V4];
    assert Block(p, key, c) == Some(data);
    SplitEncoded(ts, tail);
    LoopIsLastWins(ts);
  }

  /** For any payload that holds its declared frame, bytes after the frame change no header result. */
  lemma HeaderEndsWithFrame(payload: seq<Byte>, extra: seq<Byte>, crc: Crc)
    requires |payload| >= 25 && 2 <= Declared(payload) && Declared(payload) + 2 <= |payload|
    ensures ParseHeader(payload + extra, crc) == ParseHeader(payload, crc)
  {
    var p, n := payload + extra, Declared(payload);
    assert p[..n + 2] == payload[..n + 2];
    assert p[2..5] == payload[2..5] && p[5..13] == payload[5..13] && p[13..21] == payload[13..21];
  }

  /** Nor any result of the whole parser. */
  lemma TrailingBytesIgnored(payload: seq<Byte>, extra: seq<Byte>, key: Option<seq<Byte>>, crc: Crc, c: Aead)
    requires |payload| >= 25 && 23 <= Declared(payload) && Declared(payload) + 2 <= |payload|
    ensures Parse(payload + extra, key, crc, c) == Parse(payload, key, crc, c)
  {
    HeaderEndsWithFrame(payload, extra, crc);
    var p, n := payload + extra, Declared(payload);
    assert p[2..5] == payload[2..5] && p[13..21] == payload[13..21] && p[21..n - 2] == payload[21..n - 2];
  }
}
