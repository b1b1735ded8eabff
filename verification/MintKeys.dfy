/** The printed mint key and its parser, and the batch reply that is read through them. */
module MintKeys {
  import opened Wrappers
  import opened Ints

  // ----- decimal text -----

  function Digit(d: int): char
    requires 0 <= d < 10
  {
    '0' + d as char
  }

  predicate IsDigit(c: char) {
    '0' <= c <= '9'
  }

  function PrintNat(n: nat): (s: string)
    ensures s != [] && forall i :: 0 <= i < |s| ==> IsDigit(s[i])
  {
    if n < 10 then [Digit(n)] else PrintNat(n / 10) + [Digit(n % 10)]
  }

  function PrintInt(n: int): string {
    if n < 0 then "-" + PrintNat(-n) else PrintNat(n)
  }

  /** The value of a run of digits, None for anything else. */
  function ParseDigits(s: string): Option<nat> {
    if s == [] then None
    else
      var c := s[|s| - 1];
      if !IsDigit(c) then None
      else if |s| == 1 then Some((c - '0') as int)
      else
        match ParseDigits(s[..|s| - 1])
        case None => None
        case Some(n) => Some(n * 10 + (c - '0') as int)
  }

  /** `str::parse::<i64>`: an optional sign, at least one digit, and the value in range. */
  function ParseI64(s: string): Option<int> {
    if s == [] then None
    else
      var signed := s[0] == '-' || s[0] == '+';
      match ParseDigits(if signed then s[1..] else s)
      case None => None
      case Some(n) =>
        var v: int := if s[0] == '-' then 0 - n else n;
        if IsI64(v) then Some(v) else None
  }

  lemma {:induction false} DigitsRoundTrip(n: nat)
    ensures ParseDigits(PrintNat(n)) == Some(n)
  {
    if n >= 10 {
      DigitsRoundTrip(n / 10);
      var s := PrintNat(n);
      assert s[..|s| - 1] == PrintNat(n / 10);
    }
  }

  lemma SignedDigits(d: string, n: nat)
    requires d != [] && IsDigit(d[0]) && ParseDigits(d) == Some(n)
    ensures IsI64(n) ==> ParseI64(d) == Some(n)
    ensures IsI64(0 - n) ==> ParseI64("-" + d) == Some(0 - n)
  {
    var s := "-" + d;
    assert s[0] == '-' && s[1..] == d;
  }

  lemma IntRoundTrip(n: int)
    requires IsI64(n)
    ensures ParseI64(PrintInt(n)) == Some(n)
    ensures ':' !in PrintInt(n)
  {
    var size := if n < 0 then 0 - n else n;
    DigitsRoundTrip(size);
    SignedDigits(PrintNat(size), size);
  }

  // ----- what the integer parser accepts -----

  predicate AllDigits(s: string) {
    forall i :: 0 <= i < |s| ==> IsDigit(s[i])
  }

  function Pow10(n: nat): nat {
    if n == 0 then 1 else 10 * Pow10(n - 1)
  }

  /** The positional value: the first digit counts most. */
  function Value(s: string): nat
    requires AllDigits(s)
  {
    if s == [] then 0 else (s[0] - '0') as nat * Pow10(|s| - 1) + Value(s[1..])
  }

  lemma {:induction false} ValueSnoc(s: string, c: char)
    requires AllDigits(s) && IsDigit(c)
    ensures Value(s + [c]) == Value(s) * 10 + (c - '0') as nat
  {
    if s == [] {
      assert s + [c] == [c] && [c][1..] == [];
    } else {
      ValueSnoc(s[1..], c);
      assert (s + [c])[1..] == s[1..] + [c];
      var d := (s[0] - '0') as nat;
      assert d * Pow10(|s|) == d * Pow10(|s| - 1) * 10;
    }
  }

  lemma {:induction false} DigitsAre(s: string)
    ensures ParseDigits(s) == if s != [] && AllDigits(s) then Some(Value(s)) else None
  {
    if s != [] {
      var pre, c := s[..|s| - 1], s[|s| - 1];
      assert s == pre + [c];
      if IsDigit(c) {
        DigitsAre(pre);
        if AllDigits(pre) { ValueSnoc(pre, c); }
        assert AllDigits(s) <==> AllDigits(pre);
      }
    }
  }

  /** The digits after an optional sign. */
  function Unsigned(s: string): string {
    if s != [] && (s[0] == '-' || s[0] == '+') then s[1..] else s
  }

  /** Exactly the texts of an optional sign and digits whose value is in range. */
  lemma IntTextIs(s: string, v: int)
    ensures ParseI64(s) == Some(v) <==>
              && Unsigned(s) != [] && AllDigits(Unsigned(s)) && IsI64(v)
              && v == (if s[0] == '-' then 0 - Value(Unsigned(s)) else Value(Unsigned(s)))
  {
    DigitsAre(Unsigned(s));
  }

  // ----- fields and keys -----

  /** The outbox field of a mint. */
  function Field(serial: string, windowMs: int): string {
    serial + ":" + PrintInt(windowMs)
  }

  const PREFIX := "mint:"

  /** The idempotency key that the bridge sees. */
  function IdempotencyKey(serial: string, windowMs: int): string {
    PREFIX + serial + ":" + PrintInt(windowMs)
  }

  function StripPrefix(key: string): string {
    if PREFIX <= key then key[|PREFIX|..] else key
  }

  /** The index of the last colon. */
  function LastColon(s: string): (i: Option<nat>)
    ensures i.None? ==> ':' !in s
    ensures i.Some? ==> i.value < |s| && s[i.value] == ':' && ':' !in s[i.value + 1..]
  {
    if s == [] then None
    else if s[|s| - 1] == ':' then Some(|s| - 1)
    else
      var i := LastColon(s[..|s| - 1]);
      assert i.Some? ==> s[i.value + 1..] == s[..|s| - 1][i.value + 1..] + [s[|s| - 1]];
      assert s == s[..|s| - 1] + [s[|s| - 1]];
      i
  }

  function ParseMintField(key: string): Option<(string, int)> {
    var field := StripPrefix(key);
    match LastColon(field)
    case None => None
    case Some(i) =>
      match ParseI64(field[i + 1..])
      case None => None
      case Some(w) => Some((field[..i], w))
  }

  lemma StripUndoesPrefix(serial: string, w: int)
    ensures StripPrefix(IdempotencyKey(serial, w)) == Field(serial, w)
  {
    assert IdempotencyKey(serial, w) == PREFIX + Field(serial, w);
  }

  lemma {:induction false} LastColonAt(a: string, b: string)
    requires ':' !in b
    ensures LastColon(a + ":" + b) == Some(|a|)
    decreases |b|
  {
    var s := a + ":" + b;
    if b != [] {
      var b', c := b[..|b| - 1], b[|b| - 1];
      assert b == b' + [c];
      LastColonAt(a, b');
      assert s[..|s| - 1] == a + ":" + b' && s[|s| - 1] == c;
    }
  }

  /** Mint key round trip: any serial, colons and a `mint:` of its own included, and any window. */
  lemma MintKeyRoundTrip(serial: string, w: int)
    requires IsI64(w)
    ensures ParseMintField(IdempotencyKey(serial, w)) == Some((serial, w))
  {
    StripUndoesPrefix(serial, w);
    IntRoundTrip(w);
    LastColonAt(serial, PrintInt(w));
    var f := Field(serial, w);
    assert f[..|serial|] == serial && f[|serial| + 1..] == PrintInt(w);
  }

  /** The key is a serial, a colon, and a text without colons that parses to the window. */
  predicate Splits(key: string, serial: string, text: string, w: int) {
    StripPrefix(key) == serial + ":" + text && ':' !in text && ParseI64(text) == Some(w)
  }

  lemma SplitsParse(key: string, serial: string, text: string, w: int)
    requires Splits(key, serial, text, w)
    ensures ParseMintField(key) == Some((serial, w))
  {
    var field := StripPrefix(key);
    LastColonAt(serial, text);
    assert field[..|serial|] == serial && field[|serial| + 1..] == text;
  }

  lemma ParseSplits(key: string) returns (text: string)
    requires ParseMintField(key).Some?
    ensures Splits(key, ParseMintField(key).value.0, text, ParseMintField(key).value.1)
  {
    var field := StripPrefix(key);
    var i := LastColon(field).value;
    text := field[i + 1..];
    assert field == field[..i] + ":" + text;
  }

  /** Exactly the keys whose part after the last colon is an integer in range; the rest is the serial. */
  lemma ParseFieldIff(key: string, serial: string, w: int)
    ensures ParseMintField(key) == Some((serial, w)) <==> exists text :: Splits(key, serial, text, w)
  {
    if ParseMintField(key) == Some((serial, w)) {
      var text := ParseSplits(key);
    }
    if text :| Splits(key, serial, text, w) {
      SplitsParse(key, serial, text, w);
    }
  }

  /** A printed field names one mint. */
  lemma FieldInjective(a: string, v: int, b: string, w: int)
    requires IsI64(v) && IsI64(w) && Field(a, v) == Field(b, w)
    ensures a == b && v == w
  {
    assert IdempotencyKey(a, v) == PREFIX + Field(a, v);
    assert IdempotencyKey(b, w) == PREFIX + Field(b, w);
    MintKeyRoundTrip(a, v);
    MintKeyRoundTrip(b, w);
  }

  // ----- batch replies -----

  datatype ItemResult = ItemResult(key: string, success: bool)

  datatype Classification = Classification(confirmedFields: seq<string>, confirmed: nat, failed: nat)

  function SuccessFields(results: seq<ItemResult>): seq<string> {
    if results == [] then []
    else
      var r := results[|results| - 1];
      SuccessFields(results[..|results| - 1]) + if r.success then [StripPrefix(r.key)] else []
  }

  /** The loop over a batch reply. */
  method ClassifyBatchResults(results: seq<ItemResult>) returns (c: Classification)
    ensures c.confirmedFields == SuccessFields(results)
    ensures c.confirmed == |c.confirmedFields| && c.confirmed + c.failed == |results|
  {
    var fields: seq<string> := [];
    var failed := 0;
    for i := 0 to |results|
      invariant fields == SuccessFields(results[..i]) && |fields| + failed == i
    {
      assert results[..i + 1][..i] == results[..i];
      if results[i].success {
        fields := fields + [StripPrefix(results[i].key)];
      } else {
        failed := failed + 1;
      }
    }
    assert results[..|results|] == results;
    c := Classification(fields, |fields|, failed);
  }

  lemma {:induction false} SuccessFieldsHold(results: seq<ItemResult>, f: string)
    ensures f in SuccessFields(results) <==> exists r :: r in results && r.success && StripPrefix(r.key) == f
  {
    if results != [] {
      var pre, last := results[..|results| - 1], results[|results| - 1];
      SuccessFieldsHold(pre, f);
      assert results == pre + [last];
      if f in SuccessFields(results) {
        if f in SuccessFields(pre) {
          var r :| r in pre && r.success && StripPrefix(r.key) == f;
          assert r in results;
        } else {
          assert last in results;
        }
      }
    }
  }

  /** One requested mint. */
  datatype Request = Request(serial: string, windowMs: int)

  /** The outbox after removing the confirmed fields. */
  function RemoveFields<V>(outbox: map<string, V>, fields: seq<string>): map<string, V> {
    map f | f in outbox && f !in fields :: outbox[f]
  }

  /**
   A reply over the request's keys removes exactly the outbox entries of requests it marks
   successful, and never another entry.
   */
  lemma BatchReplyRemovesExactly<V>(outbox: map<string, V>, requests: seq<Request>, results: seq<ItemResult>,
                                    q: Request)
    requires forall x :: x in requests ==> IsI64(x.windowMs)
    requires IsI64(q.windowMs) && Field(q.serial, q.windowMs) in outbox
    requires forall r :: r in results ==> exists x :: x in requests && r.key == IdempotencyKey(x.serial, x.windowMs)
    ensures Field(q.serial, q.windowMs) !in RemoveFields(outbox, SuccessFields(results)) <==>
              q in requests && ItemResult(IdempotencyKey(q.serial, q.windowMs), true) in results
    ensures var left := RemoveFields(outbox, SuccessFields(results));
            forall f :: f in left ==> f in outbox && left[f] == outbox[f]
  {
    var f := Field(q.serial, q.windowMs);
    SuccessFieldsHold(results, f);
    StripUndoesPrefix(q.serial, q.windowMs);
    if f in SuccessFields(results) {
      var r :| r in results && r.success && StripPrefix(r.key) == f;
      var x :| x in requests && r.key == IdempotencyKey(x.serial, x.windowMs);
      StripUndoesPrefix(x.serial, x.windowMs);
      FieldInjective(x.serial, x.windowMs, q.serial, q.windowMs);
      assert r == ItemResult(IdempotencyKey(q.serial, q.windowMs), true);
    }
    if ItemResult(IdempotencyKey(q.serial, q.windowMs), true) in results {
      assert f in SuccessFields(results);
    }
  }
}
