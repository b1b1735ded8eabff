/** Trimming and splitting, as Rust's `str` does them. */
module Text {

  predicate IsSpace(c: char) {
    var n := c as int;
    || 0x09 <= n <= 0x0d || n == 0x20 || n == 0x85 || n == 0xa0 || n == 0x1680
    || 0x2000 <= n <= 0x200a || n == 0x2028 || n == 0x2029 || n == 0x202f || n == 0x205f || n == 0x3000
  }

  function TrimLeft(s: string): (r: string)
    ensures r == [] || !IsSpace(r[0])
  {
    if s != [] && IsSpace(s[0]) then TrimLeft(s[1..]) else s
  }

  function TrimRight(s: string): (r: string)
    ensures r == [] || !IsSpace(r[|r| - 1])
    ensures r <= s
  {
    if s != [] && IsSpace(s[|s| - 1]) then TrimRight(s[..|s| - 1]) else s
  }

  function Trim(s: string): (r: string)
    ensures r == [] || (!IsSpace(r[0]) && !IsSpace(r[|r| - 1]))
  {
    TrimRight(TrimLeft(s))
  }

  /** Trimming drops white space alone, at both ends: the text is lead + trimmed + trail. */
  lemma TrimDropsSpace(s: string) returns (lead: string, trail: string)
    ensures s == lead + Trim(s) + trail
    ensures (forall c :: c in lead ==> IsSpace(c)) && (forall c :: c in trail ==> IsSpace(c))
  {
    lead := LeadOf(s);
    trail := TrailOf(TrimLeft(s));
  }

  lemma {:induction false} LeadOf(s: string) returns (lead: string)
    ensures s == lead + TrimLeft(s) && forall c :: c in lead ==> IsSpace(c)
  {
    lead := [];
    if s != [] && IsSpace(s[0]) {
      var rest := LeadOf(s[1..]);
      lead := [s[0]] + rest;
    }
  }

  lemma {:induction false} TrailOf(s: string) returns (trail: string)
    ensures s == TrimRight(s) + trail && forall c :: c in trail ==> IsSpace(c)
  {
    trail := [];
    if s != [] && IsSpace(s[|s| - 1]) {
      var rest := TrailOf(s[..|s| - 1]);
      trail := rest + [s[|s| - 1]];
    }
  }

  /** The parts between separators; there is always at least one. */
  function Split(s: string, sep: char): (parts: seq<string>)
    ensures |parts| >= 1 && Join(parts, sep) == s
    ensures forall p :: p in parts ==> sep !in p
  {
    if s == [] then [[]]
    else
      var rest := Split(s[1..], sep);
      if s[0] == sep then [[]] + rest else [[s[0]] + rest[0]] + rest[1..]
  }

  function Join(parts: seq<string>, sep: char): string
    requires |parts| >= 1
  {
    if |parts| == 1 then parts[0] else parts[0] + [sep] + Join(parts[1..], sep)
  }
}
