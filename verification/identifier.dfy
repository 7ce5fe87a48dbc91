/** Normalisation and validation of the listing identifier typed by the user:
    `raw.strip().upper()`, accepted when it starts with `"MLB"`. */
module Identifier {
  import opened Wrappers

  const Prefix := "MLB"

  /** Python's `str.isspace` for one character: the code points with
      bidirectional class WS, B or S, or general category Zs. */
  predicate IsSpace(c: char) {
    var n := c as int;
    || (0x09 <= n <= 0x0D) || (0x1C <= n <= 0x20)
    || n == 0x85 || n == 0xA0 || n == 0x1680
    || (0x2000 <= n <= 0x200A) || n == 0x2028 || n == 0x2029
    || n == 0x202F || n == 0x205F || n == 0x3000
  }

  /** Every character of `s[lo..hi]` is whitespace. */
  predicate SpaceBetween(s: string, lo: nat, hi: nat)
    requires lo <= hi <= |s|
  {
    forall p :: lo <= p < hi ==> IsSpace(s[p])
  }

  /** Length of the run of whitespace at the start of `s`. */
  function LeadingSpaces(s: string): (n: nat)
    ensures n <= |s|
    ensures SpaceBetween(s, 0, n)
    ensures n == |s| || !IsSpace(s[n])
  {
    if s == [] || !IsSpace(s[0]) then 0
    else 1 + LeadingSpaces(s[1..])
  }

  /** Length of the run of whitespace at the end of `s`. */
  function TrailingSpaces(s: string): (n: nat)
    ensures n <= |s|
    ensures SpaceBetween(s, |s| - n, |s|)
    ensures n == |s| || !IsSpace(s[|s| - n - 1])
  {
    if s == [] || !IsSpace(s[|s| - 1]) then 0
    else 1 + TrailingSpaces(s[..|s| - 1])
  }

  /** `t` is what is left of `s` after cutting the whitespace-only runs
      `s[..i]` and `s[i + |t|..]` from its two ends. */
  predicate Trims(s: string, i: nat, t: string) {
    && i + |t| <= |s|
    && s[i..i + |t|] == t
    && SpaceBetween(s, 0, i)
    && SpaceBetween(s, i + |t|, |s|)
  }

  /** Neither end of `t` is whitespace. */
  predicate Tight(t: string) {
    t == [] || (!IsSpace(t[0]) && !IsSpace(t[|t| - 1]))
  }

  /** `s.strip()`. */
  function Strip(s: string): (t: string)
    ensures Trims(s, LeadingSpaces(s), t)
    ensures Tight(t)
  {
    var i := LeadingSpaces(s);
    var rest := s[i..];
    var j := TrailingSpaces(rest);
    rest[..|rest| - j]
  }

  /** Python's `str.strip()` is pinned down by its two properties: any
      trimming of `s` whose ends are not whitespace is `Strip(s)`. */
  lemma StripUnique(s: string, i: nat, t: string)
    requires Trims(s, i, t) && Tight(t)
    ensures t == Strip(s)
  {
  }

  /** Stripping twice changes nothing. */
  lemma StripIdempotent(s: string)
    ensures Strip(Strip(s)) == Strip(s)
  {
  }

  /** `str.upper()` on one character, for the ASCII letters. */
  function UpperChar(c: char): char {
    if 'a' <= c <= 'z' then (c as int - 32) as char else c
  }

  /** `s.upper()`, character by character. */
  function Upper(s: string): (r: string)
    ensures |r| == |s|
    ensures forall i :: 0 <= i < |s| ==> r[i] == UpperChar(s[i])
  {
    seq(|s|, i requires 0 <= i < |s| => UpperChar(s[i]))
  }

  /** Upper-casing leaves no lower-case ASCII letter and is idempotent. */
  lemma UpperIdempotent(s: string)
    ensures forall i :: 0 <= i < |s| ==> !('a' <= Upper(s)[i] <= 'z')
    ensures Upper(Upper(s)) == Upper(s)
  {
  }

  /** Upper-casing neither creates nor removes whitespace, so the order of
      strip and upper does not matter. */
  lemma StripUpperCommute(s: string)
    ensures Upper(Strip(s)) == Strip(Upper(s))
  {
    var t := Strip(s);
    var i := LeadingSpaces(s);
    var us := Upper(s);
    var ut := Upper(t);
    assert us[i..i + |t|] == ut;
    UpperKeepsSpace(s);
    assert Trims(us, i, ut);
    StripUnique(us, i, ut);
  }

  /** A character is whitespace exactly when its upper-cased form is. */
  lemma UpperKeepsSpace(s: string)
    ensures forall p :: 0 <= p < |s| ==> (IsSpace(Upper(s)[p]) <==> IsSpace(s[p]))
  {
  }

  /** `raw.strip().upper()`. */
  function Normalize(raw: string): string {
    Upper(Strip(raw))
  }

  /** `id.startswith("MLB")`. */
  predicate HasPrefix(id: string) {
    |id| >= |Prefix| && id[..|Prefix|] == Prefix
  }

  /** `MLB` is a prefix of the upper-cased string exactly when the string
      starts with `m`, `l`, `b` in either case. */
  predicate CaseInsensitivePrefix(t: string) {
    && |t| >= 3
    && (t[0] == 'm' || t[0] == 'M')
    && (t[1] == 'l' || t[1] == 'L')
    && (t[2] == 'b' || t[2] == 'B')
  }

  /** The identifier check at the top of the tool: the normalised identifier
      when it starts with `MLB`, `None` when it is rejected. */
  function Validate(raw: string): (r: Option<string>)
    ensures r.Some? <==> CaseInsensitivePrefix(Strip(raw))
    ensures r.Some? ==> r.value == Normalize(raw) && HasPrefix(r.value)
    ensures r.Some? ==> |r.value| == |Strip(raw)| && Tight(r.value)
  {
    var id := Normalize(raw);
    UpperPrefix(Strip(raw));
    UpperKeepsSpace(Strip(raw));
    if HasPrefix(id) then Some(id) else None
  }

  lemma UpperPrefix(t: string)
    ensures HasPrefix(Upper(t)) <==> CaseInsensitivePrefix(t)
  {
    var u := Upper(t);
    if |t| >= 3 {
      assert u[..3] == [UpperChar(t[0]), UpperChar(t[1]), UpperChar(t[2])];
    }
  }

  /** `" mlb123 "` is accepted as `"MLB123"`. */
  lemma AcceptsPaddedLowerCase()
    ensures Validate(" mlb123 ") == Some("MLB123")
  {
    var raw := " mlb123 ";
    assert raw[1..7] == "mlb123";
    assert Trims(raw, 1, "mlb123");
    StripUnique(raw, 1, "mlb123");
    var u := Upper("mlb123");
    assert u[0] == 'M' && u[1] == 'L' && u[2] == 'B' && u[3] == '1' && u[4] == '2' && u[5] == '3';
    assert u == "MLB123";
  }

  /** `"xmlb1"` is rejected: the prefix must open the identifier. */
  lemma RejectsMisplacedPrefix()
    ensures Validate("xmlb1") == None
  {
    var raw := "xmlb1";
    assert raw[0..5] == raw;
    assert Trims(raw, 0, raw);
    StripUnique(raw, 0, raw);
  }
}
