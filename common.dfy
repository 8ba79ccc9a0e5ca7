/** Values shared by the whole application: optional and fallible values, the JSON values
    exchanged with the browser and the AI service, the uploaded file as the browser
    describes it, and the few JavaScript string and truthiness rules the handlers rely on. */
module Common {

  datatype Option<+T> = None | Some(value: T)

  /** `Err` carries the message of a thrown JavaScript error. */
  datatype Result<+T, +E> = Ok(value: T) | Err(error: E)

  /** A parsed JSON value. Objects keep their members in entry order. */
  datatype Json =
    | JNull
    | JBool(b: bool)
    | JNumber(n: real)
    | JString(s: string)
    | JArray(items: seq<Json>)
    | JObject(members: seq<(string, Json)>)

  /** A `File` object: its name, its MIME type (`file.type`) and its size in bytes. */
  datatype UploadFile = UploadFile(name: string, mimeType: string, size: nat)

  /** JavaScript truthiness of a JSON value (`if (v)`, `v || d`). */
  predicate Truthy(j: Json) {
    match j
    case JNull => false
    case JBool(b) => b
    case JNumber(n) => n != 0.0
    case JString(s) => s != ""
    case JArray(_) => true
    case JObject(_) => true
  }

  /** Truthiness of a property read that may be `undefined` (None). */
  predicate TruthyValue(o: Option<Json>) {
    o.Some? && Truthy(o.value)
  }

  /** Truthiness of an optional string (`null`/`undefined` is None). */
  predicate TruthyString(o: Option<string>) {
    o.Some? && o.value != ""
  }

  /** `x || fallback` for a number that may be missing: a missing value or 0 gives `fallback`. */
  function NumberOr(x: Option<real>, fallback: real): (r: real)
    ensures x.Some? && x.value != 0.0 ==> r == x.value
    ensures x.None? || x.value == 0.0 ==> r == fallback
  {
    if x.Some? && x.value != 0.0 then x.value else fallback
  }

  /** The value of member `key` among `members`, the first one if the key repeats. */
  function Lookup(members: seq<(string, Json)>, key: string): (r: Option<Json>)
    ensures r.Some? <==> exists i :: 0 <= i < |members| && members[i].0 == key
    ensures r.Some? ==> exists i :: 0 <= i < |members| && members[i] == (key, r.value)
                                    && forall j :: 0 <= j < i ==> members[j].0 != key
  {
    if members == [] then None
    else if members[0].0 == key then Some(members[0].1)
    else
      var rest := Lookup(members[1..], key);
      assert forall i :: 1 <= i < |members| ==> members[i] == members[1..][i - 1];
      rest
  }

  /** `j.key` on a value that is not `null`: `undefined` (None) unless `j` is an object with that key. */
  function Member(j: Json, key: string): (r: Option<Json>)
    ensures r.Some? ==> j.JObject? && exists i :: 0 <= i < |j.members| && j.members[i] == (key, r.value)
    ensures j.JObject? && (exists i :: 0 <= i < |j.members| && j.members[i].0 == key) ==> r.Some?
  {
    if j.JObject? then Lookup(j.members, key) else None
  }

  /** Both members of a two-member object are found under their keys. */
  lemma LookupPair(k1: string, v1: Json, k2: string, v2: Json)
    requires |k1| != |k2|
    ensures Lookup([(k1, v1), (k2, v2)], k1) == Some(v1)
    ensures Lookup([(k1, v1), (k2, v2)], k2) == Some(v2)
  {
    var ms := [(k1, v1), (k2, v2)];
    assert ms[1..] == [(k2, v2)];
    assert Lookup(ms[1..], k2) == Some(v2);
  }

  // ---------------------------------------------------------------- strings

  /** The characters JavaScript's `String.prototype.trim` removes: WhiteSpace and LineTerminator. */
  predicate IsWhitespace(c: char) {
    c == '\t' || c == '\n' || c == '\U{B}' || c == '\U{C}' || c == '\r' || c == ' '
    || c == '\U{A0}' || c == '\U{1680}' || ('\U{2000}' <= c <= '\U{200A}')
    || c == '\U{2028}' || c == '\U{2029}' || c == '\U{202F}' || c == '\U{205F}'
    || c == '\U{3000}' || c == '\U{FEFF}'
  }

  /** The first index at or after `i` that does not hold whitespace, `|s|` if there is none. */
  function SkipWhitespace(s: string, i: nat): (k: nat)
    requires i <= |s|
    ensures i <= k <= |s|
    ensures forall j :: i <= j < k ==> IsWhitespace(s[j])
    ensures k < |s| ==> !IsWhitespace(s[k])
    decreases |s| - i
  {
    if i < |s| && IsWhitespace(s[i]) then SkipWhitespace(s, i + 1) else i
  }

  /** The end of `s[lo..e]` once the whitespace at its end is cut off. */
  function BackWhitespace(s: string, lo: nat, e: nat): (k: nat)
    requires lo <= e <= |s|
    ensures lo <= k <= e
    ensures forall j :: k <= j < e ==> IsWhitespace(s[j])
    ensures k > lo ==> !IsWhitespace(s[k - 1])
    decreases e
  {
    if e > lo && IsWhitespace(s[e - 1]) then BackWhitespace(s, lo, e - 1) else e
  }

  /** `s.trim()`: the infix of `s` left once the whitespace at both ends is cut off. */
  function Trim(s: string): (r: string)
    ensures |r| <= |s|
    ensures exists k :: OccursAt(s, r, k)
                        && (forall i :: 0 <= i < k ==> IsWhitespace(s[i]))
                        && (forall i :: k + |r| <= i < |s| ==> IsWhitespace(s[i]))
    ensures r != [] ==> !IsWhitespace(r[0]) && !IsWhitespace(r[|r| - 1])
  {
    var a := SkipWhitespace(s, 0);
    var e := BackWhitespace(s, a, |s|);
    assert a < |s| ==> e > a;
    assert OccursAt(s, s[a..e], a);
    s[a..e]
  }

  /** `!s.trim()`: nothing but whitespace, so that nothing is left after trimming. */
  predicate IsBlank(s: string) {
    forall i :: 0 <= i < |s| ==> IsWhitespace(s[i])
  }

  lemma BlankIffTrimEmpty(s: string)
    ensures IsBlank(s) <==> Trim(s) == []
  {
    var a := SkipWhitespace(s, 0);
    var e := BackWhitespace(s, a, |s|);
    if a < |s| {
      assert e > a;
      assert !IsWhitespace(s[a]);
    }
  }

  /** `needle` occurs in `hay` starting at index `k`. */
  predicate OccursAt(hay: string, needle: string, k: int) {
    0 <= k <= |hay| - |needle| && hay[k..k + |needle|] == needle
  }

  /** `needle` occurs in `hay` as a contiguous infix. */
  ghost predicate Contains(hay: string, needle: string) {
    exists k :: OccursAt(hay, needle, k)
  }

  lemma ContainsInfix(pre: string, mid: string, post: string)
    ensures OccursAt(pre + mid + post, mid, |pre|)
    ensures Contains(pre + mid + post, mid)
  {
    var h := pre + mid + post;
    assert h[|pre|..|pre| + |mid|] == mid;
    assert OccursAt(h, mid, |pre|);
  }

  lemma ContainsTransitive(a: string, b: string, c: string)
    requires Contains(a, b) && Contains(b, c)
    ensures Contains(a, c)
  {
    var k :| OccursAt(a, b, k);
    var m :| OccursAt(b, c, m);
    assert a[k + m..k + m + |c|] == c by {
      forall i | 0 <= i < |c| ensures a[k + m + i] == c[i] {
        assert a[k..k + |b|][m + i] == b[m + i];
        assert b[m..m + |c|][i] == c[i];
      }
    }
    assert OccursAt(a, c, k + m);
  }

  // ---------------------------------------------------------------- numbers as text

  predicate IsDigits(s: string) {
    forall i :: 0 <= i < |s| ==> '0' <= s[i] <= '9'
  }

  function DigitChar(d: nat): (c: char)
    requires d < 10
    ensures '0' <= c <= '9' && c as int - '0' as int == d
  {
    ('0' as int + d) as char
  }

  /** The decimal text JavaScript gives a non-negative integer in a template literal. */
  function NatToString(n: nat): (s: string)
    ensures s != [] && IsDigits(s)
    ensures |s| > 1 ==> s[0] != '0'
    decreases n
  {
    if n < 10 then [DigitChar(n)] else NatToString(n / 10) + [DigitChar(n % 10)]
  }

  /** The number a string of decimal digits denotes. */
  function DecimalValue(s: string): nat
    requires IsDigits(s)
  {
    if s == [] then 0
    else DecimalValue(s[..|s| - 1]) * 10 + (s[|s| - 1] as int - '0' as int)
  }

  lemma {:induction false} DecimalValueOfNatToString(n: nat)
    ensures DecimalValue(NatToString(n)) == n
    decreases n
  {
    if n >= 10 {
      var s := NatToString(n);
      assert s[..|s| - 1] == NatToString(n / 10);
      DecimalValueOfNatToString(n / 10);
    }
  }

  /** Distinct numbers are written differently, so block numbers identify their blocks. */
  lemma NatToStringInjective(m: nat, n: nat)
    requires NatToString(m) == NatToString(n)
    ensures m == n
  {
    DecimalValueOfNatToString(m);
    DecimalValueOfNatToString(n);
  }

  function Min(a: real, b: real): (r: real)
    ensures r <= a && r <= b && (r == a || r == b)
  {
    if a <= b then a else b
  }
}
