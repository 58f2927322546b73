/** Strings as the service sees them: Go's `strings.TrimSpace`, SQL's `trim`,
    canonical UUID text, decimal integers and the order of text keys. */
module Text {

  datatype Option<+T> = None | Some(value: T)

  datatype Result<+T, +E> = Ok(value: T) | Err(error: E)

  /** `unicode.IsSpace`, the class `strings.TrimSpace` strips. */
  predicate IsSpace(c: char) {
    || c in {'\t', '\n', '\U{0B}', '\U{0C}', '\r', ' '}
    || c in {'\U{85}', '\U{A0}', '\U{1680}', '\U{2028}', '\U{2029}', '\U{202F}', '\U{205F}', '\U{3000}'}
    || '\U{2000}' <= c <= '\U{200A}'
  }

  /** The only character SQL's one-argument `trim` strips. */
  predicate IsPlainSpace(c: char) {
    c == ' '
  }

  function TrimLeft(strip: char -> bool, s: string): string {
    if s != "" && strip(s[0]) then TrimLeft(strip, s[1..]) else s
  }

  function TrimRight(strip: char -> bool, s: string): string {
    if s != "" && strip(s[|s| - 1]) then TrimRight(strip, s[..|s| - 1]) else s
  }

  function Trim(strip: char -> bool, s: string): string {
    TrimRight(strip, TrimLeft(strip, s))
  }

  function TrimSpace(s: string): string {
    Trim(IsSpace, s)
  }

  function SqlTrim(s: string): string {
    Trim(IsPlainSpace, s)
  }

  /** `strings.TrimSpace(s) == ""`, see `BlankText`. */
  predicate Blank(s: string) {
    forall i :: 0 <= i < |s| ==> IsSpace(s[i])
  }

  /** `NULLIF(trim(s), '') IS NULL`, see `BlankText`. */
  predicate SqlBlank(s: string) {
    forall i :: 0 <= i < |s| ==> s[i] == ' '
  }

  lemma {:induction false} TrimLeftKeeps(strip: char -> bool, s: string) returns (k: nat)
    ensures k <= |s| && TrimLeft(strip, s) == s[k..]
    ensures forall i :: 0 <= i < k ==> strip(s[i])
    ensures k < |s| ==> !strip(s[k])
  {
    if s != "" && strip(s[0]) {
      var j := TrimLeftKeeps(strip, s[1..]);
      k := j + 1;
      assert forall i :: 1 <= i < k ==> s[i] == s[1..][i - 1];
    } else {
      k := 0;
    }
  }

  lemma {:induction false} TrimRightKeeps(strip: char -> bool, s: string) returns (k: nat)
    ensures k <= |s| && TrimRight(strip, s) == s[..k]
    ensures forall i :: k <= i < |s| ==> strip(s[i])
    ensures 0 < k ==> !strip(s[k - 1])
  {
    if s != "" && strip(s[|s| - 1]) {
      var t := s[..|s| - 1];
      k := TrimRightKeeps(strip, t);
      assert s[..k] == t[..k];
    } else {
      k := |s|;
    }
  }

  /** Trimming leaves the middle: all before and after it is strippable, its two
      ends are not. */
  lemma TrimIsMiddle(strip: char -> bool, s: string) returns (a: nat, b: nat)
    ensures a <= b <= |s| && Trim(strip, s) == s[a..b]
    ensures forall i :: 0 <= i < a || b <= i < |s| ==> strip(s[i])
    ensures a < b ==> !strip(s[a]) && !strip(s[b - 1])
  {
    a := TrimLeftKeeps(strip, s);
    var n := TrimRightKeeps(strip, s[a..]);
    b := a + n;
    assert forall i :: b <= i < |s| ==> s[i] == s[a..][i - a];
  }

  /** Trimming leaves nothing exactly when every character is strippable. */
  lemma TrimsAway(strip: char -> bool, s: string)
    ensures Trim(strip, s) == "" <==> forall i :: 0 <= i < |s| ==> strip(s[i])
  {
    var a := TrimLeftKeeps(strip, s);
    var b := TrimRightKeeps(strip, s[a..]);
    if a < |s| {
      assert s[a..][0] == s[a];
    }
  }

  lemma TrimIdempotent(strip: char -> bool, s: string)
    ensures Trim(strip, Trim(strip, s)) == Trim(strip, s)
  {
    var a := TrimLeftKeeps(strip, s);
    var l := s[a..];
    var b := TrimRightKeeps(strip, l);
    var m := l[..b];
    assert m != "" ==> m[0] == s[a] && m[|m| - 1] == l[b - 1];
  }

  /** The two notions of blank text are what trimming empties. */
  lemma BlankText(s: string)
    ensures TrimSpace(s) == "" <==> Blank(s)
    ensures SqlTrim(s) == "" <==> SqlBlank(s)
  {
    TrimsAway(IsSpace, s);
    TrimsAway(IsPlainSpace, s);
  }

  predicate IsHex(c: char) {
    '0' <= c <= '9' || 'a' <= c <= 'f'
  }

  /** Canonical UUID text, the spelling PostgreSQL returns for a UUID column. */
  predicate IsUuid(s: string) {
    |s| == 36 && forall i :: 0 <= i < 36 ==> if i in {8, 13, 18, 23} then s[i] == '-' else IsHex(s[i])
  }

  lemma UuidIsTrimmed(s: string)
    requires IsUuid(s)
    ensures TrimSpace(s) == s && s != ""
  {
    assert !IsSpace(s[0]) && !IsSpace(s[35]);
  }

  /** Text order by code point. */
  predicate StrLess(a: string, b: string) {
    b != "" && (a == "" || a[0] < b[0] || (a[0] == b[0] && StrLess(a[1..], b[1..])))
  }

  lemma {:induction false} StrLessTransitive(a: string, b: string, c: string)
    requires StrLess(a, b) && StrLess(b, c)
    ensures StrLess(a, c)
  {
    if a != "" && a[0] == b[0] == c[0] {
      StrLessTransitive(a[1..], b[1..], c[1..]);
    }
  }

  lemma {:induction false} StrLessTotal(a: string, b: string)
    ensures a == b || StrLess(a, b) || StrLess(b, a)
    ensures !(StrLess(a, b) && StrLess(b, a))
    ensures !StrLess(a, a)
  {
    if a != "" && b != "" {
      StrLessTotal(a[1..], b[1..]);
      assert a[0] == b[0] && a[1..] == b[1..] ==> a == [a[0]] + a[1..] == [b[0]] + b[1..] == b;
    }
    if a != "" {
      StrLessTotal(a[1..], a[1..]);
    }
  }
}
