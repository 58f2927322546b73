/** The retry header and the bounded chain of attempts it drives. */
module Retry {
  import opened Text

  const RETRY_HEADER := "x-ofm-retry-attempt"
  const MAX_INT64 := 0x7FFF_FFFF_FFFF_FFFF

  datatype Header = Header(key: string, value: string)

  // ---- strconv -------------------------------------------------------------

  predicate IsDigit(c: char) {
    '0' <= c <= '9'
  }

  function DigitOf(n: nat): char
    requires n < 10
  {
    '0' + n as char
  }

  /** Value of a run of digits, most significant first. */
  function DigitsValue(s: string): Option<nat> {
    if s == "" then Some(0)
    else
      var last := s[|s| - 1];
      var front := DigitsValue(s[..|s| - 1]);
      if front.Some? && IsDigit(last) then Some(10 * front.value + (last as int - '0' as int)) else None
  }

  /** `strconv.Atoi`: an optional sign, then digits, within 64 bits. */
  function Atoi(s: string): Option<int> {
    var signed := s != "" && (s[0] == '-' || s[0] == '+');
    var digits := if signed then s[1..] else s;
    var value := if digits == "" then None else DigitsValue(digits);
    if value.None? then None
    else
      var v: int := value.value;
      var n := if signed && s[0] == '-' then -v else v;
      if -MAX_INT64 - 1 <= n <= MAX_INT64 then Some(n) else None
  }

  function Itoa(n: nat): string {
    if n < 10 then [DigitOf(n)] else Itoa(n / 10) + [DigitOf(n % 10)]
  }

  lemma {:induction false} ItoaDigits(n: nat)
    ensures Itoa(n) != "" && IsDigit(Itoa(n)[0]) && DigitsValue(Itoa(n)) == Some(n)
  {
    var s := Itoa(n);
    if n < 10 {
      assert s[..0] == "";
    } else {
      ItoaDigits(n / 10);
      assert s[..|s| - 1] == Itoa(n / 10);
    }
  }

  lemma AtoiInvertsItoa(n: nat)
    requires n <= MAX_INT64
    ensures Atoi(Itoa(n)) == Some(n)
  {
    ItoaDigits(n);
  }

  // ---- the header ------------------------------------------------------------

  predicate Carries(h: Header) {
    h.key == RETRY_HEADER && Atoi(h.value).Some? && Atoi(h.value).value > 0
  }

  /** The attempt a message is on: the first positive retry header, else 1. */
  function AttemptOf(headers: seq<Header>): nat {
    if headers == [] then 1
    else if Carries(headers[0]) then Atoi(headers[0].value).value
    else AttemptOf(headers[1..])
  }

  /** Searches the headers in order and stops at the first usable one. */
  method RetryAttempt(headers: seq<Header>) returns (n: nat)
    ensures n == AttemptOf(headers)
  {
    for i := 0 to |headers|
      invariant AttemptOf(headers) == AttemptOf(headers[i..])
    {
      var h := headers[i];
      assert headers[i..][0] == h && headers[i..][1..] == headers[i + 1..];
      if h.key == RETRY_HEADER {
        var v := Atoi(h.value);
        if v.Some? && v.value > 0 {
          return v.value;
        }
      }
    }
    return 1;
  }

  lemma {:induction false} AttemptIsFirstCarried(headers: seq<Header>)
    ensures AttemptOf(headers) >= 1
    ensures (forall h :: h in headers ==> !Carries(h)) ==> AttemptOf(headers) == 1
    ensures forall i :: 0 <= i < |headers| && Carries(headers[i]) && (forall j :: 0 <= j < i ==> !Carries(headers[j]))
              ==> AttemptOf(headers) == Atoi(headers[i].value).value
  {
    if headers != [] && !Carries(headers[0]) {
      AttemptIsFirstCarried(headers[1..]);
    }
  }

  function Without(headers: seq<Header>): seq<Header> {
    if headers == [] then []
    else if headers[0].key == RETRY_HEADER then Without(headers[1..])
    else [headers[0]] + Without(headers[1..])
  }

  /** The headers of a requeued copy: the retry header set to the attempt. */
  function Requeued(headers: seq<Header>, attempt: nat): seq<Header> {
    Without(headers) + [Header(RETRY_HEADER, Itoa(attempt))]
  }

  lemma {:induction false} AttemptAfter(front: seq<Header>, last: Header)
    requires forall h :: h in front ==> h.key != RETRY_HEADER
    requires Carries(last)
    ensures AttemptOf(front + [last]) == Atoi(last.value).value
  {
    if front != [] {
      assert (front + [last])[1..] == front[1..] + [last];
      AttemptAfter(front[1..], last);
    }
  }

  lemma {:induction false} WithoutHasNone(headers: seq<Header>)
    ensures forall h :: h in Without(headers) ==> h.key != RETRY_HEADER
  {
    if headers != [] {
      WithoutHasNone(headers[1..]);
    }
  }

  /** Indices of the headers a copy keeps: in order, all but the retry header,
      which the copy carries once, at its end. */
  ghost predicate KeptAt(copy: seq<Header>, headers: seq<Header>, at: seq<nat>) {
    && |copy| == |at| + 1 && copy[|at|].key == RETRY_HEADER
    && (forall j, k :: 0 <= j < k < |at| ==> at[j] < at[k])
    && (forall k :: 0 <= k < |at| ==> at[k] < |headers| && copy[k] == headers[at[k]])
    && (forall i: nat :: i < |headers| ==> (i in at <==> headers[i].key != RETRY_HEADER))
  }

  lemma {:induction false} WithoutKeeps(headers: seq<Header>, n: nat) returns (at: seq<nat>)
    requires n <= |headers|
    ensures |at| == |Without(headers[n..])|
    ensures forall j, k :: 0 <= j < k < |at| ==> at[j] < at[k]
    ensures forall k :: 0 <= k < |at| ==> n <= at[k] < |headers| && Without(headers[n..])[k] == headers[at[k]]
    ensures forall i: nat :: n <= i < |headers| ==> (i in at <==> headers[i].key != RETRY_HEADER)
    decreases |headers| - n
  {
    if n == |headers| {
      at := [];
    } else {
      at := WithoutKeeps(headers, n + 1);
      assert headers[n..][0] == headers[n] && headers[n..][1..] == headers[n + 1..];
      if headers[n].key != RETRY_HEADER {
        at := [n] + at;
      }
    }
  }

  /** A requeued copy keeps every other header, in order. */
  lemma RequeuedKeeps(headers: seq<Header>, attempt: nat)
    ensures exists at :: KeptAt(Requeued(headers, attempt), headers, at)
  {
    var at := WithoutKeeps(headers, 0);
    assert headers[0..] == headers;
    assert KeptAt(Requeued(headers, attempt), headers, at);
  }

  /** The consumer reads back the attempt the retry queue was given. */
  lemma RequeuedAttempt(headers: seq<Header>, attempt: nat)
    requires 0 < attempt <= MAX_INT64
    ensures AttemptOf(Requeued(headers, attempt)) == attempt
  {
    AtoiInvertsItoa(attempt);
    WithoutHasNone(headers);
    AttemptAfter(Without(headers), Header(RETRY_HEADER, Itoa(attempt)));
  }
}
