/**
 * String operations in which the model expresses the code's string tests and its two
 * regular-expression searches, and the decimal text `str(n)` of a number.
 */
module Strings {
  import opened Outcomes

  /** `p` occurs in `s` starting at index `k`. */
  predicate Occurs(s: string, p: string, k: nat) {
    k + |p| <= |s| && s[k..k + |p|] == p
  }

  /** `s.startswith(p)` */
  predicate StartsWith(s: string, p: string) {
    Occurs(s, p, 0)
  }

  lemma OccursChar(s: string, c: char, k: nat)
    ensures Occurs(s, [c], k) <==> k < |s| && s[k] == c
  {
    if k < |s| {
      assert s[k..k + 1] == [s[k]];
    }
  }

  /** The first index at or after `start` where `p` occurs in `s`. */
  function FindFrom(s: string, p: string, start: nat): (r: Option<nat>)
    requires start <= |s|
    ensures r.Some? ==> start <= r.value && Occurs(s, p, r.value)
    ensures r.Some? ==> forall k: nat :: start <= k < r.value ==> !Occurs(s, p, k)
    ensures r.None? ==> forall k: nat :: start <= k ==> !Occurs(s, p, k)
    decreases |s| - start
  {
    if start + |p| > |s| then None
    else if s[start..start + |p|] == p then Some(start)
    else
      assert |p| > 0;
      FindFrom(s, p, start + 1)
  }

  /** `p in s` */
  function Contains(s: string, p: string): (b: bool)
    ensures b <==> exists k: nat :: Occurs(s, p, k)
  {
    FindFrom(s, p, 0).Some?
  }

  /** The last index of `c` in `s`. */
  function LastIndexOf(s: string, c: char): (r: Option<nat>)
    ensures r.Some? ==> r.value < |s| && s[r.value] == c
    ensures r.Some? ==> forall k :: r.value < k < |s| ==> s[k] != c
    ensures r.None? ==> forall k :: 0 <= k < |s| ==> s[k] != c
  {
    if |s| == 0 then None
    else if s[|s| - 1] == c then Some(|s| - 1)
    else LastIndexOf(s[..|s| - 1], c)
  }

  /** `sep.join(parts)` */
  function Join(sep: string, parts: seq<string>): string
    decreases |parts|
  {
    if |parts| == 0 then ""
    else if |parts| == 1 then parts[0]
    else Join(sep, parts[..|parts| - 1]) + sep + parts[|parts| - 1]
  }

  /** Joined from the front: the first part, the separator, then the rest joined. */
  lemma {:induction false} JoinCons(sep: string, p: string, parts: seq<string>)
    requires |parts| >= 1
    ensures Join(sep, [p] + parts) == p + sep + Join(sep, parts)
    decreases |parts|
  {
    var n := |parts|;
    if n == 1 {
      assert ([p] + parts)[..1] == [p];
    } else {
      assert ([p] + parts)[..n] == [p] + parts[..n - 1];
      JoinCons(sep, p, parts[..n - 1]);
    }
  }

  predicate IsDigit(c: char) {
    '0' <= c <= '9'
  }

  /** `str(n)` for a natural number: its decimal digits, without leading zeros. */
  function NatToString(n: nat): (r: string)
    ensures |r| >= 1
    ensures forall i :: 0 <= i < |r| ==> IsDigit(r[i])
    ensures |r| > 1 ==> r[0] != '0'
    decreases n
  {
    if n < 10 then [('0' as int + n) as char]
    else NatToString(n / 10) + [('0' as int + n % 10) as char]
  }

  /** The number a string of decimal digits denotes (`int(s)`). */
  function DecimalValue(s: string): nat
    requires forall i :: 0 <= i < |s| ==> IsDigit(s[i])
  {
    if s == [] then 0
    else
      assert IsDigit(s[|s| - 1]);
      DecimalValue(s[..|s| - 1]) * 10 + (s[|s| - 1] as int - '0' as int)
  }

  /** Reading back the decimal text of `n` gives `n`. */
  lemma {:induction false} DecimalRoundTrip(n: nat)
    ensures DecimalValue(NatToString(n)) == n
    decreases n
  {
    if n >= 10 {
      var s := NatToString(n);
      assert s[..|s| - 1] == NatToString(n / 10);
      DecimalRoundTrip(n / 10);
    }
  }

  /**
   * The lines of `s`: the pieces between `'\n'` characters, where text after the
   * last newline (if any) forms a final line, as a reader of a line stream sees them.
   */
  function Lines(s: string): seq<string>
    decreases |s|
  {
    if s == [] then []
    else
      match FindFrom(s, "\n", 0)
      case None => [s]
      case Some(k) => [s[..k]] + Lines(s[k + 1..])
  }

  /** A line with no newline in it, followed by a newline, is read back as that line. */
  lemma LinesCons(line: string, rest: string)
    requires '\n' !in line
    ensures Lines(line + "\n" + rest) == [line] + Lines(rest)
  {
    var s := line + "\n" + rest;
    var r := FindFrom(s, "\n", 0);
    OccursChar(s, '\n', |line|);
    forall k: nat | k < |line|
      ensures !Occurs(s, "\n", k)
    {
      OccursChar(s, '\n', k);
      assert s[k] == line[k];
    }
    assert r == Some(|line|);
    assert s[..|line|] == line;
    assert s[|line| + 1..] == rest;
  }
}
