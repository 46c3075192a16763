/**
 * The few JavaScript string operations the client relies on:
 * `String.prototype.indexOf`, `split` and `replace` with a string pattern,
 * `startsWith`, and the decimal text of an integer (`String(n)`).
 */
module Text {
  import opened Wrappers

  predicate StartsWith(s: string, prefix: string) {
    |prefix| <= |s| && s[..|prefix|] == prefix
  }

  /** `p` occurs in `s` at position `j`. */
  predicate OccursAt(s: string, p: string, j: int) {
    0 <= j && j + |p| <= |s| && s[j..j + |p|] == p
  }

  predicate Contains(s: string, p: string) {
    exists j :: 0 <= j <= |s| && OccursAt(s, p, j)
  }

  /** The leftmost occurrence of `p` in `s` at or after `k`, as `s.indexOf(p, k)` finds it. */
  function IndexFrom(s: string, p: string, k: nat): (r: Option<nat>)
    decreases |s| - k
    ensures r.Some? ==> k <= r.value && OccursAt(s, p, r.value)
    ensures r.Some? ==> forall j :: k <= j < r.value ==> !OccursAt(s, p, j)
    ensures r.None? ==> forall j :: k <= j ==> !OccursAt(s, p, j)
  {
    if k + |p| > |s| then None
    else if s[k..k + |p|] == p then Some(k)
    else IndexFrom(s, p, k + 1)
  }

  /** `s.split(sep)` for a non-empty string separator. */
  function Split(s: string, sep: string): (pieces: seq<string>)
    requires |sep| > 0
    decreases |s|
  {
    match IndexFrom(s, sep, 0)
    case None => [s]
    case Some(i) => [s[..i]] + Split(s[i + |sep|..], sep)
  }

  /** `pieces.join(sep)`. */
  function Join(pieces: seq<string>, sep: string): string {
    if |pieces| == 0 then ""
    else if |pieces| == 1 then pieces[0]
    else pieces[0] + sep + Join(pieces[1..], sep)
  }

  /** Splitting loses nothing: joining the pieces back gives the original text. */
  lemma {:induction false} SplitJoin(s: string, sep: string)
    requires |sep| > 0
    ensures Join(Split(s, sep), sep) == s
    decreases |s|
  {
    var r := IndexFrom(s, sep, 0);
    if r.Some? {
      var i := r.value;
      var head, rest := s[..i], s[i + |sep|..];
      SplitJoin(rest, sep);
      var tail := Split(rest, sep);
      assert Split(s, sep) == [head] + tail;
      JoinCons(head, tail, sep);
      assert s == head + s[i..i + |sep|] + rest;
    }
  }

  lemma JoinCons(head: string, tail: seq<string>, sep: string)
    requires |tail| >= 1
    ensures Join([head] + tail, sep) == head + sep + Join(tail, sep)
  {
    assert ([head] + tail)[1..] == tail;
  }

  /** No piece of a split contains the separator. */
  lemma {:induction false} SplitPiecesAvoidSeparator(s: string, sep: string)
    requires |sep| > 0
    ensures forall k :: 0 <= k < |Split(s, sep)| ==> !Contains(Split(s, sep)[k], sep)
    decreases |s|
  {
    match IndexFrom(s, sep, 0)
    case None =>
      assert Split(s, sep) == [s];
    case Some(i) =>
      var rest := s[i + |sep|..];
      SplitPiecesAvoidSeparator(rest, sep);
      assert Split(s, sep) == [s[..i]] + Split(rest, sep);
      forall j | OccursAt(s[..i], sep, j) ensures false {
        assert s[..i][j..j + |sep|] == s[j..j + |sep|];
        assert OccursAt(s, sep, j);
      }
      forall k | 0 <= k < |Split(s, sep)| ensures !Contains(Split(s, sep)[k], sep) {
        if k > 0 {
          assert Split(s, sep)[k] == Split(rest, sep)[k - 1];
        }
      }
  }

  /** A split that yields two pieces or more found the separator. */
  lemma SplitFoundSeparator(s: string, sep: string)
    requires |sep| > 0 && |Split(s, sep)| >= 2
    ensures Contains(s, sep)
  {
    var r := IndexFrom(s, sep, 0);
    if r.Some? {
      assert OccursAt(s, sep, r.value);
    }
  }

  /** Splitting on a character that `head` lacks cuts right after `head`. */
  lemma SplitAtFirst(head: string, c: char, rest: string)
    requires c !in head
    ensures Split(head + [c] + rest, [c]) == [head] + Split(rest, [c])
  {
    var s := head + [c] + rest;
    assert s[|head|..|head| + 1] == [c];
    assert OccursAt(s, [c], |head|);
    forall i | 0 <= i < |head| ensures !OccursAt(s, [c], i) {
      assert s[i..i + 1] == [head[i]];
    }
    var r := IndexFrom(s, [c], 0);
    assert r.Some?;
    assert r.value == |head|;
    assert s[..|head|] == head;
    assert s[|head| + 1..] == rest;
  }

  /** `s.replace(p, r)` with a string pattern: only the leftmost occurrence is replaced. */
  function ReplaceFirst(s: string, p: string, r: string): string {
    match IndexFrom(s, p, 0)
    case None => s
    case Some(i) => s[..i] + r + s[i + |p|..]
  }

  /** Replacing the first occurrence of a prefix by nothing removes exactly that prefix. */
  lemma ReplaceFirstOfPrefix(s: string, p: string)
    requires StartsWith(s, p)
    ensures ReplaceFirst(s, p, "") == s[|p|..]
  {
    assert OccursAt(s, p, 0);
  }

  /** Every occurrence of the character `a` replaced by `b`, as `s.replace(/a/g, b)`. */
  function ReplaceAllChar(s: string, a: char, b: char): (r: string)
    ensures |r| == |s|
    ensures forall i :: 0 <= i < |s| ==> r[i] == (if s[i] == a then b else s[i])
  {
    if s == [] then []
    else [if s[0] == a then b else s[0]] + ReplaceAllChar(s[1..], a, b)
  }

  // ---------------------------------------------------------------
  // Decimal numerals
  // ---------------------------------------------------------------

  predicate IsDigit(c: char) { '0' <= c <= '9' }

  predicate AllDigits(s: string) {
    forall i :: 0 <= i < |s| ==> IsDigit(s[i])
  }

  function DigitChar(d: nat): (c: char)
    requires d < 10
    ensures IsDigit(c) && (c as int) - ('0' as int) == d
  {
    (('0' as int) + d) as char
  }

  function DigitsValue(s: string): nat
    requires AllDigits(s)
  {
    if s == [] then 0
    else 10 * DigitsValue(s[..|s| - 1]) + ((s[|s| - 1] as int) - ('0' as int))
  }

  /** The shortest decimal text of a natural number. */
  function NatToDigits(n: nat): (s: string)
    ensures |s| >= 1
  {
    if n < 10 then [DigitChar(n)] else NatToDigits(n / 10) + [DigitChar(n % 10)]
  }

  /** `String(n)` for an integer `n`. */
  function IntToDecimal(n: int): string {
    if n < 0 then "-" + NatToDigits(-n) else NatToDigits(n)
  }

  /** Reading back the digits of `n` gives `n`. */
  lemma {:induction false} NatToDigitsRoundTrip(n: nat)
    ensures AllDigits(NatToDigits(n))
    ensures DigitsValue(NatToDigits(n)) == n
  {
    if n >= 10 {
      NatToDigitsRoundTrip(n / 10);
      var s := NatToDigits(n);
      assert s[..|s| - 1] == NatToDigits(n / 10);
    }
  }
}
