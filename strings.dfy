/**
 * The string operations of JavaScript that the SDK uses: `startsWith`,
 * `includes`, `indexOf`, `split` on one character, `join`, and `toLowerCase`
 * (ASCII letters only).
 */
module Strings {

  predicate StartsWith(s: string, prefix: string) {
    |prefix| <= |s| && s[..|prefix|] == prefix
  }

  predicate EndsWith(s: string, suffix: string) {
    |suffix| <= |s| && s[|s| - |suffix|..] == suffix
  }

  /** `sub` occurs in `s` starting at position `i`. */
  ghost predicate OccursAt(sub: string, s: string, i: nat) {
    i + |sub| <= |s| && s[i..i + |sub|] == sub
  }

  /** `sub` occurs in `s` at some position. */
  ghost predicate OccursIn(sub: string, s: string) {
    exists i: nat :: OccursAt(sub, s, i)
  }

  /** `s.includes(sub)`, by scanning the start positions from the left. */
  predicate Contains(s: string, sub: string)
    decreases |s|
  {
    StartsWith(s, sub) || (|s| > 0 && Contains(s[1..], sub))
  }

  lemma {:induction false} ContainsIsOccurrence(s: string, sub: string)
    ensures Contains(s, sub) <==> OccursIn(sub, s)
    decreases |s|
  {
    if StartsWith(s, sub) {
      assert OccursAt(sub, s, 0);
    } else if |s| == 0 {
    } else {
      ContainsIsOccurrence(s[1..], sub);
      if OccursIn(sub, s[1..]) {
        var i: nat :| OccursAt(sub, s[1..], i);
        assert s[i + 1..i + 1 + |sub|] == s[1..][i..i + |sub|];
        assert OccursAt(sub, s, i + 1);
      }
      if OccursIn(sub, s) {
        var i: nat :| OccursAt(sub, s, i);
        assert i != 0;
        assert s[1..][i - 1..i - 1 + |sub|] == s[i..i + |sub|];
        assert OccursAt(sub, s[1..], i - 1);
      }
    }
  }

  /** `s.indexOf(c)`, except that an absent character gives `|s|` rather than -1. */
  function IndexOf(s: string, c: char): (i: nat)
    ensures i <= |s|
    ensures i < |s| ==> s[i] == c
    ensures c !in s[..i]
    ensures i == |s| <==> c !in s
    decreases |s|
  {
    if s == [] then 0
    else if s[0] == c then 0
    else
      var i := IndexOf(s[1..], c);
      assert s[..i + 1] == [s[0]] + s[1..][..i];
      i + 1
  }

  /** The first occurrence is the one with no occurrence before it. */
  lemma {:induction false} IndexOfIs(s: string, c: char, i: nat)
    requires i < |s| && s[i] == c && c !in s[..i]
    ensures IndexOf(s, c) == i
  {
  }

  /** A key with a character that `s` lacks does not occur in `s`. */
  lemma {:induction false} MissingCharNotContained(s: string, sub: string, j: nat)
    requires j < |sub| && sub[j] !in s
    ensures !Contains(s, sub)
    decreases |s|
  {
    if |sub| <= |s| {
      assert s[..|sub|][j] == s[j];
    }
    if |s| > 0 {
      MissingCharNotContained(s[1..], sub, j);
    }
  }

  /** An occurrence at a known position makes `includes` true. */
  lemma {:induction false} OccurrenceContained(s: string, sub: string, i: nat)
    requires OccursAt(sub, s, i)
    ensures Contains(s, sub)
  {
    ContainsIsOccurrence(s, sub);
  }

  /** A key with two neighbouring characters that never stand side by side in `s` does not occur in `s`. */
  lemma {:induction false} MissingPairNotContained(s: string, sub: string, j: nat)
    requires j + 1 < |sub|
    requires forall k | 0 <= k < |s| - 1 :: !(s[k] == sub[j] && s[k + 1] == sub[j + 1])
    ensures !Contains(s, sub)
    decreases |s|
  {
    if |sub| <= |s| {
      assert s[..|sub|][j] == s[j] && s[..|sub|][j + 1] == s[j + 1];
    }
    if |s| > 0 {
      forall k | 0 <= k < |s[1..]| - 1
        ensures !(s[1..][k] == sub[j] && s[1..][k + 1] == sub[j + 1])
      {
        assert s[1..][k] == s[k + 1] && s[1..][k + 1] == s[k + 2];
      }
      MissingPairNotContained(s[1..], sub, j);
    }
  }

  /** `parts.join([sep])`. */
  function Join(parts: seq<string>, sep: char): string
    decreases |parts|
  {
    if |parts| == 0 then ""
    else if |parts| == 1 then parts[0]
    else parts[0] + [sep] + Join(parts[1..], sep)
  }

  /**
   * `s.split(sep)` for a one-character separator: the pieces between the
   * separators, at least one.
   */
  function Split(s: string, sep: char): (parts: seq<string>)
    ensures |parts| >= 1
    ensures sep !in s ==> parts == [s]
    ensures parts[0] == s[..IndexOf(s, sep)]
    decreases |s|
  {
    var i := IndexOf(s, sep);
    if i == |s| then
      assert s[..i] == s;
      [s]
    else
      [s[..i]] + Split(s[i + 1..], sep)
  }

  /** No piece contains the separator. */
  lemma {:induction false} SplitPieceLacksSeparator(s: string, sep: char, k: nat)
    requires k < |Split(s, sep)|
    ensures sep !in Split(s, sep)[k]
    decreases |s|
  {
    if k > 0 {
      var i := IndexOf(s, sep);
      assert sep in s;
      SplitTail(s, sep);
      ShiftedIndex(Split(s, sep), k - 1);
      SplitPieceLacksSeparator(s[i + 1..], sep, k - 1);
    }
  }

  /** Up to the first separator at `i`, the first piece; the rest is the split of what follows. */
  lemma {:induction false} SplitAt(s: string, sep: char, i: nat)
    requires i < |s| && s[i] == sep && sep !in s[..i]
    ensures Split(s, sep) == [s[..i]] + Split(s[i + 1..], sep)
  {
    IndexOfIs(s, sep, i);
  }

  /** A string is its prefix, the character at `i`, and its suffix. */
  lemma {:induction false} AroundIndex(s: string, i: nat)
    requires i < |s|
    ensures s == s[..i] + [s[i]] + s[i + 1..]
  {
  }

  /** Joining two or more pieces puts the separator after the first. */
  lemma {:induction false} JoinCons(parts: seq<string>, sep: char)
    requires |parts| >= 2
    ensures Join(parts, sep) == parts[0] + [sep] + Join(parts[1..], sep)
  {
  }

  /** Indexing after dropping the first element. */
  lemma {:induction false} ShiftedIndex<T>(xs: seq<T>, j: nat)
    requires j + 1 < |xs|
    ensures xs[1..][j] == xs[j + 1]
  {
  }

  /** Joining the pieces with the separator gives back the string. */
  lemma {:induction false} SplitJoin(s: string, sep: char)
    ensures Join(Split(s, sep), sep) == s
    decreases |s|
  {
    var i := IndexOf(s, sep);
    if i < |s| {
      var tail := s[i + 1..];
      SplitAt(s, sep, i);
      SplitJoin(tail, sep);
      var parts := Split(s, sep);
      assert parts[1..] == Split(tail, sep);
      JoinCons(parts, sep);
      AroundIndex(s, i);
    } else {
      assert Split(s, sep) == [s];
    }
  }

  /** Every character other than the separator lands in one of the pieces, the `k`-th. */
  lemma {:induction false} SplitCovers(s: string, sep: char, c: char) returns (k: nat)
    requires c != sep && c in s
    ensures k < |Split(s, sep)| && c in Split(s, sep)[k]
    decreases |s|
  {
    var i := IndexOf(s, sep);
    if i < |s| {
      var head := s[..i];
      var tail := s[i + 1..];
      SplitAt(s, sep, i);
      if c in head {
        k := 0;
      } else {
        AroundIndex(s, i);
        assert c in tail;
        var j := SplitCovers(tail, sep, c);
        SplitTail(s, sep);
        ShiftedIndex(Split(s, sep), j);
        k := j + 1;
      }
    } else {
      assert Split(s, sep) == [s];
      k := 0;
    }
  }

  /** After the first separator, the remaining pieces are the split of what follows it. */
  lemma {:induction false} SplitTail(s: string, sep: char)
    requires sep in s
    ensures Split(s, sep)[1..] == Split(s[IndexOf(s, sep) + 1..], sep)
  {
    SplitUnfold(s, sep);
    DropHead(s[..IndexOf(s, sep)], Split(s[IndexOf(s, sep) + 1..], sep));
  }

  /** One step of `Split` at a separator that is present. */
  lemma {:induction false} SplitUnfold(s: string, sep: char)
    requires IndexOf(s, sep) < |s|
    ensures Split(s, sep) == [s[..IndexOf(s, sep)]] + Split(s[IndexOf(s, sep) + 1..], sep)
  {
  }

  /** Dropping the first element of `[x] + rest` leaves `rest`. */
  lemma {:induction false} DropHead<T>(x: T, rest: seq<T>)
    ensures ([x] + rest)[1..] == rest
  {
  }

  /** A string with a separator splits into at least two pieces. */
  lemma {:induction false} SplitTwoPieces(s: string, sep: char)
    requires sep in s
    ensures |Split(s, sep)| >= 2
  {
    SplitTail(s, sep);
  }

  /** The second piece runs from after the first separator up to the next one. */
  lemma {:induction false} SplitSecond(s: string, sep: char)
    requires sep in s
    ensures |Split(s, sep)| >= 2
    ensures var rest := s[IndexOf(s, sep) + 1..];
      Split(s, sep)[1] == rest[..IndexOf(rest, sep)]
  {
    SplitTail(s, sep);
    var parts := Split(s, sep);
    assert parts[1] == parts[1..][0];
  }

  /** `last` is what follows some separator at the end of `s`. */
  predicate FollowsLastSeparator(s: string, last: string, sep: char) {
    |last| < |s| && s[|s| - |last| - 1] == sep && s[|s| - |last|..] == last
  }

  /** The last piece is what follows the last separator. */
  lemma {:induction false} SplitLast(s: string, sep: char)
    requires sep in s
    ensures |Split(s, sep)| >= 2
    ensures FollowsLastSeparator(s, Split(s, sep)[|Split(s, sep)| - 1], sep)
    decreases |s|, 1
  {
    var i := IndexOf(s, sep);
    if sep in s[i + 1..] {
      SplitLastOfMany(s, sep, i);
    } else {
      SplitTail(s, sep);
      LastOfTwoPieces(s, i, sep, Split(s, sep), Split(s[i + 1..], sep));
    }
  }

  /** The inductive case of `SplitLast`: a second separator follows the first, at `i`. */
  lemma {:induction false} SplitLastOfMany(s: string, sep: char, i: nat)
    requires i == IndexOf(s, sep) && i < |s| && sep in s[i + 1..]
    ensures |Split(s, sep)| >= 2
    ensures FollowsLastSeparator(s, Split(s, sep)[|Split(s, sep)| - 1], sep)
    decreases |s|, 0
  {
    var tail := s[i + 1..];
    SplitTail(s, sep);
    SplitLast(tail, sep);
    LastOfLongerSplit(s, i, sep, Split(s, sep), Split(tail, sep));
  }

  /** When the pieces after the first are those of `s[i + 1..]`, their last piece is the last piece of `s`. */
  lemma {:induction false} LastOfLongerSplit(s: string, i: nat, sep: char, parts: seq<string>, rest: seq<string>)
    requires i < |s| && |parts| >= 1 && parts[1..] == rest && |rest| >= 1
    requires FollowsLastSeparator(s[i + 1..], rest[|rest| - 1], sep)
    ensures |parts| >= 2 && FollowsLastSeparator(s, parts[|parts| - 1], sep)
  {
    LastAfterFirst(parts, rest);
    SuffixOfTail(s, i, rest[|rest| - 1], sep);
  }

  /** When `s[i + 1..]` is the only piece after the separator at `i`, it is the last piece. */
  lemma {:induction false} LastOfTwoPieces(s: string, i: nat, sep: char, parts: seq<string>, rest: seq<string>)
    requires i < |s| && s[i] == sep && |parts| >= 1 && parts[1..] == rest && rest == [s[i + 1..]]
    ensures |parts| >= 2 && FollowsLastSeparator(s, parts[|parts| - 1], sep)
  {
    LastAfterFirst(parts, rest);
    assert s[|s| - |s[i + 1..]| - 1] == s[i];
  }

  /** A sequence with a non-empty tail ends where its tail ends. */
  lemma {:induction false} LastAfterFirst<T>(xs: seq<T>, rest: seq<T>)
    requires |xs| >= 1 && xs[1..] == rest && |rest| >= 1
    ensures |xs| == |rest| + 1 && xs[|xs| - 1] == rest[|rest| - 1]
  {
    assert xs[|xs| - 1] == xs[1..][|xs| - 2];
  }

  /** A suffix of `s[i + 1..]` that follows a separator is a suffix of `s` that follows it. */
  lemma {:induction false} SuffixOfTail(s: string, i: nat, last: string, sep: char)
    requires i < |s| && FollowsLastSeparator(s[i + 1..], last, sep)
    ensures FollowsLastSeparator(s, last, sep)
  {
    var tail := s[i + 1..];
    assert s[|s| - |last|..] == tail[|tail| - |last|..];
  }

  /** `parts.filter(p => p)`: the non-empty pieces, in order. */
  function NonEmpty(parts: seq<string>): (r: seq<string>)
    ensures forall k | 0 <= k < |r| :: r[k] != "" && r[k] in parts
    decreases |parts|
  {
    if parts == [] then []
    else if parts[0] == "" then NonEmpty(parts[1..])
    else [parts[0]] + NonEmpty(parts[1..])
  }

  /** `s.replace(c, "")` with a one-character pattern: only the first occurrence goes. */
  function RemoveFirst(s: string, c: char): (r: string)
    ensures c !in s ==> r == s
    ensures c in s ==> |r| == |s| - 1
  {
    var i := IndexOf(s, c);
    if i == |s| then s else s[..i] + s[i + 1..]
  }

  function LowerChar(c: char): (d: char)
    ensures !('A' <= d <= 'Z')
  {
    if 'A' <= c <= 'Z' then (c as int - 'A' as int + 'a' as int) as char else c
  }

  /** `s.toLowerCase()` on the ASCII letters. */
  function ToLower(s: string): (r: string)
    ensures |r| == |s|
    ensures forall k | 0 <= k < |s| :: r[k] == LowerChar(s[k])
    decreases |s|
  {
    if s == [] then [] else [LowerChar(s[0])] + ToLower(s[1..])
  }

  /** A string of the same length whose every character is the lower-cased one is the lower-cased string. */
  lemma {:induction false} ToLowerIs(s: string, t: string)
    requires |t| == |s| && forall k | 0 <= k < |s| :: t[k] == LowerChar(s[k])
    ensures ToLower(s) == t
  {
  }

  predicate IsAsciiDigit(c: char) {
    '0' <= c <= '9'
  }

  predicate IsAsciiAlpha(c: char) {
    'a' <= c <= 'z' || 'A' <= c <= 'Z'
  }

  /** `/^\d+$/.test(s)` */
  predicate AllDigits(s: string) {
    |s| > 0 && forall k | 0 <= k < |s| :: IsAsciiDigit(s[k])
  }

  /** The decimal digits of a natural number, as `String(n)` prints an integer. */
  function NatToDecimal(n: nat): (r: string)
    ensures AllDigits(r)
    decreases n
  {
    if n < 10 then [('0' as int + n) as char]
    else NatToDecimal(n / 10) + [('0' as int + n % 10) as char]
  }
}
