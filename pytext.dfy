/** The handful of Python `str` operations the core relies on: `strip()`,
    `lstrip(chars)`, `split(sep)` with a one-character separator, and
    `sep.join(parts)`, together with the comprehension
    `[x.strip() for x in xs if x.strip()]` that both command lines and the
    hashtag validator use. */
module PyText {

  /** Python's `str.isspace()` for one character: the code points `str.strip()`
      removes when it is called without arguments. */
  predicate IsSpace(c: char) {
    var n := c as int;
    (9 <= n <= 13) || (28 <= n <= 32) || n == 0x85 || n == 0xA0 || n == 0x1680
    || (0x2000 <= n <= 0x200A) || n == 0x2028 || n == 0x2029 || n == 0x202F
    || n == 0x205F || n == 0x3000
  }

  /** The first index at or after `i` that does not hold whitespace (or `|s|`). */
  function SpaceRunFrom(s: string, i: nat): (r: nat)
    requires i <= |s|
    ensures i <= r <= |s| && (r == |s| || !IsSpace(s[r]))
    ensures forall k :: i <= k < r ==> IsSpace(s[k])
    decreases |s| - i
  {
    if i == |s| || !IsSpace(s[i]) then i else SpaceRunFrom(s, i + 1)
  }

  /** The least index `r <= j` such that `s[r..j]` is all whitespace. */
  function SpaceRunBack(s: string, j: nat): (r: nat)
    requires j <= |s|
    ensures r <= j && (r == 0 || !IsSpace(s[r - 1]))
    ensures forall k :: r <= k < j ==> IsSpace(s[k])
    decreases j
  {
    if j == 0 || !IsSpace(s[j - 1]) then j else SpaceRunBack(s, j - 1)
  }

  /** A string `strip()` leaves alone. */
  predicate Stripped(s: string) {
    s == [] || (!IsSpace(s[0]) && !IsSpace(s[|s| - 1]))
  }

  /** `s.strip()`: whitespace removed from both ends. */
  function Strip(s: string): (r: string)
    ensures Stripped(r)
  {
    var b := SpaceRunFrom(s, 0);
    if b == |s| then [] else s[b..SpaceRunBack(s, |s|)]
  }

  /** `strip()` removes only whitespace: what is left is the slice of `s`
      between a whitespace-only prefix and a whitespace-only suffix (so, with
      `Stripped`, the longest such slice), and it is empty exactly when `s` is
      all whitespace. */
  lemma StripBounds(s: string)
    ensures exists i, j :: 0 <= i <= j <= |s| && Strip(s) == s[i..j]
              && (forall k :: 0 <= k < i ==> IsSpace(s[k]))
              && (forall k :: j <= k < |s| ==> IsSpace(s[k]))
    ensures Strip(s) == [] <==> forall k :: 0 <= k < |s| ==> IsSpace(s[k])
    ensures forall c :: c in Strip(s) ==> c in s
  {
    var b := SpaceRunFrom(s, 0);
    if b < |s| {
      var e := SpaceRunBack(s, |s|);
      assert !IsSpace(s[b]);
      assert b < e;
      assert Strip(s) == s[b..e];
      assert forall k :: 0 <= k < e - b ==> s[b..e][k] == s[b + k];
    } else {
      assert Strip(s) == s[|s|..|s|];
    }
  }

  /** The first index at or after `i` that does not hold `#` (or `|s|`). */
  function HashRunFrom(s: string, i: nat): (r: nat)
    requires i <= |s|
    ensures i <= r <= |s| && (r == |s| || s[r] != '#')
    ensures forall k :: i <= k < r ==> s[k] == '#'
    decreases |s| - i
  {
    if i == |s| || s[i] != '#' then i else HashRunFrom(s, i + 1)
  }

  /** `s.lstrip("#")`: every leading `#` removed, nothing else. */
  function LStripHash(s: string): (r: string)
    ensures |r| <= |s| && (r == [] || r[0] != '#')
  {
    s[HashRunFrom(s, 0)..]
  }

  /** `lstrip("#")` removes a prefix made of `#` only and keeps the rest intact. */
  lemma LStripHashRemovesOnlyHashes(s: string)
    ensures LStripHash(s) == s[|s| - |LStripHash(s)|..]
    ensures forall k :: 0 <= k < |s| - |LStripHash(s)| ==> s[k] == '#'
  {
  }

  lemma StripOfStripped(s: string)
    requires Stripped(s)
    ensures Strip(s) == s
  {
  }

  /** A single space in front of a trimmed, non-blank string is trimmed away. */
  lemma StripSpacePrefix(t: string)
    requires t != [] && Stripped(t)
    ensures Strip(" " + t) == t
  {
    var s := " " + t;
    assert s[1] == t[0] && s[|s| - 1] == t[|t| - 1];
    assert SpaceRunFrom(s, 0) == 1;
    assert s[1..|s|] == t;
  }

  lemma StripIdempotent(s: string)
    ensures Strip(Strip(s)) == Strip(s)
  {
    StripOfStripped(Strip(s));
  }

  /** `s.split(sep)` for a one-character separator: the pieces between
      separators, including empty ones; the empty string gives `[""]`. */
  function Split(s: string, sep: char): (r: seq<string>)
    ensures |r| >= 1
    ensures forall i :: 0 <= i < |r| ==> sep !in r[i]
    decreases |s|
  {
    if s == [] then [[]]
    else
      var rest := Split(s[1..], sep);
      if s[0] == sep then [[]] + rest else [[s[0]] + rest[0]] + rest[1..]
  }

  /** `sep.join(parts)`. */
  function Join(parts: seq<string>, sep: string): string
    decreases |parts|
  {
    if |parts| == 0 then []
    else if |parts| == 1 then parts[0]
    else parts[0] + sep + Join(parts[1..], sep)
  }

  /** Joining the pieces of a split with the separator gives back the text. */
  lemma {:induction false} JoinSplit(s: string, sep: char)
    ensures Join(Split(s, sep), [sep]) == s
    decreases |s|
  {
    if s != [] {
      var rest := Split(s[1..], sep);
      JoinSplit(s[1..], sep);
      if s[0] == sep {
        assert Split(s, sep) == [[]] + rest;
        assert ([[]] + rest)[1..] == rest;
      } else {
        var r := Split(s, sep);
        assert r == [[s[0]] + rest[0]] + rest[1..];
        if |rest| > 1 {
          assert r[1..] == rest[1..];
          assert Join(rest, [sep]) == rest[0] + [sep] + Join(rest[1..], [sep]);
        }
      }
    }
  }

  /** Splitting text with no separator in it yields that text alone. */
  lemma {:induction false} SplitNoSeparator(x: string, sep: char)
    requires sep !in x
    ensures Split(x, sep) == [x]
    decreases |x|
  {
    if x != [] {
      assert sep !in x[1..] by { assert forall k :: 0 <= k < |x[1..]| ==> x[1..][k] == x[k + 1]; }
      SplitNoSeparator(x[1..], sep);
      assert [x[0]] + x[1..] == x;
    }
  }

  /** A separator-free head splits off as the first piece. */
  lemma {:induction false} SplitAtSeparator(x: string, sep: char, y: string)
    requires sep !in x
    ensures Split(x + [sep] + y, sep) == [x] + Split(y, sep)
    decreases |x|
  {
    var s := x + [sep] + y;
    if x == [] {
      assert s[0] == sep && s[1..] == y;
    } else {
      assert s[0] == x[0];
      assert s[1..] == x[1..] + [sep] + y;
      assert sep !in x[1..] by { assert forall k :: 0 <= k < |x[1..]| ==> x[1..][k] == x[k + 1]; }
      SplitAtSeparator(x[1..], sep, y);
      assert [x[0]] + x[1..] == x;
    }
  }

  /** Joining separator-free pieces and splitting again gives back the pieces. */
  lemma {:induction false} SplitJoin(parts: seq<string>, sep: char)
    requires |parts| >= 1
    requires forall i :: 0 <= i < |parts| ==> sep !in parts[i]
    ensures Split(Join(parts, [sep]), sep) == parts
    decreases |parts|
  {
    if |parts| == 1 {
      SplitNoSeparator(parts[0], sep);
    } else {
      SplitJoin(parts[1..], sep);
      SplitAtSeparator(parts[0], sep, Join(parts[1..], [sep]));
      assert [parts[0]] + parts[1..] == parts;
    }
  }

  /** `[x.strip() for x in xs if x.strip()]`: every piece trimmed, blank ones dropped. */
  function CleanTokens(xs: seq<string>): (r: seq<string>)
    ensures |r| <= |xs|
    ensures forall i :: 0 <= i < |r| ==> r[i] != [] && Stripped(r[i])
  {
    if xs == [] then [] else CleanOne(xs[0]) + CleanTokens(xs[1..])
  }

  /** What the comprehension keeps of one piece: its trimmed form, if non-blank. */
  function CleanOne(x: string): (r: seq<string>)
    ensures |r| <= 1 && forall i :: 0 <= i < |r| ==> r[i] != [] && Stripped(r[i])
  {
    if Strip(x) == [] then [] else [Strip(x)]
  }

  lemma CleanTokensCons(xs: seq<string>)
    requires xs != []
    ensures CleanTokens(xs) == CleanOne(xs[0]) + CleanTokens(xs[1..])
  {
  }

  /** A character absent from every input piece is absent from every token. */
  lemma {:induction false} CleanTokensAvoid(xs: seq<string>, c: char)
    requires forall j :: 0 <= j < |xs| ==> c !in xs[j]
    ensures forall i :: 0 <= i < |CleanTokens(xs)| ==> c !in CleanTokens(xs)[i]
    decreases |xs|
  {
    if xs != [] {
      CleanTokensAvoid(xs[1..], c);
    }
  }

  /** Cleaning distributes over concatenation, so token order is kept. */
  lemma {:induction false} CleanTokensAppend(xs: seq<string>, ys: seq<string>)
    ensures CleanTokens(xs + ys) == CleanTokens(xs) + CleanTokens(ys)
    decreases |xs|
  {
    if xs == [] {
      assert xs + ys == ys;
    } else {
      var zs := xs + ys;
      assert zs[0] == xs[0];
      assert zs[1..] == xs[1..] + ys;
      CleanTokensAppend(xs[1..], ys);
    }
  }

  /** Tokens that are already trimmed and non-blank pass through unchanged. */
  lemma {:induction false} CleanTokensOfClean(xs: seq<string>)
    requires forall i :: 0 <= i < |xs| ==> xs[i] != [] && Stripped(xs[i])
    ensures CleanTokens(xs) == xs
    decreases |xs|
  {
    if xs != [] {
      StripOfStripped(xs[0]);
      CleanTokensOfClean(xs[1..]);
      assert [xs[0]] + xs[1..] == xs;
    }
  }
}
