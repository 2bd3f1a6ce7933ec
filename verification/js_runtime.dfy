/**
 * The pieces of the JavaScript runtime that the chat code leans on, stated on
 * Dafny strings: truthiness of optional strings, `String.prototype.trim`,
 * `String.prototype.split` with a one-character separator, the UTF-16 `length`
 * of a string, and the range of `Math.random()`.
 */
module JsRuntime {
  import opened Wrappers

  /** A value `Math.random()` can return: a real in [0, 1). */
  type Draw = r: real | 0.0 <= r < 1.0 witness 0.0

  /** JavaScript truthiness of an optional string: absent and "" are both falsy. */
  predicate Truthy(s: Option<string>) {
    s.Some? && s.value != ""
  }

  // ---------------------------------------------------------------------------
  // trim
  // ---------------------------------------------------------------------------

  /** The code points `trim` removes: ECMAScript WhiteSpace (including every
      Unicode space separator) and LineTerminator. */
  predicate IsWhiteSpace(c: char) {
    || c == '\U{0009}' || c == '\U{000A}' || c == '\U{000B}' || c == '\U{000C}' || c == '\U{000D}'
    || c == ' ' || c == '\U{00A0}' || c == '\U{1680}'
    || ('\U{2000}' <= c <= '\U{200A}')
    || c == '\U{2028}' || c == '\U{2029}' || c == '\U{202F}' || c == '\U{205F}'
    || c == '\U{3000}' || c == '\U{FEFF}'
  }

  predicate AllWhiteSpace(s: string) {
    forall i :: 0 <= i < |s| ==> IsWhiteSpace(s[i])
  }

  /** The number of white-space characters `s` starts with. */
  function LeadingWhiteSpace(s: string): (n: nat)
    ensures n <= |s|
    ensures forall i :: 0 <= i < n ==> IsWhiteSpace(s[i])
    ensures n < |s| ==> !IsWhiteSpace(s[n])
  {
    if s == [] || !IsWhiteSpace(s[0]) then 0 else 1 + LeadingWhiteSpace(s[1..])
  }

  /** The number of white-space characters `s` ends with. */
  function TrailingWhiteSpace(s: string): (n: nat)
    ensures n <= |s|
    ensures forall i :: |s| - n <= i < |s| ==> IsWhiteSpace(s[i])
    ensures n < |s| ==> !IsWhiteSpace(s[|s| - n - 1])
  {
    if s == [] || !IsWhiteSpace(s[|s| - 1]) then 0 else 1 + TrailingWhiteSpace(s[..|s| - 1])
  }

  /** `s.trim()`: the slice of `s` left once white space is stripped from both ends. */
  function Trim(s: string): (t: string)
    ensures LeadingWhiteSpace(s) + |t| <= |s|
    ensures t == s[LeadingWhiteSpace(s)..LeadingWhiteSpace(s) + |t|]
    ensures forall i :: LeadingWhiteSpace(s) + |t| <= i < |s| ==> IsWhiteSpace(s[i])
    ensures t != [] ==> !IsWhiteSpace(t[0]) && !IsWhiteSpace(t[|t| - 1])
  {
    var rest := s[LeadingWhiteSpace(s)..];
    rest[..|rest| - TrailingWhiteSpace(rest)]
  }

  /** `s.trim()` is empty exactly when `s` consists of white space only. */
  lemma TrimEmptyIff(s: string)
    ensures Trim(s) == [] <==> AllWhiteSpace(s)
  {
  }

  /** Padding a trimmed string with white space on either side and trimming
      again gives the string back: `trim` is the unique such decomposition. */
  lemma TrimPadded(pre: string, t: string, post: string)
    requires AllWhiteSpace(pre) && AllWhiteSpace(post)
    requires t != [] ==> !IsWhiteSpace(t[0]) && !IsWhiteSpace(t[|t| - 1])
    ensures Trim(pre + t + post) == t
  {
    var s := pre + t + post;
    if t == [] {
      assert AllWhiteSpace(s) by {
        forall i | 0 <= i < |s| ensures IsWhiteSpace(s[i]) {
          if i < |pre| { assert s[i] == pre[i]; } else { assert s[i] == post[i - |pre|]; }
        }
      }
      TrimEmptyIff(s);
    } else {
      var n := LeadingWhiteSpace(s);
      assert s[|pre|] == t[0];
      assert forall i :: 0 <= i < |pre| ==> s[i] == pre[i];
      assert n == |pre|;
      var rest := s[n..];
      assert rest == t + post;
      var m := TrailingWhiteSpace(rest);
      assert rest[|t| - 1] == t[|t| - 1];
      assert forall i :: |t| <= i < |rest| ==> rest[i] == post[i - |t|];
      assert m == |post|;
      assert rest[..|rest| - m] == t;
    }
  }

  /** Trimming twice is trimming once. */
  lemma TrimIdempotent(s: string)
    ensures Trim(Trim(s)) == Trim(s)
  {
  }

  // ---------------------------------------------------------------------------
  // split
  // ---------------------------------------------------------------------------

  /** `s` does not contain `c`. */
  predicate Excludes(s: string, c: char) {
    forall i :: 0 <= i < |s| ==> s[i] != c
  }

  /** The position of the first `sep` in `s`, or `|s|` when there is none. */
  function IndexOf(s: string, sep: char): (i: nat)
    ensures i <= |s|
    ensures forall k :: 0 <= k < i ==> s[k] != sep
    ensures i < |s| ==> s[i] == sep
  {
    if s == [] || s[0] == sep then 0 else 1 + IndexOf(s[1..], sep)
  }

  /** `s.split(sep)` for a one-character separator: the pieces of `s` between
      occurrences of `sep`, in order. There is always at least one piece. */
  function Split(s: string, sep: char): (pieces: seq<string>)
    ensures |pieces| >= 1
    ensures forall k :: 0 <= k < |pieces| ==> Excludes(pieces[k], sep)
    decreases |s|
  {
    var i := IndexOf(s, sep);
    if i == |s| then [s] else [s[..i]] + Split(s[i + 1..], sep)
  }

  /** `pieces.join(sep)`. */
  function Join(pieces: seq<string>, sep: char): string
    requires |pieces| >= 1
  {
    if |pieces| == 1 then pieces[0] else pieces[0] + [sep] + Join(pieces[1..], sep)
  }

  /** `s.split(sep)[k]`: the piece at index `k`, absent (`undefined`) past the end. */
  function Piece(s: string, sep: char, k: nat): Option<string> {
    var pieces := Split(s, sep);
    if k < |pieces| then Some(pieces[k]) else None
  }

  /** The text strictly between the first `sep` in `s` and the next one (or the
      end of `s`); absent when `s` holds no `sep`. */
  function SegmentAfter(s: string, sep: char): Option<string> {
    var i := IndexOf(s, sep);
    if i == |s| then None
    else
      var rest := s[i + 1..];
      Some(rest[..IndexOf(rest, sep)])
  }

  /** Joining a piece in front of a list puts one separator between them. */
  lemma JoinCons(first: string, rest: seq<string>, sep: char)
    requires |rest| >= 1
    ensures Join([first] + rest, sep) == first + [sep] + Join(rest, sep)
  {
    assert ([first] + rest)[1..] == rest;
  }

  /** Joining the pieces of `s` with the separator restores `s`. */
  lemma {:induction false} JoinSplit(s: string, sep: char)
    ensures Join(Split(s, sep), sep) == s
    decreases |s|
  {
    var i := IndexOf(s, sep);
    if i < |s| {
      var rest := s[i + 1..];
      calc {
        Join(Split(s, sep), sep);
        { SplitCons(s, sep); }
        Join([s[..i]] + Split(rest, sep), sep);
        { JoinCons(s[..i], Split(rest, sep), sep); }
        s[..i] + [sep] + Join(Split(rest, sep), sep);
        { JoinSplit(rest, sep); }
        s[..i] + [sep] + rest;
        s;
      }
    }
  }

  /** Where `s` holds a separator, its pieces are the text before the first one,
      then the pieces of the rest. */
  lemma SplitCons(s: string, sep: char)
    requires IndexOf(s, sep) < |s|
    ensures Split(s, sep) == [s[..IndexOf(s, sep)]] + Split(s[IndexOf(s, sep) + 1..], sep)
  {
  }

  /** In `a + [sep] + b` with `a` free of `sep`, the first separator sits right after `a`. */
  lemma IndexOfAfterFree(a: string, sep: char, b: string)
    requires Excludes(a, sep)
    ensures IndexOf(a + [sep] + b, sep) == |a|
  {
    var s := a + [sep] + b;
    assert s[|a|] == sep;
    assert forall k :: 0 <= k < |a| ==> s[k] == a[k];
  }

  /** The segment after the first `sep` is the field up to the next `sep` or the end. */
  lemma SegmentAfterField(a: string, sep: char, b: string, c: string)
    requires Excludes(a, sep) && Excludes(b, sep)
    requires c == [] || c[0] == sep
    ensures SegmentAfter(a + [sep] + b + c, sep) == Some(b)
  {
    var s := a + [sep] + b + c;
    assert s == a + [sep] + (b + c);
    IndexOfAfterFree(a, sep, b + c);
    assert s[|a| + 1..] == b + c;
    if c == [] {
      assert b + c == b;
      IndexOfFree(b, sep);
    } else {
      assert b + c == b + [sep] + c[1..];
      IndexOfAfterFree(b, sep, c[1..]);
    }
    assert (b + c)[..|b|] == b;
  }

  /** A string free of `sep` is its own only piece. */
  lemma IndexOfFree(a: string, sep: char)
    requires Excludes(a, sep)
    ensures IndexOf(a, sep) == |a|
  {
  }

  /** Splitting a join of separator-free pieces gives the pieces back. */
  lemma {:induction false} SplitJoin(pieces: seq<string>, sep: char)
    requires |pieces| >= 1
    requires forall k :: 0 <= k < |pieces| ==> Excludes(pieces[k], sep)
    ensures Split(Join(pieces, sep), sep) == pieces
  {
    if |pieces| == 1 {
      IndexOfFree(pieces[0], sep);
    } else {
      var tail := Join(pieces[1..], sep);
      var s := pieces[0] + [sep] + tail;
      IndexOfAfterFree(pieces[0], sep, tail);
      assert s[..|pieces[0]|] == pieces[0];
      assert s[|pieces[0]| + 1..] == tail;
      SplitJoin(pieces[1..], sep);
      assert [pieces[0]] + pieces[1..] == pieces;
    }
  }

  /** `s.split(sep)[0]` is the text before the first separator (all of `s` when there is none). */
  lemma FirstPiece(s: string, sep: char)
    ensures Split(s, sep)[0] == s[..IndexOf(s, sep)]
  {
  }

  /** `s.split(sep)[1]` is `SegmentAfter(s, sep)`: the text between the first
      and the second separator, not everything after the first one. */
  lemma SecondPiece(s: string, sep: char)
    ensures Piece(s, sep, 1) == SegmentAfter(s, sep)
  {
    var i := IndexOf(s, sep);
    if i < |s| {
      FirstPiece(s[i + 1..], sep);
    }
  }

  // ---------------------------------------------------------------------------
  // length
  // ---------------------------------------------------------------------------

  /** The UTF-16 code units a code point takes: two for a code point above the
      Basic Multilingual Plane, one otherwise. */
  function CodeUnits(c: char): nat {
    if c as int < 0x1_0000 then 1 else 2
  }

  /** A string's JavaScript `length`, which counts UTF-16 code units. */
  function Utf16Length(s: string): (n: nat)
    ensures |s| <= n <= 2 * |s|
    ensures n == |s| <==> forall i :: 0 <= i < |s| ==> s[i] as int < 0x1_0000
  {
    if s == [] then 0 else CodeUnits(s[0]) + Utf16Length(s[1..])
  }

  /** One character is one code unit inside the Basic Multilingual Plane and a
      surrogate pair above it. */
  lemma Utf16LengthChar(c: char)
    ensures Utf16Length([c]) == CodeUnits(c)
    ensures Utf16Length([c]) == (if c as int < 0x1_0000 then 1 else 2)
  {
  }

  /** `length` is additive over concatenation, so together with
      `Utf16LengthChar` it is the sum of the code units of the characters. */
  lemma {:induction false} Utf16LengthAppend(a: string, b: string)
    ensures Utf16Length(a + b) == Utf16Length(a) + Utf16Length(b)
    decreases |a|
  {
    if a != [] {
      assert (a + b)[1..] == a[1..] + b;
      Utf16LengthAppend(a[1..], b);
    } else {
      assert a + b == b;
    }
  }
}
