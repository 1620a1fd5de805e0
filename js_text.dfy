/**
 * The two string built-ins of JavaScript that the chat component relies on:
 * `String.prototype.trim` (the submission guard) and `String.prototype.split`
 * with a one-character separator (cutting a decoded chunk into lines).
 */
module JsText {

  /**
   * An ECMAScript WhiteSpace or LineTerminator code point: what `trim` removes.
   * Among ASCII these are exactly the space and the controls tab through
   * carriage return; NEXT LINE and ZERO WIDTH SPACE are not among them.
   */
  function IsWhiteSpace(c: char): (b: bool)
    ensures c < '\U{0080}' ==> (b <==> c == ' ' || '\t' <= c <= '\r')
    ensures c == '\U{0085}' || c == '\U{200B}' ==> !b
  {
    || c == '\t' || c == '\n' || c == '\U{000B}' || c == '\U{000C}' || c == '\r'
    || c == ' ' || c == '\U{00A0}' || c == '\U{1680}'
    || ('\U{2000}' <= c <= '\U{200A}')
    || c == '\U{2028}' || c == '\U{2029}' || c == '\U{202F}' || c == '\U{205F}'
    || c == '\U{3000}' || c == '\U{FEFF}'
  }

  /** The number of whitespace characters `s` starts with. */
  function LeadingWhiteSpace(s: string): (n: nat)
    ensures n <= |s|
    ensures forall i :: 0 <= i < n ==> IsWhiteSpace(s[i])
    ensures n < |s| ==> !IsWhiteSpace(s[n])
  {
    if s != [] && IsWhiteSpace(s[0]) then 1 + LeadingWhiteSpace(s[1..]) else 0
  }

  /** The number of whitespace characters `s` ends with. */
  function TrailingWhiteSpace(s: string): (n: nat)
    ensures n <= |s|
    ensures forall i :: |s| - n <= i < |s| ==> IsWhiteSpace(s[i])
    ensures n < |s| ==> !IsWhiteSpace(s[|s| - 1 - n])
  {
    if s != [] && IsWhiteSpace(s[|s| - 1]) then 1 + TrailingWhiteSpace(s[..|s| - 1]) else 0
  }

  /**
   * `s.trim()`: the part of `s` between its leading and its trailing
   * whitespace; empty exactly when `s` holds nothing but whitespace.
   */
  function Trim(s: string): (r: string)
    ensures r == "" <==> forall i :: 0 <= i < |s| ==> IsWhiteSpace(s[i])
    ensures r != "" ==> !IsWhiteSpace(r[0]) && !IsWhiteSpace(r[|r| - 1])
    ensures r != "" ==>
      var k := LeadingWhiteSpace(s);
      && k + |r| <= |s|
      && s == s[..k] + r + s[k + |r|..]
      && forall i :: k + |r| <= i < |s| ==> IsWhiteSpace(s[i])
  {
    var lead := LeadingWhiteSpace(s);
    if lead == |s| then "" else s[lead .. |s| - TrailingWhiteSpace(s)]
  }

  /** A string that neither starts nor ends with whitespace is its own trim. */
  lemma TrimmedEnds(s: string)
    requires s != [] && !IsWhiteSpace(s[0]) && !IsWhiteSpace(s[|s| - 1])
    ensures Trim(s) == s
  {
    assert LeadingWhiteSpace(s) == 0;
    assert TrailingWhiteSpace(s) == 0;
    assert s[0..|s|] == s;
  }

  /** Trimming twice is trimming once. */
  lemma TrimIdempotent(s: string)
    ensures Trim(Trim(s)) == Trim(s)
  {
    if Trim(s) != "" {
      TrimmedEnds(Trim(s));
    }
  }

  /**
   * `s.split(sep)` for a one-character separator: the pieces between the
   * separators, in order. A string with k separators has k + 1 pieces, so
   * the empty string has one, empty, piece and a trailing separator yields a
   * trailing empty piece.
   */
  function Split(s: string, sep: char): (parts: seq<string>)
    ensures |parts| >= 1
    ensures forall i :: 0 <= i < |parts| ==> sep !in parts[i]
  {
    if s == [] then [""]
    else
      var rest := Split(s[1..], sep);
      if s[0] == sep then [""] + rest else [[s[0]] + rest[0]] + rest[1..]
  }

  /** The pieces put back together with the separator between neighbours. */
  function Join(parts: seq<string>, sep: char): string
    requires |parts| >= 1
  {
    if |parts| == 1 then parts[0] else parts[0] + [sep] + Join(parts[1..], sep)
  }

  /** Splitting loses nothing: joining the pieces gives the string back. */
  lemma {:induction false} SplitJoin(s: string, sep: char)
    ensures Join(Split(s, sep), sep) == s
  {
    if s != [] {
      var rest := Split(s[1..], sep);
      SplitJoin(s[1..], sep);
      if s[0] == sep {
        assert ([""] + rest)[1..] == rest;
      } else {
        var parts := [[s[0]] + rest[0]] + rest[1..];
        if |rest| > 1 {
          assert parts[1..] == rest[1..];
        }
      }
    }
  }

  /** A string without the separator is a single piece. */
  lemma {:induction false} SplitNoSeparator(s: string, sep: char)
    requires sep !in s
    ensures Split(s, sep) == [s]
  {
    if s != [] {
      SplitNoSeparator(s[1..], sep);
      assert [s[0]] + s[1..] == s;
    }
  }

  /** Splitting at a separator splits the pieces there too. */
  lemma {:induction false} SplitAtSeparator(a: string, b: string, sep: char)
    ensures Split(a + [sep] + b, sep) == Split(a, sep) + Split(b, sep)
  {
    if a == [] {
      assert a + [sep] + b == [sep] + b;
      assert ([sep] + b)[1..] == b;
    } else {
      var s := a + [sep] + b;
      assert s[0] == a[0] && s[1..] == a[1..] + [sep] + b;
      SplitAtSeparator(a[1..], b, sep);
      var ra := Split(a[1..], sep);
      var rb := Split(b, sep);
      if a[0] != sep {
        assert (ra + rb)[0] == ra[0];
        assert (ra + rb)[1..] == ra[1..] + rb;
      }
    }
  }

  /** Joining pieces free of the separator and splitting again gives the pieces back. */
  lemma {:induction false} JoinSplit(parts: seq<string>, sep: char)
    requires |parts| >= 1
    requires forall i :: 0 <= i < |parts| ==> sep !in parts[i]
    ensures Split(Join(parts, sep), sep) == parts
  {
    SplitNoSeparator(parts[0], sep);
    if |parts| > 1 {
      JoinSplit(parts[1..], sep);
      SplitAtSeparator(parts[0], Join(parts[1..], sep), sep);
      assert [parts[0]] + parts[1..] == parts;
    }
  }
}
