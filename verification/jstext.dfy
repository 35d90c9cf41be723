/** The few JavaScript string operations the client relies on:
    `String.prototype.trim`, `String.prototype.split` with a one-character
    separator, and the truthiness test applied to a `string | null`. */
module JsText {
  import opened Wrappers

  /** The characters `trim` removes: ECMAScript WhiteSpace and
      LineTerminator code points. */
  predicate IsWhitespace(c: char) {
    || c == ' ' || c == '\t' || c == '\n' || c == '\r'
    || c == '\U{000B}' || c == '\U{000C}' || c == '\U{00A0}' || c == '\U{1680}'
    || ('\U{2000}' <= c <= '\U{200A}')
    || c == '\U{2028}' || c == '\U{2029}' || c == '\U{202F}' || c == '\U{205F}'
    || c == '\U{3000}' || c == '\U{FEFF}'
  }

  /** Every character of `s` is whitespace (vacuously so for ""). */
  predicate AllWhitespace(s: string) {
    forall i :: 0 <= i < |s| ==> IsWhitespace(s[i])
  }

  /** `s` with its leading whitespace removed: a suffix of `s` whose first
      character, if any, is not whitespace, and everything cut off was
      whitespace. */
  function TrimStart(s: string): (r: string)
    ensures |r| <= |s| && r == s[|s| - |r|..]
    ensures r == [] || !IsWhitespace(r[0])
    ensures forall i :: 0 <= i < |s| - |r| ==> IsWhitespace(s[i])
  {
    if s == [] then []
    else if IsWhitespace(s[0]) then TrimStart(s[1..])
    else s
  }

  /** `s` with its trailing whitespace removed: a prefix of `s` whose last
      character, if any, is not whitespace, and everything cut off was
      whitespace. */
  function TrimEnd(s: string): (r: string)
    ensures |r| <= |s| && r == s[..|r|]
    ensures r == [] || !IsWhitespace(r[|r| - 1])
    ensures forall i :: |r| <= i < |s| ==> IsWhitespace(s[i])
  {
    if s == [] then []
    else if IsWhitespace(s[|s| - 1]) then TrimEnd(s[..|s| - 1])
    else s
  }

  /** JavaScript `s.trim()`. These ensures give the emptiness test the
      client relies on; `TrimIsSlice` states that the result is exactly `s`
      with its whitespace prefix and suffix removed. */
  function Trim(s: string): (r: string)
    ensures |r| <= |s|
    ensures r == [] <==> AllWhitespace(s)
    ensures r != [] ==> !IsWhitespace(r[0]) && !IsWhitespace(r[|r| - 1])
  {
    TrimEnd(TrimStart(s))
  }

  /** `Trim(s)` is `s` with a whitespace prefix and a whitespace suffix cut
      off. With the ensures of `Trim` (the result neither starts nor ends
      with whitespace) this fixes the result. */
  lemma TrimIsSlice(s: string) returns (lead: string, tail: string)
    ensures s == lead + Trim(s) + tail
    ensures AllWhitespace(lead) && AllWhitespace(tail)
  {
    lead, tail := Decompose(s, TrimStart(s), Trim(s));
  }

  /** A string cut into a whitespace prefix, a middle part `r` and a
      whitespace suffix, given as the suffix `t` of `s` and the prefix `r`
      of `t`. */
  lemma Decompose(s: string, t: string, r: string) returns (lead: string, tail: string)
    requires |t| <= |s| && t == s[|s| - |t|..]
    requires forall i :: 0 <= i < |s| - |t| ==> IsWhitespace(s[i])
    requires |r| <= |t| && r == t[..|r|]
    requires forall i :: |r| <= i < |t| ==> IsWhitespace(t[i])
    ensures s == lead + r + tail
    ensures AllWhitespace(lead) && AllWhitespace(tail)
  {
    lead := s[..|s| - |t|];
    tail := t[|r|..];
    assert t == r + tail;
    assert s == lead + t;
    assert lead + t == lead + r + tail;
    assert AllWhitespace(lead) by {
      forall i | 0 <= i < |lead| ensures IsWhitespace(lead[i]) {
        assert lead[i] == s[i];
      }
    }
    assert AllWhitespace(tail) by {
      forall i | 0 <= i < |tail| ensures IsWhitespace(tail[i]) {
        assert tail[i] == t[|r| + i];
      }
    }
  }

  /** Trimming twice is trimming once. */
  lemma TrimIdempotent(s: string)
    ensures Trim(Trim(s)) == Trim(s)
  {
    var r := Trim(s);
    assert TrimStart(r) == r;
    assert TrimEnd(r) == r;
  }

  /** JavaScript truthiness of a `string | null`: null and "" are falsy. */
  predicate Truthy(s: Option<string>) {
    s.Some? && s.value != ""
  }

  /** Position of the first `c` in `s`, if there is one. */
  function IndexOf(s: string, c: char): (r: Option<nat>)
    ensures r.None? <==> c !in s
    ensures r.Some? ==> r.value < |s| && s[r.value] == c && c !in s[..r.value]
  {
    if s == [] then None
    else if s[0] == c then Some(0)
    else
      match IndexOf(s[1..], c)
      case None => None
      case Some(i) => assert s[1..][..i] == s[1..i + 1]; Some(i + 1)
  }

  /** Glues `pieces` back together with `sep` between neighbours: the
      inverse of `Split`. */
  function Join(pieces: seq<string>, sep: char): string
    requires |pieces| >= 1
  {
    if |pieces| == 1 then pieces[0] else pieces[0] + [sep] + Join(pieces[1..], sep)
  }

  /** JavaScript `s.split(sep)` for a one-character separator: the maximal
      separator-free pieces, in order; `Split("", sep) == [""]`. */
  function Split(s: string, sep: char): (pieces: seq<string>)
    ensures |pieces| >= 1
    ensures forall k :: 0 <= k < |pieces| ==> sep !in pieces[k]
    ensures Join(pieces, sep) == s
    decreases |s|
  {
    match IndexOf(s, sep)
    case None => [s]
    case Some(i) =>
      var rest := Split(s[i + 1..], sep);
      assert s == s[..i] + [sep] + s[i + 1..];
      [s[..i]] + rest
  }

  /** The first occurrence of `sep` in a join is right after the first piece. */
  lemma IndexOfJoin(pieces: seq<string>, sep: char)
    requires |pieces| >= 2
    requires sep !in pieces[0]
    ensures IndexOf(Join(pieces, sep), sep) == Some(|pieces[0]|)
  {
    var s := Join(pieces, sep);
    assert s[..|pieces[0]|] == pieces[0];
    assert s[|pieces[0]|] == sep;
  }

  /** Splitting a join of separator-free pieces gives the pieces back. */
  lemma {:induction false} SplitJoin(pieces: seq<string>, sep: char)
    requires |pieces| >= 1
    requires forall k :: 0 <= k < |pieces| ==> sep !in pieces[k]
    ensures Split(Join(pieces, sep), sep) == pieces
    decreases |pieces|
  {
    if |pieces| == 1 {
      assert IndexOf(pieces[0], sep).None?;
    } else {
      var s := Join(pieces, sep);
      IndexOfJoin(pieces, sep);
      var n := |pieces[0]|;
      assert s[..n] == pieces[0];
      assert s[n + 1..] == Join(pieces[1..], sep);
      assert Split(s, sep) == [pieces[0]] + Split(Join(pieces[1..], sep), sep);
      SplitJoin(pieces[1..], sep);
      assert pieces == [pieces[0]] + pieces[1..];
    }
  }

  /** JavaScript `s.split(sep)[index]`, which is `undefined` past the end. */
  function SplitAt(s: string, sep: char, index: nat): (r: Option<string>)
    ensures r.Some? ==> sep !in r.value
    ensures r.None? <==> index >= |Split(s, sep)|
  {
    var pieces := Split(s, sep);
    if index < |pieces| then Some(pieces[index]) else None
  }
}
