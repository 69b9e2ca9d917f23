/** Python-style string helpers of the library: `startswith`, `lower`,
    `split`, `strip` and `is_None`.  Characters are those of the C locale:
    `tolower` changes only 'A'..'Z' and `isspace` holds only of the six ASCII
    white-space characters. */
module PythonFunctions {

  // ---------------------------------------------------------------- startswith

  /** `startswith(s, prefix)`: false when the prefix is longer than `s`,
      otherwise whether the first |prefix| characters of `s` are the prefix. */
  function StartsWith(s: string, prefix: string): (r: bool)
    ensures r <==> exists rest :: s == prefix + rest
  {
    if |s| < |prefix| then
      false
    else
      var b := prefix == s[..|prefix|];
      assert b ==> s == prefix + s[|prefix|..];
      b
  }

  /** Every string starts with the empty prefix, and `p + t` starts with `p`. */
  lemma StartsWithConcatenation(p: string, t: string)
    ensures StartsWith(p + t, p)
    ensures StartsWith(t, "")
  {
    assert p + t == p + t;
    assert t == "" + t;
  }

  // --------------------------------------------------------------------- lower

  /** `tolower` in the C locale. */
  function ToLower(c: char): char
  {
    if 'A' <= c <= 'Z' then (c as int + 32) as char else c
  }

  /** `lower(s)`: the copy of `s` lower-cased character by character. */
  function Lower(s: string): (r: string)
    ensures |r| == |s|
    ensures forall i :: 0 <= i < |s| ==> r[i] == ToLower(s[i])
  {
    if s == [] then [] else [ToLower(s[0])] + Lower(s[1..])
  }

  /** Lower-casing twice is lower-casing once, and a lower-cased string holds
      no upper-case letter. */
  lemma {:induction false} LowerIdempotent(s: string)
    ensures Lower(Lower(s)) == Lower(s)
    ensures forall i :: 0 <= i < |s| ==> !('A' <= Lower(s)[i] <= 'Z')
  {
    var l := Lower(s);
    forall i | 0 <= i < |s|
      ensures Lower(l)[i] == l[i] && !('A' <= l[i] <= 'Z')
    {
      assert l[i] == ToLower(s[i]);
    }
    assert Lower(l) == l;
  }

  // --------------------------------------------------------------------- split

  /** Index of the first `d` in `s`, or |s| when there is none. */
  function FirstIndex(s: string, d: char): (i: nat)
    ensures i <= |s|
    ensures i < |s| ==> s[i] == d
  {
    if s == [] then 0 else if s[0] == d then 0 else 1 + FirstIndex(s[1..], d)
  }

  /** No `d` comes before `FirstIndex(s, d)`. */
  lemma {:induction false} FirstIndexIsFirst(s: string, d: char)
    ensures forall k :: 0 <= k < FirstIndex(s, d) ==> s[k] != d
  {
    if s != [] && s[0] != d {
      FirstIndexIsFirst(s[1..], d);
      assert forall k :: 1 <= k < FirstIndex(s, d) ==> s[k] == s[1..][k - 1];
    }
  }

  /** The pieces `getline(buffer, tmp, d)` extracts from `s`, in order: each
      call consumes up to and including the next delimiter, and no call
      succeeds once the end of the input has been reached. */
  function Fields(s: string, d: char): (r: seq<string>)
    decreases |s|
  {
    if s == [] then []
    else
      var i := FirstIndex(s, d);
      if i == |s| then [s] else [s[..i]] + Fields(s[i + 1..], d)
  }

  /** The pieces joined with `d` in between. */
  function Join(pieces: seq<string>, d: char): string
  {
    if pieces == [] then []
    else if |pieces| == 1 then pieces[0]
    else pieces[0] + [d] + Join(pieces[1..], d)
  }

  /** Number of occurrences of `d` in `s`. */
  function Count(s: string, d: char): nat
  {
    if s == [] then 0 else (if s[0] == d then 1 else 0) + Count(s[1..], d)
  }

  lemma CountAppend(a: string, b: string, d: char)
    ensures Count(a + b, d) == Count(a, d) + Count(b, d)
  {
    if a != [] {
      assert (a + b)[0] == a[0];
      assert (a + b)[1..] == a[1..] + b;
      CountAppend(a[1..], b, d);
    } else {
      assert a + b == b;
    }
  }

  lemma {:induction false} CountNone(s: string, d: char)
    requires forall k :: 0 <= k < |s| ==> s[k] != d
    ensures Count(s, d) == 0
  {
    if s != [] {
      assert s[0] != d;
      CountNone(s[1..], d);
    }
  }

  /** The first piece of `s` and what follows it, when `s` holds a `d`. */
  lemma FieldsUnfold(s: string, d: char)
    requires s != [] && FirstIndex(s, d) < |s|
    ensures Fields(s, d) == [s[..FirstIndex(s, d)]] + Fields(s[FirstIndex(s, d) + 1..], d)
  {
  }

  /** An index before which `s` has no `d`, and which is a `d` or the end,
      is the first index of `d`. */
  lemma {:induction false} FirstIndexAt(s: string, d: char, j: nat)
    requires j <= |s|
    requires forall k :: 0 <= k < j ==> s[k] != d
    requires j < |s| ==> s[j] == d
    ensures FirstIndex(s, d) == j
  {
    if s != [] && s[0] != d {
      assert s[1..][j - 1..] == s[j..];
      FirstIndexAt(s[1..], d, j - 1);
    }
  }

  /** The first delimiter counts once; the rest are after it. */
  lemma {:induction false} CountAtFirst(s: string, d: char)
    requires FirstIndex(s, d) < |s|
    ensures Count(s, d) == 1 + Count(s[FirstIndex(s, d) + 1..], d)
  {
    if s[0] != d {
      CountAtFirst(s[1..], d);
      assert s[1..][FirstIndex(s[1..], d) + 1..] == s[FirstIndex(s, d) + 1..];
    }
  }

  /** No piece contains the delimiter. */
  lemma {:induction false} FieldsHaveNoDelimiter(s: string, d: char)
    ensures forall i :: 0 <= i < |Fields(s, d)| ==> d !in Fields(s, d)[i]
    decreases |s|
  {
    if s != [] {
      var i := FirstIndex(s, d);
      if i < |s| {
        FieldsHaveNoDelimiter(s[i + 1..], d);
        FieldsUnfold(s, d);
        FirstIndexIsFirst(s, d);
        assert d !in s[..i];
      } else {
        FirstIndexIsFirst(s, d);
      }
    }
  }

  /** Joining a first piece to further pieces puts one `d` between them. */
  lemma JoinCons(p: string, tail: seq<string>, d: char)
    requires tail != []
    ensures Join([p] + tail, d) == p + [d] + Join(tail, d)
  {
    assert ([p] + tail)[1..] == tail;
  }

  /** The join of a first piece `s[..i]`, ended by the delimiter at `i`,
      and of further pieces that join to the rest of `s` without its
      trailing delimiter, is `s` without its trailing delimiter. */
  lemma JoinFirst(s: string, d: char, i: nat, tail: seq<string>)
    requires i < |s| && s[i] == d
    requires tail == [] <==> s[i + 1..] == []
    requires var rest := s[i + 1..];
             Join(tail, d) == if rest != [] && rest[|rest| - 1] == d then rest[..|rest| - 1] else rest
    ensures Join([s[..i]] + tail, d) == if s[|s| - 1] == d then s[..|s| - 1] else s
  {
    var rest := s[i + 1..];
    assert s == s[..i] + [d] + rest;
    if rest == [] {
      assert s[..|s| - 1] == s[..i];
    } else {
      JoinCons(s[..i], tail, d);
      assert s[|s| - 1] == rest[|rest| - 1];
      if rest[|rest| - 1] == d {
        assert s[..|s| - 1] == s[..i] + [d] + rest[..|rest| - 1];
      }
    }
  }

  /** Joining the pieces with `d` gives back `s` without at most one trailing
      delimiter; a leading or an interior delimiter therefore produces an
      empty piece, and a trailing delimiter no trailing empty piece. */
  lemma {:induction false} FieldsJoin(s: string, d: char)
    ensures Join(Fields(s, d), d) == if s != [] && s[|s| - 1] == d then s[..|s| - 1] else s
    decreases |s|
  {
    if s != [] {
      var i := FirstIndex(s, d);
      if i < |s| {
        var rest := s[i + 1..];
        FieldsJoin(rest, d);
        FieldsUnfold(s, d);
        assert Fields(rest, d) == [] <==> rest == [];
        JoinFirst(s, d, i, Fields(rest, d));
      } else {
        FirstIndexIsFirst(s, d);
      }
    }
  }

  /** There is one piece per delimiter, plus one for a final piece that no
      delimiter ends; "" has no piece. */
  lemma {:induction false} FieldsCount(s: string, d: char)
    ensures |Fields(s, d)| == Count(s, d) + (if s != [] && s[|s| - 1] != d then 1 else 0)
    decreases |s|
  {
    if s != [] {
      var i := FirstIndex(s, d);
      if i == |s| {
        FirstIndexIsFirst(s, d);
        CountNone(s, d);
      } else {
        var rest := s[i + 1..];
        FieldsCount(rest, d);
        FieldsUnfold(s, d);
        CountAtFirst(s, d);
        assert rest != [] ==> s[|s| - 1] == rest[|rest| - 1];
      }
    }
  }

  /** `split(s, d)`: the getline loop pushing each extracted piece; `rest`
      is what the string stream has not read yet. */
  method Split(s: string, d: char) returns (pieces: seq<string>)
    ensures pieces == Fields(s, d)
  {
    pieces := [];
    var rest := s;
    while rest != []
      invariant pieces + Fields(rest, d) == Fields(s, d)
      decreases |rest|
    {
      var j := 0;
      while j < |rest| && rest[j] != d
        invariant j <= |rest|
        invariant forall k :: 0 <= k < j ==> rest[k] != d
      {
        j := j + 1;
      }
      FirstIndexAt(rest, d, j);
      var next: string;
      if j < |rest| {
        FieldsUnfold(rest, d);
        next := rest[j + 1..];
      } else {
        assert rest[..j] == rest;
        next := [];
      }
      assert Fields(rest, d) == [rest[..j]] + Fields(next, d);
      assert (pieces + [rest[..j]]) + Fields(next, d) == pieces + ([rest[..j]] + Fields(next, d));
      pieces := pieces + [rest[..j]];
      rest := next;
    }
  }

  // --------------------------------------------------------------------- strip

  /** `isspace` in the C locale: space, \t, \n, \v, \f and \r. */
  predicate IsSpace(c: char)
  {
    c == ' ' || ('\t' <= c <= '\r')
  }

  /** Number of leading white-space characters of `s`. */
  function LeadingSpaces(s: string): (n: nat)
    ensures n <= |s|
    ensures n < |s| ==> !IsSpace(s[n])
  {
    if s == [] || !IsSpace(s[0]) then 0 else 1 + LeadingSpaces(s[1..])
  }

  /** Every character before `LeadingSpaces(s)` is white space. */
  lemma {:induction false} LeadingSpacesAreSpaces(s: string)
    ensures forall k :: 0 <= k < LeadingSpaces(s) ==> IsSpace(s[k])
  {
    if s != [] && IsSpace(s[0]) {
      LeadingSpacesAreSpaces(s[1..]);
      assert forall k :: 1 <= k < LeadingSpaces(s) ==> s[k] == s[1..][k - 1];
    }
  }

  /** A white-space run of length `n` followed by a non-space or the end is
      the leading white space. */
  lemma {:induction false} LeadingSpacesAt(s: string, n: nat)
    requires n <= |s|
    requires forall k :: 0 <= k < n ==> IsSpace(s[k])
    requires n < |s| ==> !IsSpace(s[n])
    ensures LeadingSpaces(s) == n
  {
    if n > 0 {
      assert IsSpace(s[0]);
      assert s[1..][n - 1..] == s[n..];
      LeadingSpacesAt(s[1..], n - 1);
    }
  }

  /** `s` without its trailing white space. */
  function TrimTrailing(s: string): (r: string)
    ensures |r| <= |s| && r == s[..|r|]
    ensures r != [] ==> !IsSpace(r[|r| - 1])
  {
    if s == [] || !IsSpace(s[|s| - 1]) then s else TrimTrailing(s[..|s| - 1])
  }

  /** Only white space is cut by `TrimTrailing`. */
  lemma {:induction false} TrimmedTailIsSpace(s: string)
    ensures forall k :: |TrimTrailing(s)| <= k < |s| ==> IsSpace(s[k])
  {
    if s != [] && IsSpace(s[|s| - 1]) {
      TrimmedTailIsSpace(s[..|s| - 1]);
    }
  }

  /** What `strip(s)` returns. */
  function Stripped(s: string): string
  {
    TrimTrailing(s[LeadingSpaces(s)..])
  }

  /** The stripped string is `s[i..j]` for the leading white space `i` and
      the end `j` of what `TrimTrailing` keeps; white space only outside. */
  lemma StrippedBounds(s: string, i: nat, j: nat)
    requires i == LeadingSpaces(s) && j == i + |TrimTrailing(s[i..])|
    ensures i <= j <= |s| && Stripped(s) == s[i..j]
    ensures forall k :: 0 <= k < i ==> IsSpace(s[k])
    ensures forall k :: j <= k < |s| ==> IsSpace(s[k])
  {
    var t := s[i..];
    LeadingSpacesAreSpaces(s);
    TrimmedTailIsSpace(t);
    assert TrimTrailing(t) == t[..j - i] == s[i..j];
    forall k | j <= k < |s|
      ensures IsSpace(s[k])
    {
      assert s[k] == t[k - i];
    }
  }

  /** `strip` returns the contiguous piece of `s` between a white-space
      prefix and a white-space suffix that neither starts nor ends with white
      space; for an all-white-space `s` that piece is "". */
  lemma StrippedCharacterization(s: string)
    ensures exists i, j :: 0 <= i <= j <= |s| && Stripped(s) == s[i..j] &&
                           (forall k :: 0 <= k < i ==> IsSpace(s[k])) &&
                           (forall k :: j <= k < |s| ==> IsSpace(s[k]))
    ensures Stripped(s) != [] ==> !IsSpace(Stripped(s)[0]) && !IsSpace(Stripped(s)[|Stripped(s)| - 1])
    ensures (forall k :: 0 <= k < |s| ==> IsSpace(s[k])) <==> Stripped(s) == []
  {
    var i := LeadingSpaces(s);
    var j := i + |TrimTrailing(s[i..])|;
    StrippedBounds(s, i, j);
    var r := Stripped(s);
    if r != [] {
      assert r[0] == s[i];
    }
    if forall k :: 0 <= k < |s| ==> IsSpace(s[k]) {
      assert i == |s|;
    }
  }

  /** A string with no white space at either end is its own strip. */
  lemma StrippedOfTrimmed(s: string)
    requires s != [] ==> !IsSpace(s[0]) && !IsSpace(s[|s| - 1])
    ensures Stripped(s) == s
  {
    assert LeadingSpaces(s) == 0;
    assert s[0..] == s;
  }

  /** `strip` is idempotent. */
  lemma StripIdempotent(s: string)
    ensures Stripped(Stripped(s)) == Stripped(s)
  {
    StrippedCharacterization(s);
    StrippedOfTrimmed(Stripped(s));
  }

  /** `TrimTrailing` of a string whose white-space tail starts at `k`. */
  lemma TrimTrailingAt(t: string, k: nat)
    requires 0 < k <= |t|
    requires forall m :: k <= m < |t| ==> IsSpace(t[m])
    requires !IsSpace(t[k - 1])
    ensures TrimTrailing(t) == t[..k]
    decreases |t|
  {
    if k < |t| {
      TrimTrailingAt(t[..|t| - 1], k);
      assert t[..|t| - 1][..k] == t[..k];
    } else {
      assert t[..k] == t;
    }
  }

  /** `strip(s)`: walks `start_idx` forward and `end_idx` backward over white
      space and returns the piece in between. */
  method Strip(s: string) returns (r: string)
    ensures r == Stripped(s)
  {
    var startIdx := 0;
    var total := |s|;
    while startIdx < total && IsSpace(s[startIdx])
      invariant 0 <= startIdx <= total
      invariant forall k :: 0 <= k < startIdx ==> IsSpace(s[k])
    {
      startIdx := startIdx + 1;
    }
    LeadingSpacesAt(s, startIdx);
    if startIdx == total {
      assert s[startIdx..] == [];
      return "";
    }
    var endIdx := total - 1;
    while endIdx > startIdx && IsSpace(s[endIdx])
      invariant startIdx <= endIdx <= total - 1
      invariant forall k :: endIdx < k < total ==> IsSpace(s[k])
    {
      endIdx := endIdx - 1;
    }
    var t := s[startIdx..];
    assert !IsSpace(t[endIdx - startIdx]);
    TrimTrailingAt(t, endIdx - startIdx + 1);
    assert t[..endIdx - startIdx + 1] == s[startIdx..endIdx + 1];
    r := s[startIdx..endIdx + 1];
  }

  // ------------------------------------------------------------------- is_None

  /** `is_None(s)`: the library's sentinel for "no such directory/chip". */
  function IsNone(s: string): (r: bool)
    ensures r <==> s == "None"
  {
    s == "None"
  }
}
