/**
 * String helpers standing in for Foundation's `trimmingCharacters(in:)`,
 * `split(separator:)` and `firstIndex(of:)`. Strings are sequences of Unicode
 * code points; Swift's grapheme clusters are not modelled.
 */
module Strings {

  /** Foundation's `CharacterSet.whitespacesAndNewlines`: the Unicode White_Space code points. */
  predicate IsWhitespace(c: char) {
    || c == ' '
    || ('\t' <= c <= '\r')
    || c == '\U{0085}' || c == '\U{00A0}' || c == '\U{1680}'
    || ('\U{2000}' <= c <= '\U{200A}')
    || c == '\U{2028}' || c == '\U{2029}' || c == '\U{202F}' || c == '\U{205F}' || c == '\U{3000}'
  }

  /** The first position at or after `i` whose character is kept (or `|s|`). */
  function KeptFrom(s: string, drop: char -> bool, i: nat): (n: nat)
    requires i <= |s|
    ensures i <= n <= |s|
    ensures forall k :: i <= k < n ==> drop(s[k])
    ensures n == |s| || !drop(s[n])
    decreases |s| - i
  {
    if i == |s| || !drop(s[i]) then i else KeptFrom(s, drop, i + 1)
  }

  /** The position just after the last kept character before `j` and at or after `lo` (or `lo`). */
  function KeptUntil(s: string, drop: char -> bool, lo: nat, j: nat): (n: nat)
    requires lo <= j <= |s|
    ensures lo <= n <= j
    ensures forall k :: n <= k < j ==> drop(s[k])
    ensures n == lo || !drop(s[n - 1])
    decreases j
  {
    if j == lo || !drop(s[j - 1]) then j else KeptUntil(s, drop, lo, j - 1)
  }

  /** How many leading characters `Trim` removes. */
  function TrimOffset(s: string, drop: char -> bool): (n: nat)
    ensures n <= |s|
  {
    KeptFrom(s, drop, 0)
  }

  /** `trimmingCharacters(in:)`: drops characters satisfying `drop` from both ends, and only there. */
  function Trim(s: string, drop: char -> bool): (r: string)
    ensures r == [] || (!drop(r[0]) && !drop(r[|r| - 1]))
    ensures r == [] <==> forall k :: 0 <= k < |s| ==> drop(s[k])
    ensures |r| <= |s|
    ensures forall k :: 0 <= k < TrimOffset(s, drop) ==> drop(s[k])
    ensures TrimOffset(s, drop) + |r| <= |s| && r == s[TrimOffset(s, drop)..TrimOffset(s, drop) + |r|]
    ensures forall k :: TrimOffset(s, drop) + |r| <= k < |s| ==> drop(s[k])
  {
    var lo := KeptFrom(s, drop, 0);
    var hi := KeptUntil(s, drop, lo, |s|);
    s[lo..hi]
  }

  /** Trimming a string that has nothing to trim at either end returns it unchanged. */
  lemma TrimUntrimmed(s: string, drop: char -> bool)
    requires s == [] || (!drop(s[0]) && !drop(s[|s| - 1]))
    ensures Trim(s, drop) == s
  {
  }

  /** Trimming is idempotent. */
  lemma TrimIdempotent(s: string, drop: char -> bool)
    ensures Trim(Trim(s, drop), drop) == Trim(s, drop)
  {
    var r := Trim(s, drop);
    assert r == [] || (!drop(r[0]) && !drop(r[|r| - 1]));
    TrimUntrimmed(r, drop);
  }

  /** Trims Unicode whitespace and newlines from both ends. */
  function TrimWhitespace(s: string): string {
    Trim(s, IsWhitespace)
  }

  /** The pieces between occurrences of `sep`, empty pieces included (Python's `str.split(sep)`). */
  function Fields(s: string, sep: char): (r: seq<string>)
    ensures |r| >= 1
    ensures forall i :: 0 <= i < |r| ==> sep !in r[i]
  {
    if s == [] then [[]]
    else
      var rest := Fields(s[1..], sep);
      if s[0] == sep then [[]] + rest else [[s[0]] + rest[0]] + rest[1..]
  }

  /** Joins pieces with `sep` between them. */
  function Join(parts: seq<string>, sep: char): string
    requires |parts| >= 1
  {
    if |parts| == 1 then parts[0] else parts[0] + [sep] + Join(parts[1..], sep)
  }

  /** Splitting at `sep` and joining again with `sep` gives back the string. */
  lemma {:induction false} JoinFields(s: string, sep: char)
    ensures Join(Fields(s, sep), sep) == s
  {
    if s != [] {
      var rest := Fields(s[1..], sep);
      JoinFields(s[1..], sep);
      if s[0] == sep {
        assert Fields(s, sep) == [[]] + rest;
        assert Fields(s, sep)[1..] == rest;
      } else {
        var f := Fields(s, sep);
        assert f == [[s[0]] + rest[0]] + rest[1..];
        if |rest| == 1 {
          assert f == [[s[0]] + rest[0]];
        } else {
          assert f[1..] == rest[1..];
          assert Join(rest, sep) == rest[0] + [sep] + Join(rest[1..], sep);
        }
      }
    }
  }

  /** Keeps the non-empty pieces, in order. */
  function NonEmpty(parts: seq<string>): (r: seq<string>)
    ensures forall i :: 0 <= i < |r| ==> r[i] != [] && r[i] in parts
    ensures forall p :: p in parts && p != [] ==> p in r
    ensures |r| <= |parts|
  {
    if parts == [] then []
    else if parts[0] == [] then NonEmpty(parts[1..])
    else [parts[0]] + NonEmpty(parts[1..])
  }

  /** Swift's `split(separator:)`, which omits empty pieces. */
  function Split(s: string, sep: char): (r: seq<string>)
    ensures forall i :: 0 <= i < |r| ==> r[i] != [] && sep !in r[i]
  {
    NonEmpty(Fields(s, sep))
  }

  /** A string without the separator splits into itself alone, or into nothing when it is empty. */
  lemma {:induction false} SplitWithoutSeparator(s: string, sep: char)
    requires sep !in s
    ensures Split(s, sep) == if s == [] then [] else [s]
  {
    FieldsWithoutSeparator(s, sep);
  }

  lemma {:induction false} FieldsWithoutSeparator(s: string, sep: char)
    requires sep !in s
    ensures Fields(s, sep) == [s]
  {
    if s != [] {
      FieldsWithoutSeparator(s[1..], sep);
      assert [s[0]] + s[1..] == s;
    }
  }

  /** A leading separator only adds an empty piece, which `Split` omits. */
  lemma SplitDropsLeadingSeparator(s: string, sep: char)
    ensures Split([sep] + s, sep) == Split(s, sep)
  {
    assert ([sep] + s)[1..] == s;
  }

  /** A separator-free prefix comes off as the first piece. */
  lemma {:induction false} FieldsOfPrefix(a: string, sep: char, b: string)
    requires sep !in a
    ensures Fields(a + [sep] + b, sep) == [a] + Fields(b, sep)
  {
    if a == [] {
      assert ([] + [sep] + b)[1..] == b;
    } else {
      FieldsOfPrefix(a[1..], sep, b);
      assert (a + [sep] + b)[1..] == a[1..] + [sep] + b;
      assert [a[0]] + a[1..] == a;
    }
  }

  /** Joining separator-free pieces and splitting again gives the pieces back, empty ones included. */
  lemma {:induction false} FieldsOfJoin(parts: seq<string>, sep: char)
    requires |parts| >= 1
    requires forall i :: 0 <= i < |parts| ==> sep !in parts[i]
    ensures Fields(Join(parts, sep), sep) == parts
  {
    if |parts| == 1 {
      FieldsWithoutSeparator(parts[0], sep);
    } else {
      FieldsOfJoin(parts[1..], sep);
      FieldsOfPrefix(parts[0], sep, Join(parts[1..], sep));
      assert [parts[0]] + parts[1..] == parts;
    }
  }

  lemma {:induction false} NonEmptyOfNonEmpty(parts: seq<string>)
    requires forall i :: 0 <= i < |parts| ==> parts[i] != []
    ensures NonEmpty(parts) == parts
  {
    if parts != [] {
      NonEmptyOfNonEmpty(parts[1..]);
      assert [parts[0]] + parts[1..] == parts;
    }
  }

  /** Non-empty separator-free pieces, joined, split back into exactly those pieces. */
  lemma SplitOfJoin(parts: seq<string>, sep: char)
    requires |parts| >= 1
    requires forall i :: 0 <= i < |parts| ==> parts[i] != [] && sep !in parts[i]
    ensures Split(Join(parts, sep), sep) == parts
  {
    FieldsOfJoin(parts, sep);
    NonEmptyOfNonEmpty(parts);
  }

  /** A separator-free suffix comes off as the last piece. */
  lemma {:induction false} FieldsOfSuffix(a: string, sep: char, b: string)
    requires sep !in b
    ensures Fields(a + [sep] + b, sep) == Fields(a, sep) + [b]
  {
    if a == [] {
      assert ([] + [sep] + b)[1..] == b;
      FieldsWithoutSeparator(b, sep);
    } else {
      FieldsOfSuffix(a[1..], sep, b);
      assert (a + [sep] + b)[1..] == a[1..] + [sep] + b;
      var rest := Fields(a[1..], sep);
      if a[0] != sep {
        assert (rest + [b])[1..] == rest[1..] + [b];
      }
    }
  }

  lemma {:induction false} NonEmptyAppend(parts: seq<string>, p: string)
    requires p != []
    ensures NonEmpty(parts + [p]) == NonEmpty(parts) + [p]
  {
    if parts == [] {
      assert [] + [p] == [p];
    } else {
      NonEmptyAppend(parts[1..], p);
      assert (parts + [p])[1..] == parts[1..] + [p];
    }
  }

  /** A non-empty separator-free suffix is the last piece `Split` returns. */
  lemma SplitLastPiece(a: string, sep: char, b: string)
    requires b != [] && sep !in b
    ensures Split(a + [sep] + b, sep) == Split(a, sep) + [b]
  {
    FieldsOfSuffix(a, sep, b);
    NonEmptyAppend(Fields(a, sep), b);
  }

  /** `Split` returns nothing exactly when the string is made of separators only. */
  lemma {:induction false} SplitEmptyIffSeparatorsOnly(s: string, sep: char)
    ensures Split(s, sep) == [] <==> forall k :: 0 <= k < |s| ==> s[k] == sep
  {
    if s != [] {
      SplitEmptyIffSeparatorsOnly(s[1..], sep);
      if s[0] == sep {
        assert Split(s, sep) == Split(s[1..], sep);
        assert (forall k :: 0 <= k < |s| ==> s[k] == sep) <==> (forall k :: 0 <= k < |s| - 1 ==> s[1..][k] == sep) by {
          forall k | 1 <= k < |s| ensures s[k] == s[1..][k - 1] { }
        }
      } else {
        assert Fields(s, sep)[0] != [];
      }
    }
  }

  /** The index of the first occurrence of `c`, if any (Swift's `firstIndex(of:)`). */
  function FirstIndex(s: string, c: char): (r: int)
    ensures -1 <= r < |s|
    ensures r == -1 <==> c !in s
    ensures r >= 0 ==> s[r] == c && c !in s[..r]
  {
    if s == [] then -1
    else if s[0] == c then 0
    else var k := FirstIndex(s[1..], c); if k == -1 then -1 else k + 1
  }
}
