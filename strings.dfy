/**
 * The JavaScript string operations the panels rely on: `toLowerCase`,
 * `includes`, `slice(0, n)`, the relational `<` on strings and the default
 * `Array.prototype.sort` of an array of distinct strings.
 */
module Strings {

  /** `c.toLowerCase()` for the ASCII letters; every other character is kept. */
  function LowerChar(c: char): char {
    if 'A' <= c <= 'Z' then (c as int + 32) as char else c
  }

  predicate IsUpper(c: char) {
    'A' <= c <= 'Z'
  }

  /** `s.toLowerCase()`, character by character. */
  function Lower(s: string): (r: string)
    ensures |r| == |s|
    ensures forall i | 0 <= i < |s| :: !IsUpper(r[i])
    ensures forall i | 0 <= i < |s| :: !IsUpper(s[i]) ==> r[i] == s[i]
    ensures forall i | 0 <= i < |s| :: IsUpper(s[i]) ==> r[i] == (s[i] as int + 32) as char
  {
    if s == [] then [] else [LowerChar(s[0])] + Lower(s[1..])
  }

  /** Lower-casing distributes over concatenation. */
  lemma {:induction false} LowerConcat(a: string, b: string)
    ensures Lower(a + b) == Lower(a) + Lower(b)
  {
    if a == [] {
      assert a + b == b;
    } else {
      assert (a + b)[0] == a[0];
      assert (a + b)[1..] == a[1..] + b;
      LowerConcat(a[1..], b);
    }
  }

  /** Lower-casing twice is lower-casing once. */
  lemma {:induction false} LowerIdempotent(s: string)
    ensures Lower(Lower(s)) == Lower(s)
  {
    if s != [] {
      assert Lower(s)[1..] == Lower(s[1..]);
      LowerIdempotent(s[1..]);
    }
  }

  /** `s.slice(0, n)`: the first `n` characters, or all of `s` when it is shorter. */
  function Take(s: string, n: nat): (r: string)
    ensures |r| == if |s| <= n then |s| else n
    ensures r == s[..|r|]
  {
    if |s| <= n then s else s[..n]
  }

  /** `s.startsWith(p)`. */
  predicate StartsWith(s: string, p: string) {
    |p| <= |s| && s[..|p|] == p
  }

  /** `text.includes(word)`, scanning the start positions from left to right. */
  predicate Contains(text: string, word: string)
    decreases |text|
  {
    StartsWith(text, word) || (text != [] && Contains(text[1..], word))
  }

  /** `word` occurs in `text` at position `i`. */
  predicate OccursAt(text: string, word: string, i: int) {
    0 <= i && i + |word| <= |text| && text[i..i + |word|] == word
  }

  /** An occurrence at position `i` is found by the scan. */
  lemma {:induction false} OccursThenContains(text: string, word: string, i: nat)
    requires OccursAt(text, word, i)
    ensures Contains(text, word)
    decreases i
  {
    if i > 0 {
      assert text[1..][i - 1..i - 1 + |word|] == text[i..i + |word|];
      OccursThenContains(text[1..], word, i - 1);
    }
  }

  /** What the scan finds is an occurrence, at the returned position. */
  lemma {:induction false} ContainsThenOccurs(text: string, word: string) returns (i: nat)
    requires Contains(text, word)
    ensures OccursAt(text, word, i)
    decreases |text|
  {
    if StartsWith(text, word) {
      i := 0;
    } else {
      var j := ContainsThenOccurs(text[1..], word);
      assert text[j + 1..j + 1 + |word|] == text[1..][j..j + |word|];
      i := j + 1;
    }
  }

  /** The scan finds `word` exactly when it occurs at some position of `text`. */
  lemma ContainsIff(text: string, word: string)
    ensures Contains(text, word) <==> exists i :: OccursAt(text, word, i)
  {
    if Contains(text, word) {
      var i := ContainsThenOccurs(text, word);
    }
    if exists i :: OccursAt(text, word, i) {
      var i :| OccursAt(text, word, i);
      OccursThenContains(text, word, i);
    }
  }

  /** A word found in a part of a text is found in the whole text. */
  lemma ContainsInConcat(a: string, b: string, word: string)
    ensures Contains(a, word) ==> Contains(a + b, word)
    ensures Contains(b, word) ==> Contains(a + b, word)
  {
    ContainsIff(a, word);
    ContainsIff(b, word);
    ContainsIff(a + b, word);
    if Contains(a, word) {
      var i :| OccursAt(a, word, i);
      assert (a + b)[i..i + |word|] == a[i..i + |word|];
      assert OccursAt(a + b, word, i);
    }
    if Contains(b, word) {
      var i :| OccursAt(b, word, i);
      assert (a + b)[|a| + i..|a| + i + |word|] == b[i..i + |word|];
      assert OccursAt(a + b, word, |a| + i);
    }
  }

  /**
   * `a < b` on strings: the first differing character decides, and a proper
   * prefix is smaller.
   */
  predicate Less(a: string, b: string) {
    if a == [] then b != []
    else if b == [] then false
    else if a[0] != b[0] then a[0] < b[0]
    else Less(a[1..], b[1..])
  }

  lemma {:induction false} LessIrreflexive(a: string)
    ensures !Less(a, a)
  {
    if a != [] {
      LessIrreflexive(a[1..]);
    }
  }

  lemma {:induction false} LessTransitive(a: string, b: string, c: string)
    requires Less(a, b) && Less(b, c)
    ensures Less(a, c)
  {
    if a != [] && b != [] && c != [] && a[0] == b[0] && b[0] == c[0] {
      LessTransitive(a[1..], b[1..], c[1..]);
    }
  }

  /** Two different strings are always ordered one way or the other, and only one way. */
  lemma {:induction false} LessTotal(a: string, b: string)
    ensures a != b <==> (Less(a, b) || Less(b, a))
    ensures !(Less(a, b) && Less(b, a))
  {
    if a != [] && b != [] && a[0] == b[0] {
      LessTotal(a[1..], b[1..]);
      assert a == [a[0]] + a[1..] && b == [b[0]] + b[1..];
    } else if a == [] || b == [] {
      LessIrreflexive(a);
    }
  }

  /** Every string is smaller than every later one. */
  predicate StrictlyAscending(s: seq<string>) {
    forall i, j | 0 <= i < j < |s| :: Less(s[i], s[j])
  }

  predicate Distinct(s: seq<string>) {
    forall i, j | 0 <= i < j < |s| :: s[i] != s[j]
  }

  /** Places `x` into an ascending sequence that does not hold it yet. */
  function InsertAscending(x: string, s: seq<string>): (r: seq<string>)
    requires StrictlyAscending(s) && x !in s
    ensures StrictlyAscending(r)
    ensures multiset(r) == multiset(s) + multiset{x}
  {
    if s == [] then [x]
    else if Less(x, s[0]) then
      InsertFront(x, s);
      [x] + s
    else
      LessTotal(x, s[0]);
      assert s == [s[0]] + s[1..];
      var rest := InsertAscending(x, s[1..]);
      InsertFurther(x, s, rest);
      [s[0]] + rest
  }

  /** A string below the first of an ascending sequence can go in front. */
  lemma InsertFront(x: string, s: seq<string>)
    requires StrictlyAscending(s) && s != [] && Less(x, s[0])
    ensures StrictlyAscending([x] + s)
  {
    var r := [x] + s;
    forall j | 0 <= j < |s| ensures Less(x, s[j]) {
      if j > 0 { LessTransitive(x, s[0], s[j]); }
    }
    assert forall j | 1 <= j < |r| :: r[j] == s[j - 1];
  }

  /** The first of an ascending sequence stays in front of the rest with `x` placed among it. */
  lemma InsertFurther(x: string, s: seq<string>, rest: seq<string>)
    requires StrictlyAscending(s) && s != [] && Less(s[0], x)
    requires StrictlyAscending(rest) && multiset(rest) == multiset(s[1..]) + multiset{x}
    ensures StrictlyAscending([s[0]] + rest)
    ensures multiset([s[0]] + rest) == multiset(s) + multiset{x}
  {
    assert s == [s[0]] + s[1..];
    var r := [s[0]] + rest;
    forall j | 0 <= j < |rest| ensures Less(s[0], rest[j]) {
      assert rest[j] in multiset(rest);
      if rest[j] != x {
        assert rest[j] in s[1..];
        var k :| 0 <= k < |s[1..]| && s[1..][k] == rest[j];
        assert s[k + 1] == rest[j];
      }
    }
    assert forall j | 1 <= j < |r| :: r[j] == rest[j - 1];
  }

  /** `keys.sort()` for distinct strings: the same strings, in ascending order. */
  function SortAscending(s: seq<string>): (r: seq<string>)
    requires Distinct(s)
    ensures StrictlyAscending(r)
    ensures multiset(r) == multiset(s)
  {
    if s == [] then []
    else
      assert s == [s[0]] + s[1..];
      var rest := SortAscending(s[1..]);
      assert s[0] !in multiset(rest);
      InsertAscending(s[0], rest)
  }
}
