/** The two pieces of Rust's `str` API the source relies on when it reads
    configuration strings: `to_lowercase` and `split`. */
module Strings {

  /** ASCII case folding, the part of `char::to_lowercase` that can affect
      the keywords the source compares against. */
  function LowerChar(c: char): char {
    if 'A' <= c <= 'Z' then (c as int + 32) as char else c
  }

  function ToLower(s: string): (r: string)
    ensures |r| == |s|
    ensures forall i :: 0 <= i < |s| ==> r[i] == LowerChar(s[i])
  {
    seq(|s|, i requires 0 <= i < |s| => LowerChar(s[i]))
  }

  /** No upper-case ASCII letter occurs in `s`. */
  predicate IsLower(s: string) {
    forall i :: 0 <= i < |s| ==> !('A' <= s[i] <= 'Z')
  }

  lemma ToLowerOfLower(s: string)
    requires IsLower(s)
    ensures ToLower(s) == s
  {
  }

  lemma ToLowerIsLower(s: string)
    ensures IsLower(ToLower(s))
  {
  }

  /** Number of occurrences of `c` in `s`. */
  function Occurrences(s: string, c: char): nat {
    if s == [] then 0 else (if s[0] == c then 1 else 0) + Occurrences(s[1..], c)
  }

  /** `s.split(sep).collect()`: the pieces between separators, always one
      more piece than there are separators (so "" splits into [""]). */
  function Split(s: string, sep: char): (parts: seq<string>)
    ensures |parts| == Occurrences(s, sep) + 1
    ensures forall k :: 0 <= k < |parts| ==> sep !in parts[k]
  {
    if s == [] then [""]
    else
      var rest := Split(s[1..], sep);
      if s[0] == sep then [""] + rest
      else [[s[0]] + rest[0]] + rest[1..]
  }

  lemma {:induction false} SplitWithoutSeparator(s: string, sep: char)
    requires sep !in s
    ensures Split(s, sep) == [s]
  {
    if s != [] {
      SplitWithoutSeparator(s[1..], sep);
      assert [s[0]] + s[1..] == s;
    }
  }

  /** Splitting `a + sep + b`, where neither side contains `sep`, gives back
      exactly the two sides. */
  lemma {:induction false} SplitAround(a: string, sep: char, b: string)
    requires sep !in a && sep !in b
    ensures Split(a + [sep] + b, sep) == [a, b]
  {
    if a == [] {
      assert a + [sep] + b == [sep] + b;
      assert ([sep] + b)[1..] == b;
      SplitWithoutSeparator(b, sep);
    } else {
      var s := a + [sep] + b;
      assert s[0] == a[0] && s[1..] == a[1..] + [sep] + b;
      SplitAround(a[1..], sep, b);
      assert [a[0]] + a[1..] == a;
    }
  }
  /** Lower-casing works character by character, so it distributes over
      concatenation. */
  lemma ToLowerAppend(a: string, b: string)
    ensures ToLower(a + b) == ToLower(a) + ToLower(b)
  {
  }

  /** A separator that is not a letter survives lower-casing exactly where
      it was. */
  lemma {:induction false} OccurrencesLower(s: string, sep: char)
    requires !('A' <= sep <= 'Z') && !('a' <= sep <= 'z')
    ensures Occurrences(ToLower(s), sep) == Occurrences(s, sep)
    ensures sep !in s ==> sep !in ToLower(s)
  {
    if s != [] {
      assert ToLower(s)[1..] == ToLower(s[1..]);
      OccurrencesLower(s[1..], sep);
    }
  }

  /** With exactly one separator, `s` is its two pieces joined by it. */
  lemma {:induction false} SplitJoin(s: string, sep: char)
    requires Occurrences(s, sep) == 1
    ensures s == Split(s, sep)[0] + [sep] + Split(s, sep)[1]
  {
    var rest := Split(s[1..], sep);
    if s[0] == sep {
      assert Occurrences(s[1..], sep) == 0;
      assert sep !in s[1..] by {
        if sep in s[1..] {
          var k :| 0 <= k < |s[1..]| && s[1..][k] == sep;
          OccurrencesPositive(s[1..], sep, k);
        }
      }
      SplitWithoutSeparator(s[1..], sep);
      assert s == [] + [sep] + s[1..];
    } else {
      SplitJoin(s[1..], sep);
      assert s == [s[0]] + s[1..];
    }
  }

  lemma {:induction false} OccurrencesPositive(s: string, c: char, k: nat)
    requires k < |s| && s[k] == c
    ensures Occurrences(s, c) > 0
  {
    if k > 0 {
      OccurrencesPositive(s[1..], c, k - 1);
    }
  }
}
