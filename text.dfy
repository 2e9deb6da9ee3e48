/** The few JavaScript string operations the data layer relies on. */
module Text {
  import opened Wrappers

  /** JavaScript truthiness of an optional string: present and non-empty. */
  predicate IsTruthy(s: Option<string>) {
    s.Some? && s.value != ""
  }

  /** `s.startsWith(prefix)`. */
  predicate StartsWith(s: string, prefix: string) {
    |prefix| <= |s| && s[..|prefix|] == prefix
  }

  /** `t` occurs in `s` at index `i`: the independent reference for the search functions. */
  ghost predicate OccursAt(s: string, t: string, i: int) {
    0 <= i && i + |t| <= |s| && s[i..i + |t|] == t
  }

  lemma OccursAtShift(s: string, t: string, i: int)
    requires |s| > 0 && 0 <= i
    ensures OccursAt(s, t, i + 1) <==> OccursAt(s[1..], t, i)
  {
    if 0 <= i && i + 1 + |t| <= |s| {
      assert s[i + 1..i + 1 + |t|] == s[1..][i..i + |t|];
    }
  }

  /** `s.includes(t)`. */
  predicate Contains(s: string, t: string)
    decreases |s|
  {
    StartsWith(s, t) || (|s| > 0 && Contains(s[1..], t))
  }

  lemma {:induction false} ContainsIff(s: string, t: string)
    ensures Contains(s, t) <==> exists i :: OccursAt(s, t, i)
    decreases |s|
  {
    if StartsWith(s, t) {
      assert OccursAt(s, t, 0);
    } else if |s| == 0 {
      assert forall i :: !OccursAt(s, t, i);
    } else {
      ContainsIff(s[1..], t);
      if Contains(s[1..], t) {
        var i :| OccursAt(s[1..], t, i);
        OccursAtShift(s, t, i);
      } else {
        forall i | OccursAt(s, t, i) ensures false {
          if i > 0 {
            OccursAtShift(s, t, i - 1);
          }
        }
      }
    }
  }

  /** A text cannot contain anything longer than itself. */
  lemma {:induction false} ContainsNotLonger(s: string, t: string)
    requires |s| < |t|
    ensures !Contains(s, t)
    decreases |s|
  {
    if |s| > 0 {
      ContainsNotLonger(s[1..], t);
    }
  }

  /** `s.indexOf(t)`, with `None` for -1. */
  function IndexOf(s: string, t: string): Option<nat>
    decreases |s|
  {
    if StartsWith(s, t) then Some(0)
    else if |s| == 0 then None
    else match IndexOf(s[1..], t)
      case None => None
      case Some(i) => Some(i + 1)
  }

  /** `IndexOf` gives the first index where `t` occurs, and nothing when it occurs nowhere. */
  lemma {:induction false} IndexOfSpec(s: string, t: string)
    ensures IndexOf(s, t).Some? ==> OccursAt(s, t, IndexOf(s, t).value)
    ensures IndexOf(s, t).Some? ==> forall j :: 0 <= j < IndexOf(s, t).value ==> !OccursAt(s, t, j)
    ensures IndexOf(s, t).None? ==> forall j :: !OccursAt(s, t, j)
    decreases |s|
  {
    if StartsWith(s, t) {
      assert s[0..|t|] == s[..|t|];
    } else if |s| > 0 {
      assert !OccursAt(s, t, 0) by { assert |t| <= |s| ==> s[0..|t|] == s[..|t|]; }
      forall j | 1 <= j ensures OccursAt(s, t, j) <==> OccursAt(s[1..], t, j - 1) {
        OccursAtShift(s, t, j - 1);
      }
      IndexOfSpec(s[1..], t);
    }
  }

  /** `IndexOf` finds something exactly when `Contains` holds. */
  lemma IndexOfIffContains(s: string, t: string)
    ensures IndexOf(s, t).Some? <==> Contains(s, t)
  {
    ContainsIff(s, t);
    IndexOfSpec(s, t);
    if IndexOf(s, t).Some? {
      assert OccursAt(s, t, IndexOf(s, t).value);
    }
  }

  /** `s.replace(pattern, replacement)` with a string pattern: only the first occurrence is replaced. */
  function ReplaceFirst(s: string, pattern: string, replacement: string): string
    decreases |s|
  {
    if StartsWith(s, pattern) then replacement + s[|pattern|..]
    else if s == [] then s
    else [s[0]] + ReplaceFirst(s[1..], pattern, replacement)
  }

  /** Without an occurrence `ReplaceFirst` changes nothing. */
  lemma {:induction false} ReplaceFirstMiss(s: string, pattern: string, replacement: string)
    requires IndexOf(s, pattern).None?
    ensures ReplaceFirst(s, pattern, replacement) == s
    decreases |s|
  {
    if s != [] {
      ReplaceFirstMiss(s[1..], pattern, replacement);
      assert s == [s[0]] + s[1..];
    }
  }

  /** With the first occurrence at `i`, `ReplaceFirst` splices the replacement in there. */
  lemma {:induction false} ReplaceFirstHit(s: string, pattern: string, replacement: string, i: nat)
    requires IndexOf(s, pattern) == Some(i)
    ensures i + |pattern| <= |s|
    ensures ReplaceFirst(s, pattern, replacement) == s[..i] + replacement + s[i + |pattern|..]
    decreases |s|
  {
    if StartsWith(s, pattern) {
      assert s[..0] == [];
    } else {
      var t := s[1..];
      ReplaceFirstHit(t, pattern, replacement, i - 1);
      assert ReplaceFirst(s, pattern, replacement) == [s[0]] + ReplaceFirst(t, pattern, replacement);
      assert s[..i] == [s[0]] + t[..i - 1];
      assert s[i + |pattern|..] == t[i - 1 + |pattern|..];
    }
  }

  /** What `ReplaceFirst` does, stated against `OccursAt`. */
  lemma ReplaceFirstSpec(s: string, pattern: string, replacement: string)
    ensures !Contains(s, pattern) ==> ReplaceFirst(s, pattern, replacement) == s
    ensures Contains(s, pattern) ==> exists i ::
      && OccursAt(s, pattern, i)
      && (forall j :: 0 <= j < i ==> !OccursAt(s, pattern, j))
      && ReplaceFirst(s, pattern, replacement) == s[..i] + replacement + s[i + |pattern|..]
  {
    IndexOfIffContains(s, pattern);
    IndexOfSpec(s, pattern);
    if Contains(s, pattern) {
      var i := IndexOf(s, pattern).value;
      ReplaceFirstHit(s, pattern, replacement, i);
      assert OccursAt(s, pattern, i);
    } else {
      ReplaceFirstMiss(s, pattern, replacement);
    }
  }

  /** Replacing a prefix that the text starts with removes exactly that prefix. */
  lemma ReplaceFirstAtStart(prefix: string, rest: string)
    ensures ReplaceFirst(prefix + rest, prefix, "") == rest
  {
    var s := prefix + rest;
    assert s[..|prefix|] == prefix;
  }

  /** `s.split('/').pop()`: the text after the last '/' of `s`, or all of `s` when there is none. */
  function LastSegment(s: string): string {
    if |s| == 0 then ""
    else if s[|s| - 1] == '/' then ""
    else LastSegment(s[..|s| - 1]) + [s[|s| - 1]]
  }

  /** The last segment is a suffix without '/', and a '/' stands right before it unless it is all of `s`. */
  lemma {:induction false} LastSegmentSpec(s: string)
    ensures var r := LastSegment(s);
      && |r| <= |s| && r == s[|s| - |r|..]
      && '/' !in r
      && (|r| < |s| ==> s[|s| - |r| - 1] == '/')
  {
    if |s| > 0 && s[|s| - 1] != '/' {
      var init, c := s[..|s| - 1], s[|s| - 1];
      LastSegmentSpec(init);
      var q := LastSegment(init);
      assert LastSegment(s) == q + [c];
      assert s == init + [c];
      assert init[|init| - |q|..] + [c] == s[|s| - |q| - 1..];
      assert |q| + 1 < |s| ==> s[|s| - |q| - 2] == init[|init| - |q| - 1];
    }
  }

  /** The three facts of `LastSegment`'s contract determine it. */
  lemma LastSegmentUnique(s: string, r: string)
    requires |r| <= |s| && r == s[|s| - |r|..] && '/' !in r
    requires |r| < |s| ==> s[|s| - |r| - 1] == '/'
    ensures LastSegment(s) == r
  {
    LastSegmentSpec(s);
  }

  /** ASCII lower-casing of one character. */
  function LowerChar(c: char): char {
    if 'A' <= c <= 'Z' then (c as int + 32) as char else c
  }

  /** `s.toLowerCase()` over ASCII. */
  function Lower(s: string): string {
    seq(|s|, i requires 0 <= i < |s| => LowerChar(s[i]))
  }

  /** A text without upper-case ASCII letters is its own lower-case form. */
  lemma LowerOfLowercase(s: string)
    requires forall i :: 0 <= i < |s| ==> !('A' <= s[i] <= 'Z')
    ensures Lower(s) == s
  {
  }

  /** The inverse of `Split`: the parts with `sep` between them. */
  function Join(parts: seq<string>, sep: char): string
    requires |parts| >= 1
  {
    if |parts| == 1 then parts[0] else parts[0] + [sep] + Join(parts[1..], sep)
  }

  /** `s.split(sep)` for a one-character separator. */
  function Split(s: string, sep: char): (parts: seq<string>)
    ensures |parts| >= 1
  {
    if s == [] then [""]
    else
      var rest := Split(s[1..], sep);
      if s[0] == sep then [""] + rest
      else [[s[0]] + rest[0]] + rest[1..]
  }

  /** The parts hold no separator, and joining them gives `s` back. */
  lemma {:induction false} SplitJoin(s: string, sep: char)
    ensures forall i :: 0 <= i < |Split(s, sep)| ==> sep !in Split(s, sep)[i]
    ensures Join(Split(s, sep), sep) == s
  {
    if s != [] {
      SplitJoin(s[1..], sep);
      var rest := Split(s[1..], sep);
      var parts := Split(s, sep);
      if s[0] == sep {
        assert parts[1..] == rest;
      } else {
        assert parts[1..] == rest[1..];
        assert s == [s[0]] + s[1..];
        forall i | 1 <= i < |parts| ensures sep !in parts[i] {
          assert parts[i] == rest[i];
        }
      }
    }
  }

  /** The last of some separator-free parts is the text after the last separator of their join. */
  lemma {:induction false} LastPartIsLastSegment(parts: seq<string>)
    requires |parts| >= 1
    requires forall i :: 0 <= i < |parts| ==> '/' !in parts[i]
    ensures LastSegment(Join(parts, '/')) == parts[|parts| - 1]
  {
    if |parts| > 1 {
      var tail := parts[1..];
      assert forall i :: 0 <= i < |tail| ==> '/' !in tail[i] by {
        forall i | 0 <= i < |tail| ensures '/' !in tail[i] { assert tail[i] == parts[i + 1]; }
      }
      LastPartIsLastSegment(tail);
      LastSegmentOfSlashSuffix(parts[0], Join(tail, '/'));
    } else {
      LastSegmentUnique(parts[0], parts[0]);
    }
  }

  /** Whatever precedes a '/', the last segment is decided by what follows it. */
  lemma LastSegmentOfSlashSuffix(a: string, b: string)
    ensures LastSegment(a + "/" + b) == LastSegment(b)
  {
    var s := a + "/" + b;
    var r := LastSegment(b);
    LastSegmentSpec(b);
    assert s[|s| - |b|..] == b;
    assert r == s[|s| - |r|..];
    if |r| < |b| {
      assert s[|s| - |r| - 1] == b[|b| - |r| - 1];
    } else {
      assert s[|s| - |b| - 1] == '/';
    }
    LastSegmentUnique(s, r);
  }

  /** `s.split('/').pop()` always yields a value, and it is `LastSegment(s)`. */
  lemma SplitPopIsLastSegment(s: string)
    ensures |Split(s, '/')| > 0
    ensures Split(s, '/')[|Split(s, '/')| - 1] == LastSegment(s)
  {
    var parts := Split(s, '/');
    SplitJoin(s, '/');
    LastPartIsLastSegment(parts);
  }
}
