/**
 * The handful of Python/JavaScript string operations the synchronizer relies on:
 * `sub in s`, `str.replace`, `str.split`, `sep.join`, slicing, ASCII lower-casing
 * and decimal formatting of an index. Each is defined once here, with the
 * properties the other modules use.
 */
module Strings {
  import opened Wrappers

  /** `sub in s`: `sub` occurs as a consecutive piece of `s`. */
  predicate Contains(s: string, sub: string)
    decreases |s|
  {
    sub <= s || (s != [] && Contains(s[1..], sub))
  }

  /** An occurrence at a known position makes `Contains` true. */
  lemma {:induction false} ContainsAt(s: string, sub: string, i: nat)
    requires i + |sub| <= |s| && s[i..i + |sub|] == sub
    ensures Contains(s, sub)
    decreases i
  {
    if i == 0 {
      assert sub <= s;
    } else {
      assert s[1..][i - 1..i - 1 + |sub|] == s[i..i + |sub|];
      ContainsAt(s[1..], sub, i - 1);
    }
  }

  /**
   * Python's `s.replace(pat, rep)`: every non-overlapping occurrence of `pat`,
   * scanned from the left, is replaced by `rep`. An empty `pat` inserts `rep`
   * before every character and at the end, as Python does.
   */
  function ReplaceAll(s: string, pat: string, rep: string): string
    decreases |s|
  {
    if pat == [] then
      (if s == [] then rep else rep + [s[0]] + ReplaceAll(s[1..], pat, rep))
    else if pat <= s then
      rep + ReplaceAll(s[|pat|..], pat, rep)
    else if s == [] then
      []
    else
      [s[0]] + ReplaceAll(s[1..], pat, rep)
  }

  /** Replacing a pattern that does not occur changes nothing. */
  lemma {:induction false} ReplaceAbsent(s: string, pat: string, rep: string)
    requires pat != [] && !Contains(s, pat)
    ensures ReplaceAll(s, pat, rep) == s
    decreases |s|
  {
    if s != [] {
      ReplaceAbsent(s[1..], pat, rep);
    }
  }

  /** Replacing a pattern by itself changes nothing. */
  lemma {:induction false} ReplaceByItself(s: string, pat: string)
    requires pat != []
    ensures ReplaceAll(s, pat, pat) == s
    decreases |s|
  {
    if pat <= s {
      ReplaceByItself(s[|pat|..], pat);
      assert pat + s[|pat|..] == s;
    } else if s != [] {
      ReplaceByItself(s[1..], pat);
    }
  }

  /** After replacement by a string that does not contain it, a single character pattern is gone. */
  lemma {:induction false} ReplaceCharRemovesIt(s: string, c: char, rep: string)
    requires c !in rep
    ensures c !in ReplaceAll(s, [c], rep)
    decreases |s|
  {
    if s != [] {
      ReplaceCharRemovesIt(s[1..], c, rep);
    }
  }

  /**
   * Stripping a base URL from a link that starts with it: `(base + path).replace(base, "")`
   * is `path` whenever the base does not reappear inside the path.
   */
  lemma StripBase(base: string, path: string)
    requires base != [] && !Contains(path, base)
    ensures ReplaceAll(base + path, base, "") == path
  {
    assert base <= base + path;
    assert (base + path)[|base|..] == path;
    ReplaceAbsent(path, base, "");
  }

  /** `s.endswith(suffix)`. */
  predicate EndsWith(s: string, suffix: string) {
    |suffix| <= |s| && s[|s| - |suffix|..] == suffix
  }

  /** Python's `s[:n]`. */
  function Take(s: string, n: nat): (r: string)
    ensures |r| == if |s| <= n then |s| else n
    ensures r <= s
  {
    if |s| <= n then s else s[..n]
  }

  /** The index of the last occurrence of `c` in `s`, if any. */
  function LastIndexOf(s: string, c: char): (r: Option<nat>)
    ensures r.Some? ==> r.value < |s| && s[r.value] == c && c !in s[r.value + 1..]
    ensures r.None? ==> c !in s
    decreases |s|
  {
    if s == [] then None
    else if s[|s| - 1] == c then Some(|s| - 1)
    else
      var r := LastIndexOf(s[..|s| - 1], c);
      assert s == s[..|s| - 1] + [s[|s| - 1]];
      r
  }

  /** A `c` with none after it is the one `LastIndexOf` finds. */
  lemma LastIndexOfAt(s: string, c: char, k: nat)
    requires k < |s| && s[k] == c && c !in s[k + 1..]
    ensures LastIndexOf(s, c) == Some(k)
  {
    assert s[k] in s;
  }

  /** `pat` occurs in `s` starting at index `k`. */
  predicate OccursAt(s: string, pat: string, k: nat) {
    k + |pat| <= |s| && s[k..k + |pat|] == pat
  }

  /** The first index at or after `i` where `pat` occurs in `s`, as `s.find(pat, i)`. */
  function FindFrom(s: string, pat: string, i: nat): (r: Option<nat>)
    ensures r.Some? ==> i <= r.value && OccursAt(s, pat, r.value)
    ensures r.Some? ==> forall k :: i <= k < r.value ==> !OccursAt(s, pat, k)
    ensures r.None? ==> forall k :: i <= k ==> !OccursAt(s, pat, k)
    decreases |s| - i
  {
    if i + |pat| > |s| then None
    else if s[i..i + |pat|] == pat then Some(i)
    else FindFrom(s, pat, i + 1)
  }

  /** The last index in `lo..k` where `pat` occurs in `s`, searching down from `k`. */
  function FindDown(s: string, pat: string, lo: nat, k: int): (r: Option<nat>)
    requires k + |pat| <= |s|
    ensures r.Some? ==> lo <= r.value <= k && OccursAt(s, pat, r.value)
    ensures r.Some? ==> forall m :: r.value < m <= k ==> !OccursAt(s, pat, m)
    ensures r.None? ==> forall m :: lo <= m <= k ==> !OccursAt(s, pat, m)
    decreases if k < lo then 0 else k - lo + 1
  {
    if k < lo then None
    else if s[k..k + |pat|] == pat then Some(k)
    else FindDown(s, pat, lo, k - 1)
  }

  /** The last index at or after `lo` where `pat` occurs in `s`, as `s.rfind(pat, lo)`. */
  function RFindFrom(s: string, pat: string, lo: nat): (r: Option<nat>)
    ensures r.Some? ==> lo <= r.value && OccursAt(s, pat, r.value)
    ensures r.Some? ==> forall m :: r.value < m ==> !OccursAt(s, pat, m)
    ensures r.None? ==> forall m :: lo <= m ==> !OccursAt(s, pat, m)
  {
    FindDown(s, pat, lo, |s| - |pat|)
  }

  /** An occurrence with none before it is the one `FindFrom` finds from the start. */
  lemma FindFromFirst(s: string, pat: string, k: nat)
    requires OccursAt(s, pat, k)
    requires forall m: nat :: m < k ==> !OccursAt(s, pat, m)
    ensures FindFrom(s, pat, 0) == Some(k)
  {
  }

  /** A pattern ending the string is the last occurrence `RFindFrom` finds. */
  lemma RFindFromEnd(s: string, pat: string, lo: nat)
    requires lo + |pat| <= |s| && s[|s| - |pat|..] == pat
    ensures RFindFrom(s, pat, lo) == Some(|s| - |pat|)
  {
    assert OccursAt(s, pat, |s| - |pat|);
  }

  /** A string free of `pat` holds no occurrence of it that ends inside it, whatever follows. */
  lemma NoOccurrenceInHead(head: string, tail: string, pat: string, k: nat)
    requires !Contains(head, pat) && k + |pat| <= |head|
    ensures !OccursAt(head + tail, pat, k)
  {
    if OccursAt(head + tail, pat, k) {
      assert head[k..k + |pat|] == (head + tail)[k..k + |pat|];
      ContainsAt(head, pat, k);
    }
  }

  /**
   * `s.split(sep)` for a one-character separator (Python and JavaScript agree):
   * the pieces between separators, with empty pieces kept.
   */
  function Split(s: string, sep: char): (parts: seq<string>)
    ensures |parts| >= 1
    decreases |s|
  {
    if s == [] then [[]]
    else if s[0] == sep then [[]] + Split(s[1..], sep)
    else
      var rest := Split(s[1..], sep);
      [[s[0]] + rest[0]] + rest[1..]
  }

  /** `sep.join(parts)`. */
  function Join(parts: seq<string>, sep: string): string
    decreases |parts|
  {
    if parts == [] then []
    else if |parts| == 1 then parts[0]
    else parts[0] + sep + Join(parts[1..], sep)
  }

  /** No piece produced by `Split` contains the separator. */
  lemma {:induction false} SplitPiecesFree(s: string, sep: char)
    ensures forall i :: 0 <= i < |Split(s, sep)| ==> sep !in Split(s, sep)[i]
    decreases |s|
  {
    if s != [] {
      SplitPiecesFree(s[1..], sep);
    }
  }

  /** Joining the pieces back with the separator gives the original string. */
  lemma {:induction false} JoinSplit(s: string, sep: char)
    ensures Join(Split(s, sep), [sep]) == s
    decreases |s|
  {
    if s != [] {
      JoinSplit(s[1..], sep);
      var rest := Split(s[1..], sep);
      if s[0] != sep {
        var parts := Split(s, sep);
        if |rest| == 1 {
          assert parts == [[s[0]] + rest[0]];
        } else {
          assert parts[1..] == rest[1..];
          assert Join(rest, [sep]) == rest[0] + [sep] + Join(rest[1..], [sep]);
        }
      }
    }
  }

  /** Splitting a join of separator-free pieces gives the pieces back. */
  lemma {:induction false} SplitJoin(parts: seq<string>, sep: char)
    requires |parts| >= 1
    requires forall i :: 0 <= i < |parts| ==> sep !in parts[i]
    ensures Split(Join(parts, [sep]), sep) == parts
    decreases |parts|
  {
    if |parts| == 1 {
      SplitOfFree(parts[0], sep, []);
      assert parts[0] + [] == parts[0];
    } else {
      SplitJoin(parts[1..], sep);
      var tail := Join(parts[1..], [sep]);
      assert Join(parts, [sep]) == parts[0] + ([sep] + tail);
      SplitOfFree(parts[0], sep, [sep] + tail);
      assert ([sep] + tail)[1..] == tail;
    }
  }

  /** Splitting `p + t` where `p` is separator-free glues `p` onto the first piece of `t`. */
  lemma {:induction false} SplitOfFree(p: string, sep: char, t: string)
    requires sep !in p
    ensures t == [] ==> Split(p + t, sep) == [p]
    ensures t != [] && t[0] == sep ==> Split(p + t, sep) == [p] + Split(t[1..], sep)
    decreases |p|
  {
    if p == [] {
      assert p + t == t;
    } else {
      SplitOfFree(p[1..], sep, t);
      assert (p + t)[1..] == p[1..] + t;
      assert [p[0]] + p[1..] == p;
    }
  }

  /** The first piece of a split: everything before the first separator. */
  lemma {:induction false} SplitFirstPiece(s: string, sep: char)
    ensures Split(s, sep)[0] <= s
    ensures sep !in Split(s, sep)[0]
    ensures |Split(s, sep)[0]| < |s| ==> s[|Split(s, sep)[0]|] == sep
    decreases |s|
  {
    if s != [] && s[0] != sep {
      SplitFirstPiece(s[1..], sep);
    }
  }

  /** Lower-casing of one ASCII letter; every other character is left alone. */
  function LowerChar(c: char): char {
    if 'A' <= c <= 'Z' then (c as int + 32) as char else c
  }

  /** `s.lower()` restricted to ASCII letters. */
  function Lower(s: string): (r: string)
    ensures |r| == |s|
    ensures forall i :: 0 <= i < |s| ==> r[i] == LowerChar(s[i])
  {
    seq(|s|, i requires 0 <= i < |s| => LowerChar(s[i]))
  }

  /** The decimal digit for `d`. */
  function Digit(d: nat): char
    requires d < 10
  {
    "0123456789"[d]
  }

  /** `str(n)` for a natural number. */
  function NatToString(n: nat): (r: string)
    ensures |r| >= 1
    ensures n >= 10 ==> |r| >= 2
    decreases n
  {
    if n < 10 then [Digit(n)] else NatToString(n / 10) + [Digit(n % 10)]
  }

  /** Distinct numbers print differently, so `f"info_{i}"` keys never collide. */
  lemma {:induction false} NatToStringInjective(a: nat, b: nat)
    requires NatToString(a) == NatToString(b)
    ensures a == b
    decreases a
  {
    if a >= 10 && b >= 10 {
      var sa, sb := NatToString(a), NatToString(b);
      assert sa[|sa| - 1] == Digit(a % 10) && sb[|sb| - 1] == Digit(b % 10);
      assert sa[..|sa| - 1] == NatToString(a / 10);
      assert sb[..|sb| - 1] == NatToString(b / 10);
      NatToStringInjective(a / 10, b / 10);
    }
  }
}
