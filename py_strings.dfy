/**
  The Python `str` operations the telemetry poller uses to name the members
  of a struct channel: `find`, slicing from a possibly negative index, and
  `replace`.
 */
module PyStrings {

  /** `sub` occurs in `s` starting at index `i`. */
  predicate OccursAt(s: string, sub: string, i: nat) {
    i + |sub| <= |s| && s[i..i + |sub|] == sub
  }

  /** `s.find(sub)`: the index of the first occurrence of `sub`, or -1. */
  function Find(s: string, sub: string): (r: int)
    ensures r == -1 || (0 <= r && r + |sub| <= |s|)
  {
    FindFrom(s, sub, 0)
  }

  function FindFrom(s: string, sub: string, i: nat): (r: int)
    requires i <= |s|
    ensures r == -1 || (i <= r && r + |sub| <= |s|)
    decreases |s| - i
  {
    if OccursAt(s, sub, i) then i
    else if i + |sub| >= |s| then -1
    else FindFrom(s, sub, i + 1)
  }

  /**
    `find` returns -1 exactly when `sub` occurs nowhere, and otherwise an
    index where it occurs with no occurrence before it.
   */
  lemma FindFirst(s: string, sub: string)
    ensures Find(s, sub) == -1 <==> forall i :: 0 <= i <= |s| ==> !OccursAt(s, sub, i)
    ensures Find(s, sub) >= 0 ==> OccursAt(s, sub, Find(s, sub)) && forall i :: 0 <= i < Find(s, sub) ==> !OccursAt(s, sub, i)
  {
    FindFromFirst(s, sub, 0);
  }

  lemma {:induction false} FindFromFirst(s: string, sub: string, i: nat)
    requires i <= |s|
    ensures FindFrom(s, sub, i) == -1 <==> forall j :: i <= j <= |s| ==> !OccursAt(s, sub, j)
    ensures FindFrom(s, sub, i) >= 0 ==>
      OccursAt(s, sub, FindFrom(s, sub, i)) && forall j :: i <= j < FindFrom(s, sub, i) ==> !OccursAt(s, sub, j)
    decreases |s| - i
  {
    if !OccursAt(s, sub, i) && i + |sub| < |s| {
      FindFromFirst(s, sub, i + 1);
    }
  }

  /** `s[start:]`: a negative start counts from the end (and stops at 0), one past the end gives the empty string. */
  function SliceFrom(s: string, start: int): (r: string)
    ensures 0 <= start <= |s| ==> r == s[start..]
    ensures -|s| <= start < 0 ==> r == s[|s| + start..]
  {
    if start < 0 then (if |s| + start < 0 then s else s[|s| + start..])
    else if start > |s| then []
    else s[start..]
  }

  /** `s.replace(pat, rep)`: the occurrences of `pat` found scanning left to right, without overlap, are each replaced by `rep`. */
  function Replace(s: string, pat: string, rep: string): string
    requires pat != []
    decreases |s|
  {
    if |s| < |pat| then s
    else if s[..|pat|] == pat then rep + Replace(s[|pat|..], pat, rep)
    else [s[0]] + Replace(s[1..], pat, rep)
  }

  /** Where `pat` does not occur, `replace` changes nothing. */
  lemma {:induction false} ReplaceAbsent(s: string, pat: string, rep: string)
    requires pat != [] && forall i :: 0 <= i <= |s| ==> !OccursAt(s, pat, i)
    ensures Replace(s, pat, rep) == s
    decreases |s|
  {
    if |s| >= |pat| {
      assert !OccursAt(s, pat, 0);
      forall i | 0 <= i <= |s[1..]| ensures !OccursAt(s[1..], pat, i) {
        assert !OccursAt(s, pat, i + 1);
        if i + |pat| <= |s[1..]| {
          assert s[1..][i..i + |pat|] == s[i + 1..i + 1 + |pat|];
        }
      }
      ReplaceAbsent(s[1..], pat, rep);
    }
  }

  /**
    A pattern that occurs only as the suffix is the one occurrence
    `replace` changes: `s + pat` becomes `s + rep`.
   */
  lemma {:induction false} ReplaceSuffix(s: string, pat: string, rep: string)
    requires pat != [] && forall i :: 0 <= i < |s| ==> !OccursAt(s + pat, pat, i)
    ensures Replace(s + pat, pat, rep) == s + rep
    decreases |s|
  {
    if s == [] {
      assert s + pat == pat && (s + pat)[..|pat|] == pat;
      assert Replace(pat[|pat|..], pat, rep) == [];
    } else {
      assert !OccursAt(s + pat, pat, 0);
      assert (s + pat)[1..] == s[1..] + pat;
      forall i | 0 <= i < |s[1..]| ensures !OccursAt(s[1..] + pat, pat, i) {
        assert !OccursAt(s + pat, pat, i + 1);
        assert (s + pat)[i + 1..i + 1 + |pat|] == (s[1..] + pat)[i..i + |pat|];
      }
      ReplaceSuffix(s[1..], pat, rep);
      assert s + rep == [s[0]] + (s[1..] + rep);
    }
  }

  /** No two adjacent colons. */
  predicate NoDoubleColon(s: string) {
    forall i :: 0 <= i < |s| - 1 ==> !(s[i] == ':' && s[i + 1] == ':')
  }

  /** Removing `::` leaves no `::` behind: a run of colons is left with at most one. */
  lemma {:induction false} RemoveColonsLeavesNone(s: string)
    ensures NoDoubleColon(Replace(s, "::", ""))
    ensures s != [] && s[0] != ':' ==> Replace(s, "::", "") != [] && Replace(s, "::", "")[0] == s[0]
    decreases |s|
  {
    if |s| >= 2 {
      if s[..2] == "::" {
        RemoveColonsLeavesNone(s[2..]);
      } else {
        RemoveColonsLeavesNone(s[1..]);
        var rest := Replace(s[1..], "::", "");
        var r := [s[0]] + rest;
        assert s[0] == ':' ==> s[1] != ':';
        forall i | 0 <= i < |r| - 1 ensures !(r[i] == ':' && r[i + 1] == ':') {
          if i > 0 {
            assert r[i] == rest[i - 1] && r[i + 1] == rest[i];
          }
        }
      }
    }
  }
}
