/** The two string operations the authentication middleware applies to the
    `Authorization` header: `startsWith` and `split(sep)[1]`, with a
    non-empty separator, following the ECMAScript algorithm over Dafny
    strings, whose elements are Unicode characters rather than UTF-16 code
    units (fields are the text between successive non-overlapping
    occurrences, found left to right). */
module JsString {
  import opened Wrappers

  /** `s.startsWith(prefix)`. */
  predicate StartsWith(s: string, prefix: string)
    ensures StartsWith(s, prefix) <==> OccursAt(s, prefix, 0)
  {
    prefix <= s
  }

  /** `sep` occurs in `s` at index `i`. */
  predicate OccursAt(s: string, sep: string, i: nat) {
    i + |sep| <= |s| && s[i..i + |sep|] == sep
  }

  /** `sep` occurs nowhere in `s`. */
  ghost predicate Free(s: string, sep: string) {
    forall k: nat :: !OccursAt(s, sep, k)
  }

  /** `s.indexOf(sep)`, with `None` for -1. */
  function IndexOf(s: string, sep: string): (r: Option<nat>)
    requires |sep| > 0
    ensures r.Some? ==> OccursAt(s, sep, r.value)
    decreases |s|
  {
    if |s| < |sep| then None
    else if StartsWith(s, sep) then Some(0)
    else
      match IndexOf(s[1..], sep)
      case None => None
      case Some(j) =>
        assert s[1..][j..j + |sep|] == s[j + 1..j + 1 + |sep|];
        Some(j + 1)
  }

  /** When `s` does not start with `sep`, its occurrences are those of
      `s[1..]`, shifted by one. */
  lemma OccurrencesOfTail(s: string, sep: string)
    requires 0 < |sep| <= |s|
    requires !StartsWith(s, sep)
    ensures forall k: nat :: OccursAt(s, sep, k) <==> (k > 0 && OccursAt(s[1..], sep, k - 1))
  {
    forall k: nat
      ensures OccursAt(s, sep, k) <==> (k > 0 && OccursAt(s[1..], sep, k - 1))
    {
      if k > 0 && k + |sep| <= |s| {
        assert s[1..][k - 1..k - 1 + |sep|] == s[k..k + |sep|];
      }
    }
  }

  /** `IndexOf` finds the leftmost occurrence, and finds none exactly when
      there is none. */
  lemma {:induction false} IndexOfSpec(s: string, sep: string)
    requires |sep| > 0
    ensures IndexOf(s, sep).Some? ==> forall k: nat :: k < IndexOf(s, sep).value ==> !OccursAt(s, sep, k)
    ensures IndexOf(s, sep).None? <==> Free(s, sep)
    decreases |s|
  {
    if |s| < |sep| {
    } else if StartsWith(s, sep) {
    } else {
      IndexOfSpec(s[1..], sep);
      OccurrencesOfTail(s, sep);
    }
  }

  /** An occurrence with no occurrence before it is what `IndexOf` finds. */
  lemma IndexOfLeftmost(s: string, sep: string, i: nat)
    requires |sep| > 0
    requires OccursAt(s, sep, i)
    requires forall k: nat :: k < i ==> !OccursAt(s, sep, k)
    ensures IndexOf(s, sep) == Some(i)
  {
    IndexOfSpec(s, sep);
  }

  /** `s.split(sep)`. */
  function Split(s: string, sep: string): (parts: seq<string>)
    requires |sep| > 0
    ensures |parts| >= 1
    decreases |s|
  {
    match IndexOf(s, sep)
    case None => [s]
    case Some(j) => [s[..j]] + Split(s[j + |sep|..], sep)
  }

  /** Splitting takes off the text before the leftmost occurrence. */
  lemma SplitAtLeftmost(s: string, sep: string, j: nat)
    requires |sep| > 0
    requires IndexOf(s, sep) == Some(j)
    ensures Split(s, sep) == [s[..j]] + Split(s[j + |sep|..], sep)
  {
  }

  /** `parts.join(sep)`: the partner of `Split`. */
  function Join(parts: seq<string>, sep: string): string
    requires |parts| >= 1
  {
    if |parts| == 1 then parts[0] else parts[0] + sep + Join(parts[1..], sep)
  }

  /** Splitting loses nothing: joining the fields back gives the input. */
  lemma {:induction false} SplitJoin(s: string, sep: string)
    requires |sep| > 0
    ensures Join(Split(s, sep), sep) == s
    decreases |s|
  {
    match IndexOf(s, sep)
    case None =>
    case Some(j) =>
      var rest := s[j + |sep|..];
      SplitJoin(rest, sep);
      SplitAtLeftmost(s, sep, j);
      assert s == s[..j] + sep + rest;
  }

  /** The text before the leftmost occurrence does not contain the separator. */
  lemma PrefixBeforeFirstIsFree(s: string, sep: string, j: nat)
    requires |sep| > 0
    requires j <= |s|
    requires forall k: nat :: k < j ==> !OccursAt(s, sep, k)
    ensures Free(s[..j], sep)
  {
    forall k: nat | OccursAt(s[..j], sep, k)
      ensures false
    {
      assert s[..j][k..k + |sep|] == s[k..k + |sep|];
      assert OccursAt(s, sep, k);
    }
  }

  /** No field of a split contains the separator. */
  lemma {:induction false} SplitFieldsFree(s: string, sep: string)
    requires |sep| > 0
    ensures forall i :: 0 <= i < |Split(s, sep)| ==> Free(Split(s, sep)[i], sep)
    decreases |s|
  {
    IndexOfSpec(s, sep);
    match IndexOf(s, sep)
    case None =>
    case Some(j) =>
      var rest := s[j + |sep|..];
      SplitFieldsFree(rest, sep);
      PrefixBeforeFirstIsFree(s, sep, j);
  }

  /** The first field of a split is the longest prefix free of the
      separator: it ends at the end of the string or at an occurrence. */
  lemma FirstFieldSpec(s: string, sep: string)
    requires |sep| > 0
    ensures var t := Split(s, sep)[0];
      && |t| <= |s|
      && t == s[..|t|]
      && Free(t, sep)
      && (forall k: nat :: k < |t| ==> !OccursAt(s, sep, k))
      && (|t| == |s| || OccursAt(s, sep, |t|))
  {
    IndexOfSpec(s, sep);
    match IndexOf(s, sep)
    case None =>
    case Some(j) =>
      PrefixBeforeFirstIsFree(s, sep, j);
  }

  /** `s.split(sep)[1]`, `None` standing for `undefined`. */
  function SecondField(s: string, sep: string): (field: Option<string>)
    requires |sep| > 0
    ensures field.Some? <==> IndexOf(s, sep).Some?
  {
    var parts := Split(s, sep);
    if |parts| > 1 then Some(parts[1]) else None
  }

  /** `split(sep)[1]` is defined exactly when the separator occurs. */
  lemma SecondFieldDefined(s: string, sep: string)
    requires |sep| > 0
    ensures SecondField(s, sep).Some? <==> !Free(s, sep)
  {
    IndexOfSpec(s, sep);
  }

  /** With the leftmost occurrence at `j`, `split(sep)[1]` is the first
      field of what follows it. */
  lemma SecondFieldAtLeftmost(s: string, sep: string, j: nat)
    requires |sep| > 0
    requires IndexOf(s, sep) == Some(j)
    ensures j + |sep| <= |s|
    ensures SecondField(s, sep) == Some(Split(s[j + |sep|..], sep)[0])
  {
    SplitAtLeftmost(s, sep, j);
  }

  /** A prefix of `s[start..]` that ends at the end of `s[start..]` or at an
      occurrence there, located inside `s`. */
  lemma PrefixOfDrop(s: string, sep: string, start: nat, t: string)
    requires start <= |s|
    requires |t| <= |s| - start && t == s[start..][..|t|]
    requires |t| == |s| - start || OccursAt(s[start..], sep, |t|)
    requires forall k: nat :: k < |t| ==> !OccursAt(s[start..], sep, k)
    ensures s[start..start + |t|] == t
    ensures start + |t| == |s| || OccursAt(s, sep, start + |t|)
    ensures forall k: nat :: start <= k < start + |t| ==> !OccursAt(s, sep, k)
  {
    var rest := s[start..];
    forall k: nat | start <= k < start + |t|
      ensures !OccursAt(s, sep, k)
    {
      assert !OccursAt(rest, sep, k - start);
      if k + |sep| <= |s| {
        assert rest[k - start..k - start + |sep|] == s[k..k + |sep|];
      }
    }
    assert s[start..start + |t|] == rest[..|t|];
    if start + |t| < |s| {
      assert rest[|t|..|t| + |sep|] == s[start + |t|..start + |t| + |sep|];
    }
  }

  /** When the leftmost occurrence of the separator is at `j`, `split(sep)[1]`
      is the text after it up to the next occurrence or the end of the
      string: no occurrence starts inside it, so it is determined even for
      a separator that overlaps itself. */
  lemma SecondFieldAfter(s: string, sep: string, j: nat)
    requires |sep| > 0
    requires IndexOf(s, sep) == Some(j)
    ensures SecondField(s, sep).Some?
    ensures var start, t := j + |sep|, SecondField(s, sep).value;
      && start + |t| <= |s|
      && s[start..start + |t|] == t
      && Free(t, sep)
      && (forall k: nat :: start <= k < start + |t| ==> !OccursAt(s, sep, k))
      && (start + |t| == |s| || OccursAt(s, sep, start + |t|))
  {
    SecondFieldAtLeftmost(s, sep, j);
    FirstFieldSpec(s[j + |sep|..], sep);
    PrefixOfDrop(s, sep, j + |sep|, SecondField(s, sep).value);
  }
}
