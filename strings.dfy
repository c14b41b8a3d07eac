/** Python's `str.replace(old, new)` with a non-empty `old`, as the actors use it to put
    a value in place of the placeholder `{X}`. The string is scanned from the left; each
    occurrence found is replaced and the scan resumes after it, so the inserted text is
    never scanned again. The reference definition is the documented identity
    `s.replace(p, v) == v.join(s.split(p))`. */
module Strings {

  /** The placeholder the expression actors substitute. */
  const Placeholder: string := "{X}"

  predicate OccursAt(s: string, p: string, i: nat)
  {
    i + |p| <= |s| && s[i..i + |p|] == p
  }

  ghost predicate Contains(s: string, p: string)
  {
    exists i: nat :: OccursAt(s, p, i)
  }

  function Replace(s: string, target: string, replacement: string): string
    requires target != []
    decreases |s|
  {
    if |s| < |target| then s
    else if s[..|target|] == target then replacement + Replace(s[|target|..], target, replacement)
    else [s[0]] + Replace(s[1..], target, replacement)
  }

  /** Python's `s.split(p)`: the pieces between the occurrences of `p`, found left to right. */
  function Split(s: string, p: string): (pieces: seq<string>)
    requires p != []
    ensures |pieces| >= 1
    decreases |s|
  {
    if |s| < |p| then [s]
    else if s[..|p|] == p then [""] + Split(s[|p|..], p)
    else
      var rest := Split(s[1..], p);
      [[s[0]] + rest[0]] + rest[1..]
  }

  /** Python's `sep.join(pieces)`. */
  function Join(pieces: seq<string>, sep: string): string
    decreases |pieces|
  {
    if pieces == [] then ""
    else if |pieces| == 1 then pieces[0]
    else pieces[0] + sep + Join(pieces[1..], sep)
  }

  lemma {:induction false} JoinStartsWithFirst(pieces: seq<string>, sep: string)
    requires |pieces| >= 1
    ensures |pieces[0]| <= |Join(pieces, sep)| && Join(pieces, sep)[..|pieces[0]|] == pieces[0]
  {
    if |pieces| > 1 {
      assert Join(pieces, sep) == pieces[0] + (sep + Join(pieces[1..], sep));
    }
  }

  /** `s.replace(p, v) == v.join(s.split(p))`. */
  lemma {:induction false} ReplaceIsJoinOfSplit(s: string, p: string, v: string)
    requires p != []
    ensures Replace(s, p, v) == Join(Split(s, p), v)
    decreases |s|
  {
    if |s| < |p| {
    } else if s[..|p|] == p {
      ReplaceIsJoinOfSplit(s[|p|..], p, v);
      var rest := Split(s[|p|..], p);
      assert ([""] + rest)[1..] == rest;
    } else {
      ReplaceIsJoinOfSplit(s[1..], p, v);
      var rest := Split(s[1..], p);
      var pieces := [[s[0]] + rest[0]] + rest[1..];
      if |rest| > 1 {
        assert pieces[1..] == rest[1..];
        calc {
          Join(pieces, v);
          ([s[0]] + rest[0]) + v + Join(rest[1..], v);
          [s[0]] + (rest[0] + v + Join(rest[1..], v));
          [s[0]] + Join(rest, v);
        }
      }
    }
  }

  lemma {:induction false} ReplaceBySelf(s: string, p: string)
    requires p != []
    ensures Replace(s, p, p) == s
    decreases |s|
  {
    if |s| < |p| {
    } else if s[..|p|] == p {
      ReplaceBySelf(s[|p|..], p);
      assert s == s[..|p|] + s[|p|..];
    } else {
      ReplaceBySelf(s[1..], p);
      assert s == [s[0]] + s[1..];
    }
  }

  /** `p.join(s.split(p)) == s`: the pieces and the occurrences between them make up `s`. */
  lemma SplitJoinRoundTrip(s: string, p: string)
    requires p != []
    ensures Join(Split(s, p), p) == s
  {
    ReplaceIsJoinOfSplit(s, p, p);
    ReplaceBySelf(s, p);
  }

  /** No piece of `s.split(p)` contains `p`: every occurrence of `p` in `s` lies between two
      pieces, so `Replace` replaces every occurrence. */
  lemma {:induction false} SplitPiecesAvoidPattern(s: string, p: string)
    requires p != []
    ensures forall k :: 0 <= k < |Split(s, p)| ==> !Contains(Split(s, p)[k], p)
    decreases |s|
  {
    var pieces := Split(s, p);
    if |s| < |p| {
      forall i: nat ensures !OccursAt(s, p, i) { }
    } else if s[..|p|] == p {
      SplitPiecesAvoidPattern(s[|p|..], p);
      var rest := Split(s[|p|..], p);
      assert pieces == [""] + rest;
      forall k | 0 <= k < |pieces| ensures !Contains(pieces[k], p) {
        if k == 0 {
          forall i: nat ensures !OccursAt("", p, i) { }
        } else {
          assert pieces[k] == rest[k - 1];
        }
      }
    } else {
      SplitPiecesAvoidPattern(s[1..], p);
      var rest := Split(s[1..], p);
      var first := [s[0]] + rest[0];
      assert pieces == [first] + rest[1..];
      forall k | 0 <= k < |pieces| ensures !Contains(pieces[k], p) {
        if k == 0 {
          FirstPieceAvoidsPattern(s, p, rest);
        } else {
          assert pieces[k] == rest[k];
        }
      }
    }
  }

  lemma FirstPieceAvoidsPattern(s: string, p: string, rest: seq<string>)
    requires p != [] && |s| >= |p| && s[..|p|] != p
    requires rest == Split(s[1..], p)
    requires forall k :: 0 <= k < |rest| ==> !Contains(rest[k], p)
    ensures !Contains([s[0]] + rest[0], p)
  {
    var first := [s[0]] + rest[0];
    assert !Contains(rest[0], p);
    FirstPieceIsPrefix(s, p);
    forall i: nat ensures !OccursAt(first, p, i) {
      if i == 0 {
        if |p| <= |first| {
          assert first[..|p|] == s[..|p|];
        }
      } else if OccursAt(first, p, i) {
        ShiftedOccurrence(s[0], rest[0], p, i);
      }
    }
  }

  /** The first piece of a split, extended by the character before it, is a prefix. */
  lemma FirstPieceIsPrefix(s: string, p: string)
    requires p != [] && |s| >= 1
    ensures var first := [s[0]] + Split(s[1..], p)[0]; |first| <= |s| && s[..|first|] == first
  {
    var rest := Split(s[1..], p);
    SplitJoinRoundTrip(s[1..], p);
    JoinStartsWithFirst(rest, p);
    var first := [s[0]] + rest[0];
    assert s[1..][..|rest[0]|] == s[1..|first|];
    assert s[..|first|] == [s[0]] + s[1..|first|];
  }

  lemma ShiftedOccurrence(c: char, r: string, p: string, i: nat)
    requires i > 0 && OccursAt([c] + r, p, i)
    ensures OccursAt(r, p, i - 1)
  {
    var first := [c] + r;
    assert first[i..i + |p|] == r[i - 1..i - 1 + |p|];
  }

  /** A prefix that holds no first character of the target is copied unchanged. */
  lemma {:induction false} ReplaceSkipsPrefix(a: string, b: string, p: string, v: string)
    requires p != []
    requires forall i :: 0 <= i < |a| ==> a[i] != p[0]
    ensures Replace(a + b, p, v) == a + Replace(b, p, v)
    decreases |a|
  {
    var s := a + b;
    if a == [] {
      assert s == b;
    } else if |s| < |p| {
      assert |b| < |p|;
    } else {
      assert s[..|p|] != p by {
        assert s[..|p|][0] == a[0];
      }
      assert Replace(s, p, v) == [a[0]] + Replace(s[1..], p, v);
      assert s[1..] == a[1..] + b;
      ReplaceSkipsPrefix(a[1..], b, p, v);
      assert a == [a[0]] + a[1..];
    }
  }

  /** An occurrence at the front is replaced and the scan resumes after it. */
  lemma ReplaceAtFront(p: string, b: string, v: string)
    requires p != []
    ensures Replace(p + b, p, v) == v + Replace(b, p, v)
  {
    var s := p + b;
    assert s[..|p|] == p;
    assert s[|p|..] == b;
  }

  /** Substituting into a template with exactly one placeholder, between a prefix and a
      suffix that hold no `{`, yields prefix + value + suffix, whatever the value holds. */
  lemma SubstituteOnce(prefix: string, suffix: string, value: string)
    requires forall i :: 0 <= i < |prefix| ==> prefix[i] != '{'
    requires forall i :: 0 <= i < |suffix| ==> suffix[i] != '{'
    ensures Replace(prefix + Placeholder + suffix, Placeholder, value) == prefix + value + suffix
  {
    assert prefix + Placeholder + suffix == prefix + (Placeholder + suffix);
    ReplaceSkipsPrefix(prefix, Placeholder + suffix, Placeholder, value);
    ReplaceAtFront(Placeholder, suffix, value);
    ReplaceSkipsPrefix(suffix, "", Placeholder, value);
    assert suffix + "" == suffix;
  }
}
