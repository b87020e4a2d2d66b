/**
  Substring occurrence and line joining: the vocabulary in which the code
  generators' templates are described. A template is stored as a sequence of
  lines; its text is the lines joined with a newline and no trailing newline,
  which is how a JavaScript template literal spanning several source lines
  reads.
 */
module Strings {

  /** `p` occurs in `s` starting at index `i`. */
  predicate OccursAt(s: string, p: string, i: nat) {
    i + |p| <= |s| && s[i..i + |p|] == p
  }

  /** `p` occurs somewhere in `s` (JavaScript's `s.includes(p)`). */
  predicate Contains(s: string, p: string) {
    exists i: nat | i <= |s| :: OccursAt(s, p, i)
  }

  /** The lines joined with "\n" between consecutive lines. */
  function Unlines(lines: seq<string>): string {
    if |lines| == 0 then ""
    else if |lines| == 1 then lines[0]
    else lines[0] + "\n" + Unlines(lines[1..])
  }

  lemma ContainsSelf(s: string)
    ensures Contains(s, s)
  {
    assert OccursAt(s, s, 0);
  }

  /** An occurrence survives appending text on the right. */
  lemma ContainsAppendRight(a: string, b: string, p: string)
    requires Contains(a, p)
    ensures Contains(a + b, p)
  {
    var i: nat :| i <= |a| && OccursAt(a, p, i);
    assert (a + b)[i..i + |p|] == a[i..i + |p|];
    assert OccursAt(a + b, p, i);
  }

  /** An occurrence survives prepending text on the left, shifted by its length. */
  lemma ContainsPrependLeft(a: string, b: string, p: string)
    requires Contains(b, p)
    ensures Contains(a + b, p)
  {
    var i: nat :| i <= |b| && OccursAt(b, p, i);
    assert (a + b)[|a| + i..|a| + i + |p|] == b[i..i + |p|];
    assert OccursAt(a + b, p, |a| + i);
  }

  /** Containment is transitive: an occurrence inside an occurrence is an occurrence. */
  lemma ContainsTransitive(a: string, b: string, c: string)
    requires Contains(a, b) && Contains(b, c)
    ensures Contains(a, c)
  {
    var i: nat :| i <= |a| && OccursAt(a, b, i);
    var j: nat :| j <= |b| && OccursAt(b, c, j);
    forall k | 0 <= k < |c|
      ensures a[i + j..i + j + |c|][k] == c[k]
    {
      assert c[k] == b[j + k] == a[i..i + |b|][j + k];
    }
    assert a[i + j..i + j + |c|] == c;
    assert OccursAt(a, c, i + j);
  }

  /** Every line of a joined text occurs in it. */
  lemma {:induction false} LineOccursInUnlines(lines: seq<string>, k: nat)
    requires k < |lines|
    ensures Contains(Unlines(lines), lines[k])
  {
    if |lines| == 1 {
      ContainsSelf(lines[0]);
    } else if k == 0 {
      ContainsSelf(lines[0]);
      ContainsAppendRight(lines[0], "\n" + Unlines(lines[1..]), lines[0]);
      assert lines[0] + "\n" + Unlines(lines[1..]) == lines[0] + ("\n" + Unlines(lines[1..]));
    } else {
      LineOccursInUnlines(lines[1..], k - 1);
      ContainsPrependLeft(lines[0] + "\n", Unlines(lines[1..]), lines[k]);
    }
  }

  /** A pattern found in one line is found in the joined text. */
  lemma LineContentInUnlines(lines: seq<string>, k: nat, p: string)
    requires k < |lines| && Contains(lines[k], p)
    ensures Contains(Unlines(lines), p)
  {
    LineOccursInUnlines(lines, k);
    ContainsTransitive(Unlines(lines), lines[k], p);
  }

  /**
    A pattern without a newline that occurs in neither side of a newline join
    does not occur in the join: an occurrence cannot straddle the newline.
   */
  lemma AbsentAcrossNewline(a: string, b: string, p: string)
    requires '\n' !in p
    requires !Contains(a, p) && !Contains(b, p)
    ensures !Contains(a + "\n" + b, p)
  {
    var s := a + "\n" + b;
    if i: nat :| i <= |s| && OccursAt(s, p, i) {
      if i + |p| <= |a| {
        assert a[i..i + |p|] == s[i..i + |p|];
        assert OccursAt(a, p, i);
      } else if i > |a| {
        var j: nat := i - |a| - 1;
        assert b[j..j + |p|] == s[i..i + |p|];
        assert OccursAt(b, p, j);
      } else {
        StraddleHitsNewline(a, b, p, i);
        assert false;
      }
    }
  }

  /** An occurrence that starts in `a` and ends past it covers the joining newline. */
  lemma StraddleHitsNewline(a: string, b: string, p: string, i: nat)
    requires OccursAt(a + "\n" + b, p, i)
    requires i <= |a| < i + |p|
    ensures '\n' in p
  {
    var s := a + "\n" + b;
    assert p[|a| - i] == s[i..i + |p|][|a| - i] == s[|a|] == '\n';
  }

  /** A newline-free pattern absent from every line is absent from the joined text. */
  lemma {:induction false} AbsentFromUnlines(lines: seq<string>, p: string)
    requires |p| > 0 && '\n' !in p
    requires forall k :: 0 <= k < |lines| ==> !Contains(lines[k], p)
    ensures !Contains(Unlines(lines), p)
  {
    if |lines| > 1 {
      AbsentFromUnlines(lines[1..], p);
      assert !Contains(lines[0], p);
      AbsentAcrossNewline(lines[0], Unlines(lines[1..]), p);
    }
  }
}
