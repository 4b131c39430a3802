/**
 * Reading requirements.txt for the package metadata (setup.py): each line is
 * stripped, and empty lines and the editable-install line `-e .` are dropped.
 * The file is an input: its lines, or `None` when it does not exist.
 */
module SetupRequirements {
  import opened Wrappers
  import opened Text

  const EditableInstall: string := "-e ."

  /** A stripped line that is kept. */
  predicate Keep(requirement: string)
  {
    requirement != "" && requirement != EditableInstall
  }

  /** Every line, stripped. */
  function Stripped(lines: seq<string>): (r: seq<string>)
    ensures |r| == |lines| && forall i :: 0 <= i < |lines| ==> r[i] == Strip(lines[i])
  {
    seq(|lines|, i requires 0 <= i < |lines| => Strip(lines[i]))
  }

  /** The stripped lines that are kept, in order. */
  function KeepAll(xs: seq<string>): seq<string>
  {
    if xs == [] then []
    else KeepAll(xs[..|xs| - 1]) + (if Keep(xs[|xs| - 1]) then [xs[|xs| - 1]] else [])
  }

  /** The requirements of the given lines, in file order. */
  function Requirements(lines: seq<string>): seq<string>
  {
    KeepAll(Stripped(lines))
  }

  /** One more line adds its stripped text when that is kept, and nothing otherwise. */
  lemma RequirementsStep(lines: seq<string>, i: nat)
    requires i < |lines|
    ensures Requirements(lines[..i + 1]) ==
      Requirements(lines[..i]) + (if Keep(Strip(lines[i])) then [Strip(lines[i])] else [])
  {
    var xs := Stripped(lines[..i + 1]);
    assert xs[..i] == Stripped(lines[..i]);
    assert xs[i] == Strip(lines[i]);
  }

  /** `get_requirements`. */
  method GetRequirements(file: Option<seq<string>>) returns (requirementList: seq<string>)
    ensures file.None? ==> requirementList == []
    ensures file.Some? ==> requirementList == Requirements(file.value)
  {
    requirementList := [];
    if file.None? {
      return;
    }
    var lines := file.value;
    var i := 0;
    while i < |lines|
      invariant 0 <= i <= |lines|
      invariant requirementList == Requirements(lines[..i])
    {
      RequirementsStep(lines, i);
      var requirement := Strip(lines[i]);
      if requirement != "" && requirement != EditableInstall {
        requirementList := requirementList + [requirement];
      }
      i := i + 1;
    }
    assert lines[..|lines|] == lines;
  }

  /** Filtering keeps exactly the kept strings. */
  lemma {:induction false} KeepAllMembership(xs: seq<string>, r: string)
    ensures r in KeepAll(xs) <==> Keep(r) && r in xs
  {
    if xs != [] {
      KeepAllMembership(xs[..|xs| - 1], r);
      assert xs == xs[..|xs| - 1] + [xs[|xs| - 1]];
    }
  }

  /** A requirement is kept exactly when some line strips to it and it is neither empty nor `-e .`. */
  lemma RequirementsMembership(lines: seq<string>, r: string)
    ensures r in Requirements(lines) <==> Keep(r) && exists i :: 0 <= i < |lines| && Strip(lines[i]) == r
  {
    KeepAllMembership(Stripped(lines), r);
  }

  /** Every requirement is stripped already, non-empty and not `-e .`. */
  lemma RequirementsClean(lines: seq<string>, r: string)
    requires r in Requirements(lines)
    ensures Keep(r) && Strip(r) == r
  {
    KeepAllMembership(Stripped(lines), r);
    var i :| 0 <= i < |lines| && Stripped(lines)[i] == r;
    StripIdempotent(lines[i]);
  }

  lemma {:induction false} KeepAllAppend(a: seq<string>, b: seq<string>)
    ensures KeepAll(a + b) == KeepAll(a) + KeepAll(b)
    decreases |b|
  {
    if b == [] {
      assert a + b == a;
    } else {
      assert (a + b)[..|a + b| - 1] == a + b[..|b| - 1];
      KeepAllAppend(a, b[..|b| - 1]);
    }
  }

  /** Reading two files one after the other is reading each in turn: the file order is kept. */
  lemma RequirementsAppend(a: seq<string>, b: seq<string>)
    ensures Requirements(a + b) == Requirements(a) + Requirements(b)
  {
    var sa, sb, sab := Stripped(a), Stripped(b), Stripped(a + b);
    assert |sab| == |sa + sb|;
    forall i | 0 <= i < |sab|
      ensures sab[i] == (sa + sb)[i]
    {
      if i < |a| {
        assert (a + b)[i] == a[i];
      } else {
        assert (a + b)[i] == b[i - |a|];
      }
    }
    assert sab == sa + sb;
    KeepAllAppend(sa, sb);
  }

  lemma {:induction false} KeepAllBound(xs: seq<string>)
    ensures |KeepAll(xs)| <= |xs|
  {
    if xs != [] {
      KeepAllBound(xs[..|xs| - 1]);
    }
  }

  /** There are never more requirements than lines. */
  lemma RequirementsBound(lines: seq<string>)
    ensures |Requirements(lines)| <= |lines|
  {
    KeepAllBound(Stripped(lines));
  }
}
