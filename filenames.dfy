/**
 * The file name handling of the three readers: ".ppxml" is appended when
 * missing; schema 1.10 names the topology after the pathlib stem of the file,
 * schema 1.9 after the last '/'-separated component with six characters cut.
 */
module FileNames {
  const Suffix := ".ppxml"

  predicate HasSuffix(f: string)
  {
    |f| >= |Suffix| && f[|f| - |Suffix|..] == Suffix
  }

  /** The file name with ".ppxml" appended unless it already ends so. */
  function Normalised(f: string): (r: string)
    ensures HasSuffix(r)
    ensures HasSuffix(f) <==> r == f
    ensures !HasSuffix(f) ==> r == f + Suffix
  {
    if HasSuffix(f) then f
    else
      assert (f + Suffix)[|f + Suffix| - |Suffix|..] == Suffix;
      f + Suffix
  }

  lemma NormalisedIdempotent(f: string)
    ensures Normalised(Normalised(f)) == Normalised(f)
  {
  }

  /** The index of the last `ch` in `s`, or -1 (Python's `rfind`). */
  function LastIndex(s: string, ch: char): (i: int)
    ensures -1 <= i < |s|
    ensures i >= 0 ==> s[i] == ch
    ensures forall j :: i < j < |s| ==> s[j] != ch
  {
    if s == [] then -1
    else if s[|s| - 1] == ch then |s| - 1
    else LastIndex(s[..|s| - 1], ch)
  }

  /** `f.split("/")[-1]`: what follows the last '/', or all of `f`. */
  function LastComponent(f: string): (r: string)
    ensures '/' !in r
    ensures |r| <= |f| && r == f[|f| - |r|..]
    ensures |r| < |f| ==> f[|f| - |r| - 1] == '/'
  {
    f[LastIndex(f, '/') + 1..]
  }

  /** pathlib's `Path(f).stem`: the last component without its final suffix,
      where a suffix starts at a '.' that is neither the first nor the last
      character of the component. */
  function PathStem(f: string): string
  {
    var n := LastComponent(f);
    var i := LastIndex(n, '.');
    if 0 < i < |n| - 1 then n[..i] else n
  }

  /** The topology name of schema 1.9: `f.split("/")[-1][:-6]`, which is empty
      for a component shorter than six characters. */
  function Name19(f: string): string
  {
    var n := LastComponent(f);
    if |n| >= 6 then n[..|n| - 6] else []
  }

  /** For a normalised file name, both schema versions name the topology alike
      unless the last component is ".ppxml" itself: then pathlib keeps the
      whole component and schema 1.9 yields the empty name. */
  lemma {:induction false} NamesAgree(f: string)
    requires HasSuffix(f)
    ensures LastComponent(f) != Suffix ==> PathStem(f) == Name19(f)
    ensures LastComponent(f) == Suffix ==> PathStem(f) == Suffix && Name19(f) == []
  {
    var n := LastComponent(f);
    assert f[|f| - 6..] == Suffix;
    assert '/' !in Suffix;
    assert n[|n| - 6..] == Suffix;
    LastDotOfSuffixed(n);
  }

  lemma LastDotOfSuffixed(n: string)
    requires |n| >= 6 && n[|n| - 6..] == Suffix
    ensures LastIndex(n, '.') == |n| - 6
  {
    assert n[|n| - 6] == '.';
    assert forall j :: |n| - 6 < j < |n| ==> n[j] == Suffix[j - (|n| - 6)];
  }
}
