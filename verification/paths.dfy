/**
 * The two System.IO.Path operations the registry uses to derive file names,
 * with Windows separators: Path.Combine of two parts and Path.GetFileName.
 */
module Paths {

  predicate IsSeparator(c: char) {
    c == '\\' || c == '/'
  }

  predicate IsDriveLetter(c: char) {
    ('A' <= c <= 'Z') || ('a' <= c <= 'z')
  }

  /** Path.IsPathRooted: a leading separator or a drive prefix such as "C:". */
  predicate IsRooted(p: string) {
    (|p| >= 1 && IsSeparator(p[0])) || (|p| >= 2 && IsDriveLetter(p[0]) && p[1] == ':')
  }

  predicate EndsWith(s: string, suffix: string) {
    |suffix| <= |s| && s[|s| - |suffix|..] == suffix
  }

  predicate StartsWith(s: string, prefix: string) {
    |prefix| <= |s| && s[..|prefix|] == prefix
  }

  /**
   * Path.Combine(a, b): an empty part yields the other one, a rooted `b`
   * replaces `a`, otherwise the parts are joined by one separator unless `a`
   * already ends with one.
   */
  function Combine(a: string, b: string): string {
    if |b| == 0 then a
    else if |a| == 0 || IsRooted(b) then b
    else if IsSeparator(a[|a| - 1]) then a + b
    else a + "\\" + b
  }

  /** Path.GetFileName: the part of `p` after its last separator. */
  function FileName(p: string): string
    decreases |p|
  {
    if p == [] || IsSeparator(p[|p| - 1]) then []
    else FileName(p[..|p| - 1]) + [p[|p| - 1]]
  }

  /** The combined path ends with its second part, and starts with the first unless the second is rooted. */
  lemma CombineParts(a: string, b: string)
    ensures EndsWith(Combine(a, b), b)
    ensures b != [] && !IsRooted(b) ==> StartsWith(Combine(a, b), a)
    ensures b == [] ==> Combine(a, b) == a
  {
    var r := Combine(a, b);
    if |b| > 0 && |a| > 0 && !IsRooted(b) {
      var sep := if IsSeparator(a[|a| - 1]) then "" else "\\";
      assert r == a + sep + b;
      assert r[|r| - |b|..] == b;
    }
  }

  /**
   * The file name is the separator-free tail of the path, preceded by a
   * separator whenever it is not the whole path.
   */
  lemma {:induction false} FileNameIsLastComponent(p: string)
    ensures EndsWith(p, FileName(p))
    ensures forall i :: 0 <= i < |FileName(p)| ==> !IsSeparator(FileName(p)[i])
    ensures |FileName(p)| < |p| ==> IsSeparator(p[|p| - |FileName(p)| - 1])
    decreases |p|
  {
    if p != [] && !IsSeparator(p[|p| - 1]) {
      var init := p[..|p| - 1];
      FileNameIsLastComponent(init);
      var r := FileName(p);
      assert r == FileName(init) + [p[|p| - 1]];
      assert p == init + [p[|p| - 1]];
      assert p[|p| - |r|..] == init[|init| - |r| + 1..] + [p[|p| - 1]];
    }
  }
}
