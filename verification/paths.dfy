/** The parts of `System.IO.Path` and `String.Replace(char, char)` that dotnet-new2 relies on. */
module Paths {
  import opened Common

  /** The platform decides `Path.DirectorySeparatorChar` and what counts as a rooted path. */
  datatype Platform = Windows | Unix

  /** `Path.DirectorySeparatorChar`. */
  function Separator(p: Platform): char
  {
    if p.Windows? then '\\' else '/'
  }

  /** A directory separator: the platform's own, or the alternative `/`. */
  predicate IsSeparator(p: Platform, c: char)
  {
    c == Separator(p) || c == '/'
  }

  /** `Path.IsPathRooted`: a leading separator, or a drive letter on Windows. */
  predicate IsRooted(p: Platform, s: string)
  {
    (|s| >= 1 && IsSeparator(p, s[0])) || (p.Windows? && |s| >= 2 && s[1] == ':')
  }

  /**
   * `Path.Combine(a, b)`: `b` alone when it is rooted, otherwise `a` and `b` joined by
   * one separator. At most that one separator is added to the two parts.
   */
  function Combine(p: Platform, a: string, b: string): (r: string)
    ensures |b| <= |r| <= |a| + 1 + |b|
  {
    if |b| == 0 then a
    else if |a| == 0 then b
    else if IsRooted(p, b) then b
    else if IsSeparator(p, a[|a| - 1]) || (p.Windows? && a[|a| - 1] == ':') then a + b
    else a + [Separator(p)] + b
  }

  /**
   * The combined path ends with `b`; it starts with `a` unless `b` is rooted, and is
   * `b` itself when `a` is empty or `b` is rooted.
   */
  lemma CombineJoins(p: Platform, a: string, b: string)
    ensures var r := Combine(p, a, b);
      |b| <= |r| && r[|r| - |b|..] == b &&
      (!IsRooted(p, b) ==> StartsWith(r, a)) &&
      (a == "" || IsRooted(p, b) ==> r == b)
  {
  }

  /** `String.Replace(char, char)`: every `from` becomes `to`, nothing else changes. */
  function ReplaceChar(s: string, from: char, to: char): (r: string)
    ensures |r| == |s|
    ensures forall i :: 0 <= i < |s| ==> r[i] == (if s[i] == from then to else s[i])
    ensures from != to ==> from !in r
  {
    if s == [] then [] else [if s[0] == from then to else s[0]] + ReplaceChar(s[1..], from, to)
  }
}
