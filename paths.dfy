/**
 * The path helpers the upload path applies to file names: Go's filepath.Ext,
 * filepath.Base and strings.TrimSuffix, with '/' as the only separator and no
 * volume names (the Unix behaviour).
 */
module Paths {

  const Separator: char := '/'

  /** The characters after the last separator: the final element of the path. */
  function LastElement(p: string): string
  {
    if |p| == 0 || p[|p| - 1] == Separator then ""
    else LastElement(p[..|p| - 1]) + [p[|p| - 1]]
  }

  /** The path with every trailing separator removed. */
  function TrimTrailingSeparators(p: string): string
  {
    if |p| > 0 && p[|p| - 1] == Separator then TrimTrailingSeparators(p[..|p| - 1]) else p
  }

  /**
   * filepath.Ext: the suffix of the path that starts at the last '.' of its final
   * element, or "" when the final element has no '.'.
   */
  function Ext(p: string): (e: string)
    ensures |e| <= |p|
    ensures e != "" ==> e[0] == '.' && p[|p| - 1] != Separator
  {
    if |p| == 0 || p[|p| - 1] == Separator then ""
    else if p[|p| - 1] == '.' then [p[|p| - 1]]
    else
      var e := Ext(p[..|p| - 1]);
      if e == "" then "" else e + [p[|p| - 1]]
  }

  /** filepath.Base: the final element after trailing separators are dropped; "." for "", "/" for only separators. */
  function Base(p: string): (b: string)
    ensures |b| > 0
  {
    if p == "" then "."
    else
      var e := LastElement(TrimTrailingSeparators(p));
      if e == "" then [Separator] else e
  }

  /** strings.TrimSuffix: drop the suffix when the string ends with it, otherwise leave it alone. */
  function TrimSuffix(s: string, suffix: string): (t: string)
    ensures |t| <= |s|
    ensures t == s || t + suffix == s
  {
    if |suffix| <= |s| && s[|s| - |suffix|..] == suffix then
      assert s[..|s| - |suffix|] + s[|s| - |suffix|..] == s;
      s[..|s| - |suffix|]
    else s
  }

  /** The base name without its extension: the `Filename` of an expression environment. */
  function NameWithoutExt(p: string): string
  {
    TrimSuffix(Base(p), Ext(p))
  }

  /**
   * The final element is the longest suffix without a separator: it ends the path,
   * holds no separator, and is empty only when the path is empty or ends in one.
   */
  lemma {:induction false} LastElementIsFinal(p: string)
    ensures |LastElement(p)| <= |p| && LastElement(p) == p[|p| - |LastElement(p)|..]
    ensures forall k :: 0 <= k < |LastElement(p)| ==> LastElement(p)[k] != Separator
    ensures LastElement(p) == "" <==> |p| == 0 || p[|p| - 1] == Separator
  {
    if |p| > 0 && p[|p| - 1] != Separator {
      var q := p[..|p| - 1];
      LastElementIsFinal(q);
      var e := LastElement(q);
      assert LastElement(p) == e + [p[|p| - 1]];
      assert q[|q| - |e|..] + [p[|p| - 1]] == p[|p| - |e| - 1..];
    }
  }

  /**
   * Trimming keeps a prefix of the path that does not end in a separator, and only
   * separators were cut.
   */
  lemma {:induction false} TrimmedPrefix(p: string)
    ensures |TrimTrailingSeparators(p)| <= |p| && TrimTrailingSeparators(p) == p[..|TrimTrailingSeparators(p)|]
    ensures |TrimTrailingSeparators(p)| == 0 || TrimTrailingSeparators(p)[|TrimTrailingSeparators(p)| - 1] != Separator
    ensures forall k :: |TrimTrailingSeparators(p)| <= k < |p| ==> p[k] == Separator
  {
    if |p| > 0 && p[|p| - 1] == Separator {
      var q := p[..|p| - 1];
      TrimmedPrefix(q);
      var t := TrimTrailingSeparators(q);
      assert q[..|t|] == p[..|t|];
    }
  }

  /**
   * The extension ends the path; it is empty or starts with the only '.' in it and
   * holds no separator.
   */
  lemma {:induction false} ExtIsDotSuffix(p: string)
    ensures |Ext(p)| <= |p| && Ext(p) == p[|p| - |Ext(p)|..]
    ensures Ext(p) == "" || (Ext(p)[0] == '.' && forall k :: 1 <= k < |Ext(p)| ==> Ext(p)[k] != '.' && Ext(p)[k] != Separator)
  {
    if |p| > 0 && p[|p| - 1] != Separator && p[|p| - 1] != '.' {
      var q := p[..|p| - 1];
      ExtIsDotSuffix(q);
      var e := Ext(q);
      if e != "" {
        assert Ext(p) == e + [p[|p| - 1]];
        assert q[|q| - |e|..] + [p[|p| - 1]] == p[|p| - |e| - 1..];
      }
    }
  }

  /** The extension is empty exactly when the final element of the path holds no '.'. */
  lemma {:induction false} ExtEmptyWithoutDot(p: string)
    ensures Ext(p) == "" <==> '.' !in LastElement(p)
  {
    if |p| == 0 || p[|p| - 1] == Separator || p[|p| - 1] == '.' {
    } else {
      var q := p[..|p| - 1];
      ExtEmptyWithoutDot(q);
      assert LastElement(p) == LastElement(q) + [p[|p| - 1]];
    }
  }

  /** The base name is never empty, and holds no separator unless it is the root "/". */
  lemma BaseIsElement(p: string)
    ensures |Base(p)| > 0
    ensures Base(p) == "/" || forall k :: 0 <= k < |Base(p)| ==> Base(p)[k] != Separator
  {
    if p != "" {
      LastElementIsFinal(TrimTrailingSeparators(p));
    }
  }

  /** When the path does not end in a separator, its base name is its final element. */
  lemma BaseOfUnterminated(p: string)
    requires p != "" && p[|p| - 1] != Separator
    ensures Base(p) == LastElement(p)
  {
    assert TrimTrailingSeparators(p) == p;
    LastElementIsFinal(p);
  }

  /** The extension is a suffix of the final element of the path. */
  lemma {:induction false} ExtEndsLastElement(p: string)
    ensures |Ext(p)| <= |LastElement(p)|
    ensures Ext(p) == LastElement(p)[|LastElement(p)| - |Ext(p)|..]
  {
    if |p| == 0 || p[|p| - 1] == Separator || p[|p| - 1] == '.' {
    } else {
      ExtEndsLastElement(p[..|p| - 1]);
    }
  }

  /** The extension is a suffix of the base name. */
  lemma ExtEndsBase(p: string)
    ensures |Ext(p)| <= |Base(p)| && Base(p)[|Base(p)| - |Ext(p)|..] == Ext(p)
  {
    var b, e := Base(p), Ext(p);
    if p == "" || p[|p| - 1] == Separator {
      assert e == "";
      assert b[|b|..] == e;
    } else {
      BaseOfUnterminated(p);
      ExtEndsLastElement(p);
    }
  }

  /** Trimming a suffix the string ends with leaves the rest, which the suffix completes. */
  lemma TrimmedSuffixCompletes(s: string, suffix: string)
    requires |suffix| <= |s| && s[|s| - |suffix|..] == suffix
    ensures TrimSuffix(s, suffix) + suffix == s
  {
    assert s[..|s| - |suffix|] + s[|s| - |suffix|..] == s;
  }

  /** The name without extension and the extension put back together give the base name. */
  lemma NameAndExtMakeBase(p: string)
    ensures NameWithoutExt(p) + Ext(p) == Base(p)
  {
    ExtEndsBase(p);
    TrimmedSuffixCompletes(Base(p), Ext(p));
  }
}
