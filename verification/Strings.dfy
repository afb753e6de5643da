/**
 * String helpers with the semantics of JavaScript's `String.prototype.split`
 * for a single-character separator: `"".split('.') == [""]`,
 * `"a.".split('.') == ["a", ""]`, `"a.b.c".split('.') == ["a", "b", "c"]`.
 */
module Strings {

  /** `suffix` is a suffix of `s`. */
  predicate EndsWith(s: string, suffix: string) {
    |suffix| <= |s| && s[|s| - |suffix|..] == suffix
  }

  /** Inverse of Split: the parts glued back together with the separator between them. */
  function Join(parts: seq<string>, sep: char): (s: string)
    requires |parts| >= 1
  {
    if |parts| == 1 then parts[0]
    else Join(parts[..|parts| - 1], sep) + [sep] + parts[|parts| - 1]
  }

  /**
   * `s.split(sep)`: the maximal separator-free pieces of `s`, in order.
   * Recursion is on the last character, so the last piece is the one being built.
   */
  function Split(s: string, sep: char): (parts: seq<string>)
    ensures |parts| >= 1
    ensures forall i :: 0 <= i < |parts| ==> sep !in parts[i]
    ensures Join(parts, sep) == s
    decreases |s|
  {
    if s == [] then [""]
    else
      var init := Split(s[..|s| - 1], sep);
      var c := s[|s| - 1];
      assert s == s[..|s| - 1] + [c];
      if c == sep then init + [""]
      else
        var n := |init|;
        var parts := init[..n - 1] + [init[n - 1] + [c]];
        assert parts[..n - 1] == init[..n - 1];
        parts
  }

  /** Gluing two or more pieces always puts a separator into the result. */
  lemma JoinHasSeparator(parts: seq<string>, sep: char)
    requires |parts| > 1
    ensures sep in Join(parts, sep)
  {
    var s := Join(parts, sep);
    var init := Join(parts[..|parts| - 1], sep);
    assert s[|init|] == sep;
  }

  /** A string splits into more than one piece exactly when it contains the separator. */
  lemma SplitMany(s: string, sep: char)
    ensures |Split(s, sep)| > 1 <==> sep in s
  {
    var parts := Split(s, sep);
    if |parts| > 1 {
      JoinHasSeparator(parts, sep);
    } else {
      assert s == parts[0];
    }
  }

  /** Join is injective on separator-free pieces. */
  lemma {:induction false} JoinInjective(p: seq<string>, q: seq<string>, sep: char)
    requires |p| >= 1 && forall i :: 0 <= i < |p| ==> sep !in p[i]
    requires |q| >= 1 && forall i :: 0 <= i < |q| ==> sep !in q[i]
    requires Join(p, sep) == Join(q, sep)
    ensures p == q
    decreases |p|
  {
    var s := Join(p, sep);
    if |p| == 1 || |q| == 1 {
      if |p| > 1 { JoinHasSeparator(p, sep); }
      if |q| > 1 { JoinHasSeparator(q, sep); }
    } else {
      var lp, lq := p[|p| - 1], q[|q| - 1];
      var ip, iq := p[..|p| - 1], q[..|q| - 1];
      assert s == Join(ip, sep) + ([sep] + lp);
      assert s == Join(iq, sep) + ([sep] + lq);
      assert ([sep] + lp)[1..] == lp;
      assert ([sep] + lq)[1..] == lq;
      LastSeparatorSuffixUnique(s, [sep] + lp, [sep] + lq, sep);
      assert lp == lq;
      assert Join(ip, sep) == s[..|s| - |lp| - 1] == Join(iq, sep);
      JoinInjective(ip, iq, sep);
      assert p == ip + [lp] && q == iq + [lq];
    }
  }

  /** The other round trip: splitting a join of separator-free pieces gives the pieces back. */
  lemma SplitJoin(parts: seq<string>, sep: char)
    requires |parts| >= 1
    requires forall i :: 0 <= i < |parts| ==> sep !in parts[i]
    ensures Split(Join(parts, sep), sep) == parts
  {
    JoinInjective(Split(Join(parts, sep), sep), parts, sep);
  }

  /**
   * Two suffixes of `s` that each start with `sep` and contain no other `sep`
   * are the same suffix: the one that starts at the last separator.
   */
  lemma LastSeparatorSuffixUnique(s: string, a: string, b: string, sep: char)
    requires EndsWith(s, a) && |a| >= 1 && a[0] == sep && sep !in a[1..]
    requires EndsWith(s, b) && |b| >= 1 && b[0] == sep && sep !in b[1..]
    ensures a == b
  {
  }
}
