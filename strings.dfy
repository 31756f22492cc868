/** The handful of Rust string operations the modelled code relies on,
    over `string == seq<char>`. */
module Strings {

  /** `t` occurs somewhere in `s`. */
  ghost predicate Contains(s: string, t: string) {
    exists i :: 0 <= i <= |s| - |t| && t <= s[i..]
  }

  lemma ContainsSplice(a: string, t: string, b: string)
    ensures Contains(a + t + b, t)
  {
    assert t <= (a + t + b)[|a|..];
  }

  lemma ContainsTrans(s: string, t: string, u: string)
    requires Contains(s, t) && Contains(t, u)
    ensures Contains(s, u)
  {
    var i :| 0 <= i <= |s| - |t| && t <= s[i..];
    var j :| 0 <= j <= |t| - |u| && u <= t[j..];
    assert u <= s[i + j..] by {
      forall k | 0 <= k < |u|
        ensures s[i + j..][k] == u[k]
      {
        assert s[i + j..][k] == s[i..][j + k] == t[j + k] == t[j..][k];
      }
    }
  }

  lemma ContainsPrefix(s: string, t: string)
    requires t <= s
    ensures Contains(s, t)
  {
    assert s[0..] == s;
  }

  lemma ContainsExtend(a: string, s: string, b: string, t: string)
    requires Contains(s, t)
    ensures Contains(a + s + b, t)
  {
    ContainsSplice(a, s, b);
    ContainsTrans(a + s + b, s, t);
  }

  /** Two strings that differ at a position both have are not prefixes of each other. */
  lemma DifferAt(s: string, t: string, k: nat)
    requires k < |s| && k < |t| && s[k] != t[k]
    ensures !(s <= t) && !(t <= s)
  {
  }

  /** `str::ends_with`. */
  predicate EndsWith(s: string, t: string) {
    |t| <= |s| && s[|s| - |t|..] == t
  }

  /** `format!("{: <w}", s)`: `s` padded with spaces on the right to `w` characters. */
  function PadRight(s: string, w: nat): (r: string)
    ensures |r| == if |s| < w then w else |s|
    ensures s <= r
    ensures forall i :: |s| <= i < |r| ==> r[i] == ' '
  {
    if |s| < w then s + seq(w - |s|, _ => ' ') else s
  }

  /** `format!("{: >w}", s)`: `s` padded with spaces on the left to `w` characters. */
  function PadLeft(s: string, w: nat): (r: string)
    ensures |r| == if |s| < w then w else |s|
    ensures EndsWith(r, s)
    ensures forall i :: 0 <= i < |r| - |s| ==> r[i] == ' '
  {
    if |s| < w then seq(w - |s|, _ => ' ') + s else s
  }

  /** `collect::<String>()` over a sequence of strings. */
  function Concat(ss: seq<string>): string {
    if ss == [] then "" else ss[0] + Concat(ss[1..])
  }

  /** Whatever one part contains, the concatenation contains. */
  lemma {:induction false} ContainsConcat(parts: seq<string>, i: nat, t: string)
    requires i < |parts| && Contains(parts[i], t)
    ensures Contains(Concat(parts), t)
  {
    if i == 0 {
      assert Concat(parts) == [] + parts[0] + Concat(parts[1..]);
      ContainsExtend([], parts[0], Concat(parts[1..]), t);
    } else {
      ContainsConcat(parts[1..], i - 1, t);
      assert Concat(parts) == parts[0] + Concat(parts[1..]) + [];
      ContainsExtend(parts[0], Concat(parts[1..]), [], t);
    }
  }

  /** Each body followed by a newline, as `format!("...\n")` per item then `collect`. */
  function Unlines(bodies: seq<string>): string {
    if bodies == [] then "" else bodies[0] + "\n" + Unlines(bodies[1..])
  }

  /** `slice::join(sep)`; the empty slice joins to the empty string. */
  function Join(parts: seq<string>, sep: string): string {
    if |parts| == 0 then ""
    else if |parts| == 1 then parts[0]
    else parts[0] + sep + Join(parts[1..], sep)
  }

  /** `str::split(c)`: the pieces between occurrences of `c`; never empty. */
  function Split(s: string, c: char): (r: seq<string>)
    ensures |r| > 0
  {
    if s == [] then [""]
    else if s[0] == c then [""] + Split(s[1..], c)
    else
      var rest := Split(s[1..], c);
      [[s[0]] + rest[0]] + rest[1..]
  }

  lemma {:induction false} SplitAfterPiece(w: string, c: char, rest: string)
    requires c !in w
    ensures Split(w + [c] + rest, c) == [w] + Split(rest, c)
  {
    if w == [] {
      assert w + [c] + rest == [c] + rest;
      assert ([c] + rest)[1..] == rest;
    } else {
      assert (w + [c] + rest)[0] == w[0];
      assert (w + [c] + rest)[1..] == w[1..] + [c] + rest;
      SplitAfterPiece(w[1..], c, rest);
      assert [w[0]] + w[1..] == w;
    }
  }

  /** Splitting a join at a separator that occurs in no part gives the parts back. */
  lemma {:induction false} SplitJoin(parts: seq<string>, c: char)
    requires |parts| > 0
    requires forall i :: 0 <= i < |parts| ==> c !in parts[i]
    ensures Split(Join(parts, [c]), c) == parts
  {
    if |parts| == 1 {
      SplitNoSeparator(parts[0], c);
    } else {
      SplitJoin(parts[1..], c);
      SplitAfterPiece(parts[0], c, Join(parts[1..], [c]));
      assert [parts[0]] + parts[1..] == parts;
    }
  }

  lemma {:induction false} SplitNoSeparator(w: string, c: char)
    requires c !in w
    ensures Split(w, c) == [w]
  {
    if w != [] {
      SplitNoSeparator(w[1..], c);
      assert [w[0]] + w[1..] == w;
    }
  }

  /** The lines of `Unlines(bodies)` are the bodies, then the empty rest after the last newline. */
  lemma {:induction false} SplitUnlines(bodies: seq<string>)
    requires forall i :: 0 <= i < |bodies| ==> '\n' !in bodies[i]
    ensures Split(Unlines(bodies), '\n') == bodies + [""]
  {
    if bodies != [] {
      SplitUnlines(bodies[1..]);
      assert bodies[0] + "\n" + Unlines(bodies[1..]) == bodies[0] + ['\n'] + Unlines(bodies[1..]);
      SplitAfterPiece(bodies[0], '\n', Unlines(bodies[1..]));
      assert [bodies[0]] + (bodies[1..] + [""]) == bodies + [""];
    }
  }

  /** `str::replace(pat, rep)`: every non-overlapping occurrence of `pat`,
      scanning from the left, is replaced by `rep`. */
  function Replace(s: string, pat: string, rep: string): (r: string)
    requires |pat| > 0
    decreases |s|
  {
    if |s| < |pat| then s
    else if pat <= s then rep + Replace(s[|pat|..], pat, rep)
    else [s[0]] + Replace(s[1..], pat, rep)
  }

  /** No occurrence of `pat` starts inside `a` when `a` is followed by `pat`. */
  ghost predicate Clean(a: string, pat: string) {
    forall i :: 0 <= i < |a| ==> !(pat <= (a + pat)[i..])
  }

  lemma {:induction false} ReplaceAbsent(s: string, pat: string, rep: string)
    requires |pat| > 0
    requires !Contains(s, pat)
    ensures Replace(s, pat, rep) == s
    decreases |s|
  {
    if |s| >= |pat| {
      assert !(pat <= s[0..]);
      assert s[0..] == s;
      assert !Contains(s[1..], pat) by {
        forall i | 0 <= i <= |s[1..]| - |pat| ensures !(pat <= s[1..][i..]) {
          assert s[1..][i..] == s[i + 1..];
        }
      }
      ReplaceAbsent(s[1..], pat, rep);
      assert [s[0]] + s[1..] == s;
    }
  }

  lemma CleanHead(a: string, b: string, pat: string)
    requires Clean(a, pat) && a != []
    ensures !(pat <= a + pat + b)
  {
    assert (a + pat)[0..] == a + pat;
    assert (a + pat + b)[..|pat|] == (a + pat)[..|pat|];
  }

  lemma CleanTail(a: string, pat: string)
    requires Clean(a, pat) && a != []
    ensures Clean(a[1..], pat)
  {
    forall i | 0 <= i < |a[1..]| ensures !(pat <= (a[1..] + pat)[i..]) {
      assert (a[1..] + pat)[i..] == (a + pat)[i + 1..];
    }
  }

  /** Text with no occurrence starting in `a`, then `pat`: the occurrence is replaced
      and the scan resumes right after it. */
  lemma {:induction false} ReplaceSplice(a: string, b: string, pat: string, rep: string)
    requires |pat| > 0
    requires Clean(a, pat)
    ensures Replace(a + pat + b, pat, rep) == a + rep + Replace(b, pat, rep)
    decreases |a|
  {
    var s := a + pat + b;
    if a == [] {
      assert s == pat + b;
      assert s[|pat|..] == b;
    } else {
      CleanHead(a, b, pat);
      CleanTail(a, pat);
      assert s[1..] == a[1..] + pat + b;
      ReplaceSplice(a[1..], b, pat, rep);
      calc {
        Replace(s, pat, rep);
        [s[0]] + Replace(s[1..], pat, rep);
        [a[0]] + (a[1..] + rep + Replace(b, pat, rep));
        { assert [a[0]] + a[1..] == a; }
        a + rep + Replace(b, pat, rep);
      }
    }
  }

  /** Replacing every separator of a join: the parts joined with the replacement. */
  lemma {:induction false} ReplaceJoin(parts: seq<string>, pat: string, rep: string)
    requires |parts| > 0 && |pat| > 0
    requires forall i :: 0 <= i < |parts| - 1 ==> Clean(parts[i], pat)
    requires !Contains(parts[|parts| - 1], pat)
    ensures Replace(Join(parts, pat), pat, rep) == Join(parts, rep)
  {
    if |parts| == 1 {
      ReplaceAbsent(parts[0], pat, rep);
    } else {
      ReplaceSplice(parts[0], Join(parts[1..], pat), pat, rep);
      ReplaceJoin(parts[1..], pat, rep);
    }
  }
}
