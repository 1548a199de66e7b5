/** String operations the core calls on its inputs: `trim`, the unanchored e-mail
    pattern /\S+@\S+\.\S+/, `split(c)[0]`, `includes` and Node's `path.basename`. */
module Text {

  /** ECMAScript white space and line terminators: what `trim` strips and `\s`
      matches (`\S` is its complement). */
  predicate IsSpace(c: char) {
    || c == '\t' || c == '\n' || c == '\U{000B}' || c == '\U{000C}' || c == '\r'
    || c == ' ' || c == '\U{00A0}' || c == '\U{1680}' || ('\U{2000}' <= c <= '\U{200A}')
    || c == '\U{2028}' || c == '\U{2029}' || c == '\U{202F}' || c == '\U{205F}'
    || c == '\U{3000}' || c == '\U{FEFF}'
  }

  /** Every character is white space (the empty string included). */
  predicate Blank(s: string) {
    forall i :: 0 <= i < |s| ==> IsSpace(s[i])
  }

  function TrimStart(s: string): (r: string)
    ensures r == "" <==> Blank(s)
    ensures r != "" ==> !IsSpace(r[0])
  {
    if s != "" && IsSpace(s[0]) then TrimStart(s[1..]) else s
  }

  function TrimEnd(s: string): (r: string)
    ensures r == "" <==> Blank(s)
  {
    if s != "" && IsSpace(s[|s| - 1]) then TrimEnd(s[..|s| - 1]) else s
  }

  /** `s.trim()`. */
  function Trim(s: string): string {
    TrimEnd(TrimStart(s))
  }

  /** `!s.trim()` holds exactly when the string is all white space. */
  lemma TrimEmptyIffBlank(s: string)
    ensures Trim(s) == "" <==> Blank(s)
  {
    var t := TrimStart(s);
    if t != "" {
      assert !IsSpace(t[0]);
      assert !Blank(t);
    }
  }

  // ---------------------------------------------------------------------------
  // The e-mail pattern /\S+@\S+\.\S+/ used with `test`, that is, anywhere in s.

  /** A match of the pattern with its '@' at p and its '.' at q: a non-space just
      before p, at least one character strictly between p and q and all of them
      non-space, and a non-space just after q. Longer `\S+` runs only extend such
      a match, so the pattern matches somewhere exactly when such p and q exist. */
  ghost predicate EmailMatchAt(s: string, p: int, q: int) {
    && 1 <= p && p + 2 <= q && q + 1 < |s|
    && s[p] == '@' && s[q] == '.'
    && !IsSpace(s[p - 1]) && !IsSpace(s[q + 1])
    && forall k :: p < k < q ==> !IsSpace(s[k])
  }

  /** Scans the `\S+\.\S+` part after an '@' at p, now at position k. */
  function DotRun(s: string, p: nat, k: nat): bool
    requires p < k <= |s|
    decreases |s| - k
  {
    if k == |s| || IsSpace(s[k]) then false
    else if s[k] == '.' && p + 2 <= k && k + 1 < |s| && !IsSpace(s[k + 1]) then true
    else DotRun(s, p, k + 1)
  }

  /** Tries every '@' at position p or later. */
  function MatchFrom(s: string, p: nat): bool
    requires p <= |s|
    decreases |s| - p
  {
    if p == |s| then false
    else (1 <= p && s[p] == '@' && !IsSpace(s[p - 1]) && DotRun(s, p, p + 1)) || MatchFrom(s, p + 1)
  }

  /** `/\S+@\S+\.\S+/.test(s)`. */
  predicate EmailPattern(s: string) {
    MatchFrom(s, 0)
  }

  lemma {:induction false} DotRunIff(s: string, p: nat, k: nat)
    requires 1 <= p < k <= |s| && s[p] == '@' && !IsSpace(s[p - 1])
    requires forall j :: p < j < k ==> !IsSpace(s[j])
    ensures DotRun(s, p, k) <==> exists q :: k <= q && EmailMatchAt(s, p, q)
    decreases |s| - k
  {
    if k == |s| || IsSpace(s[k]) {
    } else if s[k] == '.' && p + 2 <= k && k + 1 < |s| && !IsSpace(s[k + 1]) {
      assert EmailMatchAt(s, p, k);
    } else {
      DotRunIff(s, p, k + 1);
      if exists q :: k <= q && EmailMatchAt(s, p, q) {
        var q :| k <= q && EmailMatchAt(s, p, q);
        assert q != k;
        assert k + 1 <= q && EmailMatchAt(s, p, q);
      }
    }
  }

  lemma {:induction false} MatchFromIff(s: string, p: nat)
    requires p <= |s|
    ensures MatchFrom(s, p) <==> exists a, q :: p <= a && EmailMatchAt(s, a, q)
    decreases |s| - p
  {
    if p < |s| {
      MatchFromIff(s, p + 1);
      var here := 1 <= p && s[p] == '@' && !IsSpace(s[p - 1]);
      if here {
        DotRunIff(s, p, p + 1);
      }
      if exists a, q :: p <= a && EmailMatchAt(s, a, q) {
        var a, q :| p <= a && EmailMatchAt(s, a, q);
        if a == p {
          assert p + 1 <= q && EmailMatchAt(s, p, q);
        } else {
          assert p + 1 <= a && EmailMatchAt(s, a, q);
        }
      }
    }
  }

  /** The regular-expression test accepts exactly the strings that contain a match. */
  lemma EmailPatternIff(s: string)
    ensures EmailPattern(s) <==> exists p, q :: EmailMatchAt(s, p, q)
  {
    MatchFromIff(s, 0);
  }

  // ---------------------------------------------------------------------------
  // split, includes, basename

  /** `s.split(c)[0]`: the text before the first c, or all of s when it has none. */
  function BeforeFirst(s: string, c: char): (r: string)
    ensures |r| <= |s| && r == s[..|r|]
    ensures c !in r
    ensures |r| < |s| ==> s[|r|] == c
  {
    if s == "" || s[0] == c then "" else [s[0]] + BeforeFirst(s[1..], c)
  }

  /** The text before the first c of `m + t`, when m has no c and t starts with one. */
  lemma BeforeFirstOfJoin(m: string, t: string, c: char)
    requires c !in m && t != "" && t[0] == c
    ensures BeforeFirst(m + t, c) == m
  {
    var s := m + t;
    var r := BeforeFirst(s, c);
    assert s[|m|] == c;
    assert r == s[..|m|] == m;
  }

  /** `sub` occurs in `s` starting at position i. */
  ghost predicate OccursAt(s: string, sub: string, i: int) {
    0 <= i && i + |sub| <= |s| && s[i..i + |sub|] == sub
  }

  lemma OccursShift(s: string, sub: string)
    requires s != ""
    ensures forall i :: OccursAt(s[1..], sub, i) ==> OccursAt(s, sub, i + 1)
    ensures forall i :: 1 <= i && OccursAt(s, sub, i) ==> OccursAt(s[1..], sub, i - 1)
  {
    forall i | OccursAt(s[1..], sub, i) ensures OccursAt(s, sub, i + 1) {
      assert s[1..][i..i + |sub|] == s[i + 1..i + 1 + |sub|];
    }
    forall i | 1 <= i && OccursAt(s, sub, i) ensures OccursAt(s[1..], sub, i - 1) {
      assert s[1..][i - 1..i - 1 + |sub|] == s[i..i + |sub|];
    }
  }

  /** `s.includes(sub)`. */
  function Includes(s: string, sub: string): (r: bool)
    ensures r <==> exists i :: OccursAt(s, sub, i)
    decreases |s|
  {
    if |sub| > |s| then false
    else if s[..|sub|] == sub then assert OccursAt(s, sub, 0); true
    else OccursShift(s, sub); Includes(s[1..], sub)
  }

  /** Drops the slashes at the end of a path. */
  function StripTrailingSlashes(p: string): (r: string)
    ensures |r| <= |p| && r == p[..|r|]
    ensures r == "" || r[|r| - 1] != '/'
  {
    if p != "" && p[|p| - 1] == '/' then StripTrailingSlashes(p[..|p| - 1]) else p
  }

  /** The text after the last slash of a path. */
  function LastSegment(p: string): (r: string)
    ensures |r| <= |p| && r == p[|p| - |r|..]
    ensures '/' !in r
    ensures |r| < |p| ==> p[|p| - |r| - 1] == '/'
  {
    if p == "" || p[|p| - 1] == '/' then ""
    else LastSegment(p[..|p| - 1]) + [p[|p| - 1]]
  }

  /** Node's `path.basename(p)` on POSIX: the last segment, trailing slashes ignored. */
  function Basename(p: string): (r: string)
    ensures '/' !in r
  {
    LastSegment(StripTrailingSlashes(p))
  }

  /** The base name of "<dir>/<name>" and of a bare name is the name itself. */
  lemma BasenameOfPath(dir: string, name: string)
    requires name != "" && '/' !in name
    ensures Basename(dir + "/" + name) == name
    ensures Basename(name) == name
  {
    forall p | p == dir + "/" + name || p == name ensures Basename(p) == name {
      assert p[|p| - 1] == name[|name| - 1];
      assert StripTrailingSlashes(p) == p;
      var r := LastSegment(p);
      assert p[|p| - |name|..] == name;
      assert |p| == |name| || p[|p| - |name| - 1] == '/';
      assert |r| == |name|;
    }
  }
}
