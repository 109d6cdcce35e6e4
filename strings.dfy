/** The few `str` methods the modelled code relies on: `split`, `join`, `upper`, `endswith`. */
module Strings {

  /** `s.split(sep)`: the pieces between occurrences of `sep`; always at least one piece. */
  function Split(s: string, sep: char): (r: seq<string>)
    ensures |r| >= 1
    ensures forall p :: p in r ==> sep !in p
    decreases |s|
  {
    if |s| == 0 then [""]
    else
      var rest := Split(s[1..], sep);
      if s[0] == sep then [""] + rest
      else [[s[0]] + rest[0]] + rest[1..]
  }

  /** `sep.join(ps)`. */
  function Join(ps: seq<string>, sep: string): string
    decreases |ps|
  {
    if |ps| == 0 then ""
    else if |ps| == 1 then ps[0]
    else ps[0] + sep + Join(ps[1..], sep)
  }

  lemma {:induction false} SplitNoSep(a: string, sep: char)
    requires sep !in a
    ensures Split(a, sep) == [a]
    decreases |a|
  {
    if |a| > 0 {
      assert a == [a[0]] + a[1..];
      SplitNoSep(a[1..], sep);
    }
  }

  lemma {:induction false} SplitAfterPiece(a: string, sep: char, b: string)
    requires sep !in a
    ensures Split(a + [sep] + b, sep) == [a] + Split(b, sep)
    decreases |a|
  {
    if |a| == 0 {
      assert a + [sep] + b == [sep] + b;
      assert ([sep] + b)[1..] == b;
    } else {
      var s := a + [sep] + b;
      assert s[0] == a[0];
      assert s[1..] == a[1..] + [sep] + b;
      SplitAfterPiece(a[1..], sep, b);
      assert [a[0]] + a[1..] == a;
    }
  }

  /** Splitting a join on the same separator gives back the pieces, when no piece holds it. */
  lemma {:induction false} SplitJoin(ps: seq<string>, sep: char)
    requires |ps| >= 1
    requires forall p :: p in ps ==> sep !in p
    ensures Split(Join(ps, [sep]), sep) == ps
    decreases |ps|
  {
    if |ps| == 1 {
      SplitNoSep(ps[0], sep);
    } else {
      SplitJoin(ps[1..], sep);
      SplitAfterPiece(ps[0], sep, Join(ps[1..], [sep]));
      assert ps == [ps[0]] + ps[1..];
    }
  }

  /** `[p for p in ps if p]`. */
  function DropEmpty(ps: seq<string>): (r: seq<string>)
    ensures |r| <= |ps|
    ensures forall p :: p in r ==> p in ps && p != ""
    decreases |ps|
  {
    if |ps| == 0 then []
    else if ps[0] == "" then DropEmpty(ps[1..])
    else [ps[0]] + DropEmpty(ps[1..])
  }

  lemma {:induction false} DropEmptyKeeps(ps: seq<string>)
    requires forall p :: p in ps ==> p != ""
    ensures DropEmpty(ps) == ps
    decreases |ps|
  {
    if |ps| > 0 {
      assert ps[0] in ps;
      assert forall p :: p in ps[1..] ==> p in ps;
      DropEmptyKeeps(ps[1..]);
    }
  }

  /** The segments of an absolute path: `('/' + '/'.join(ps)).split('/')`, empty ones dropped,
      gives back `ps` when every segment is non-empty and free of `/`. */
  lemma PathSegments(ps: seq<string>)
    requires forall p :: p in ps ==> p != "" && '/' !in p
    ensures DropEmpty(Split("/" + Join(ps, "/"), '/')) == ps
  {
    if |ps| == 0 {
      SplitAfterPiece("", '/', "");
      SplitNoSep("", '/');
      assert "" + ['/'] + "" == "/" + Join(ps, "/");
    } else {
      SplitJoin(ps, '/');
      SplitAfterPiece("", '/', Join(ps, "/"));
      assert "" + ['/'] + Join(ps, "/") == "/" + Join(ps, "/");
      DropEmptyKeeps(ps);
    }
  }

  predicate IsAsciiLower(c: char) {
    'a' <= c <= 'z'
  }

  /** `s.upper()` on ASCII letters; every other character is left as it is. */
  function Upper(s: string): (r: string)
    ensures |r| == |s|
    ensures forall i :: 0 <= i < |s| ==> !IsAsciiLower(r[i])
    ensures forall i :: 0 <= i < |s| && !IsAsciiLower(s[i]) ==> r[i] == s[i]
    ensures forall i :: 0 <= i < |s| && IsAsciiLower(s[i]) ==> r[i] as int == s[i] as int - 32
  {
    seq(|s|, i requires 0 <= i < |s| =>
      if IsAsciiLower(s[i]) then (s[i] as int - 32) as char else s[i])
  }

  /** `s.endswith(suffix)`. */
  predicate EndsWith(s: string, suffix: string) {
    |suffix| <= |s| && s[|s| - |suffix|..] == suffix
  }
}
