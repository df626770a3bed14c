/** `os.path.join` as POSIX Python defines it (`posixpath.join`), used by the
    crawler to build report directories and file names. */
module Paths {

  /** Appends one component: an absolute component (leading `/`) replaces the
      path so far; otherwise a `/` is inserted unless the path is empty or
      already ends with one. */
  function JoinOne(path: string, b: string): (r: string) {
    if |b| > 0 && b[0] == '/' then b
    else if path == [] || path[|path| - 1] == '/' then path + b
    else path + "/" + b
  }

  /** `os.path.join(a, *parts)`. */
  function Join(a: string, parts: seq<string>): (r: string)
    decreases |parts|
  {
    if parts == [] then a else Join(JoinOne(a, parts[0]), parts[1..])
  }

  /** A component with no `/` at either end. */
  predicate IsPlain(c: string) {
    |c| > 0 && c[0] != '/' && c[|c| - 1] != '/'
  }

  /** Each component preceded by a `/`. */
  function Slashed(parts: seq<string>): (r: string) {
    if parts == [] then "" else "/" + parts[0] + Slashed(parts[1..])
  }

  /** Joining plain components onto a non-empty path that does not end with
      `/` puts exactly one `/` between neighbours. */
  lemma {:induction false} JoinPlain(a: string, parts: seq<string>)
    requires |a| > 0 && a[|a| - 1] != '/'
    requires forall i :: 0 <= i < |parts| ==> IsPlain(parts[i])
    ensures Join(a, parts) == a + Slashed(parts)
    decreases |parts|
  {
    if parts != [] {
      var a' := a + "/" + parts[0];
      assert IsPlain(parts[0]);
      assert JoinOne(a, parts[0]) == a';
      assert a'[|a'| - 1] == parts[0][|parts[0]| - 1];
      forall i | 0 <= i < |parts[1..]|
        ensures IsPlain(parts[1..][i])
      {
        assert parts[1..][i] == parts[i + 1];
      }
      JoinPlain(a', parts[1..]);
      calc {
        Join(a, parts);
        Join(a', parts[1..]);
        a' + Slashed(parts[1..]);
        a + ("/" + parts[0] + Slashed(parts[1..]));
      }
    }
  }

  /** An absolute component discards everything joined before it. */
  lemma {:induction false} JoinRestartsAtAbsolute(a: string, parts: seq<string>, i: nat)
    requires i < |parts| && |parts[i]| > 0 && parts[i][0] == '/'
    ensures Join(a, parts) == Join(parts[i], parts[i + 1..])
    decreases i
  {
    if i > 0 {
      JoinRestartsAtAbsolute(JoinOne(a, parts[0]), parts[1..], i - 1);
      assert parts[1..][i - 1] == parts[i] && parts[1..][i..] == parts[i + 1..];
    }
  }

  /** Joining a relative component leaves the path ending as that component does. */
  lemma JoinOneEndsWith(path: string, b: string)
    requires |b| > 0 && b[0] != '/'
    ensures var r := JoinOne(path, b); |r| > 0 && r[|r| - 1] == b[|b| - 1]
  {
  }

  /** A relative component goes after a `/` when the path is non-empty and does not end with one. */
  lemma JoinOneInserts(path: string, b: string)
    requires |path| > 0 && path[|path| - 1] != '/' && |b| > 0 && b[0] != '/'
    ensures JoinOne(path, b) == path + "/" + b
  {
  }

  lemma JoinUnfold3(a: string, b: string, c: string, d: string)
    ensures Join(a, [b, c, d]) == JoinOne(JoinOne(JoinOne(a, b), c), d)
  {
    calc {
      Join(a, [b, c, d]);
      { assert [b, c, d][1..] == [c, d]; }
      Join(JoinOne(a, b), [c, d]);
      { assert [c, d][1..] == [d]; }
      Join(JoinOne(JoinOne(a, b), c), [d]);
      JoinOne(JoinOne(JoinOne(a, b), c), d);
    }
  }

  lemma JoinUnfold1(a: string, b: string)
    ensures Join(a, [b]) == JoinOne(a, b)
  {
  }

  /** Joining `b` onto a join is one join with `b` as the last component. */
  lemma {:induction false} JoinAppend(a: string, parts: seq<string>, b: string)
    ensures Join(a, parts + [b]) == JoinOne(Join(a, parts), b)
    decreases |parts|
  {
    if parts == [] {
      assert parts + [b] == [b];
    } else {
      assert (parts + [b])[1..] == parts[1..] + [b];
      JoinAppend(JoinOne(a, parts[0]), parts[1..], b);
    }
  }
}
