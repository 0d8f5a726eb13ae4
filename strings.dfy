/** The few Python string operations the baremetal code relies on:
    `str.find`, `str.strip`, `' '.join` with its inverse `str.split`, and
    POSIX `os.path.join`. */
module Strings {

  // ---------------------------------------------------------------------
  // str.find

  /** `pat` occurs in `s` starting at index `j`. */
  predicate MatchAt(s: string, pat: string, j: int)
  {
    0 <= j && j + |pat| <= |s| && s[j..j + |pat|] == pat
  }

  function FindFrom(s: string, pat: string, i: nat): int
    requires i <= |s|
    decreases |s| - i
  {
    if MatchAt(s, pat, i) then i
    else if i == |s| then -1
    else FindFrom(s, pat, i + 1)
  }

  /** Python's `s.find(pat)`: the lowest index at which `pat` occurs, or -1
      (characterised by `FindSpec`). */
  function Find(s: string, pat: string): int
  {
    FindFrom(s, pat, 0)
  }

  lemma {:induction false} FindFromSpec(s: string, pat: string, i: nat)
    requires i <= |s|
    ensures var r := FindFrom(s, pat, i);
      && (r == -1 || (i <= r && MatchAt(s, pat, r)))
      && (r == -1 ==> forall j :: i <= j <= |s| ==> !MatchAt(s, pat, j))
      && (r != -1 ==> forall j :: i <= j < r ==> !MatchAt(s, pat, j))
    decreases |s| - i
  {
    if !MatchAt(s, pat, i) && i < |s| {
      FindFromSpec(s, pat, i + 1);
    }
  }

  /** `Find` returns -1 exactly when `pat` occurs nowhere, and otherwise the
      first index at which it occurs. */
  lemma FindSpec(s: string, pat: string)
    ensures var r := Find(s, pat);
      && (r == -1 <==> forall j :: 0 <= j <= |s| ==> !MatchAt(s, pat, j))
      && (r != -1 ==> MatchAt(s, pat, r) && forall j :: 0 <= j < r ==> !MatchAt(s, pat, j))
  {
    FindFromSpec(s, pat, 0);
  }

  // ---------------------------------------------------------------------
  // str.strip on a byte string

  /** The whitespace of C's `isspace` in the C locale, which byte-string
      `strip()` and `int()` skip: space, tab, newline, vertical tab, form
      feed and carriage return. */
  predicate IsSpace(c: char)
  {
    c == ' ' || (9 <= c as int <= 13)
  }

  function TrimLeft(s: string): string
  {
    if s != [] && IsSpace(s[0]) then TrimLeft(s[1..]) else s
  }

  function TrimRight(s: string): string
  {
    if s != [] && IsSpace(s[|s| - 1]) then TrimRight(s[..|s| - 1]) else s
  }

  /** Python's `s.strip()`. */
  function Strip(s: string): string
  {
    TrimRight(TrimLeft(s))
  }

  /** `TrimLeft` drops exactly the leading whitespace. */
  lemma {:induction false} TrimLeftShape(s: string)
    ensures var r := TrimLeft(s);
      && |r| <= |s| && r == s[|s| - |r|..]
      && (forall i :: 0 <= i < |s| - |r| ==> IsSpace(s[i]))
      && (r == [] || !IsSpace(r[0]))
  {
    if s != [] && IsSpace(s[0]) {
      TrimLeftShape(s[1..]);
    }
  }

  /** `TrimRight` drops exactly the trailing whitespace. */
  lemma {:induction false} TrimRightShape(s: string)
    ensures var r := TrimRight(s);
      && |r| <= |s| && r == s[..|r|]
      && (forall i :: |r| <= i < |s| ==> IsSpace(s[i]))
      && (r == [] || !IsSpace(r[|r| - 1]))
  {
    if s != [] && IsSpace(s[|s| - 1]) {
      TrimRightShape(s[..|s| - 1]);
    }
  }

  /** A string that neither starts nor ends with whitespace is its own strip. */
  lemma StripUnchanged(s: string)
    requires s == [] || (!IsSpace(s[0]) && !IsSpace(s[|s| - 1]))
    ensures Strip(s) == s
  {
  }

  // ---------------------------------------------------------------------
  // sep.join(words) and s.split(c)

  /** Python's `sep.join(ws)`. */
  function Join(sep: string, ws: seq<string>): string
  {
    if ws == [] then ""
    else if |ws| == 1 then ws[0]
    else ws[0] + sep + Join(sep, ws[1..])
  }

  function IndexOf(s: string, c: char): (r: int)
    ensures r == -1 <==> c !in s
    ensures r != -1 ==> 0 <= r < |s| && s[r] == c && c !in s[..r]
  {
    if s == [] then -1
    else if s[0] == c then 0
    else
      var k := IndexOf(s[1..], c);
      if k == -1 then -1 else k + 1
  }

  /** Python's `s.split(c)` for a one-character separator. */
  function Split(s: string, c: char): (r: seq<string>)
    ensures r != []
    decreases |s|
  {
    var k := IndexOf(s, c);
    if k == -1 then [s] else [s[..k]] + Split(s[k + 1..], c)
  }

  /** Joining the pieces of a split gives back the string. */
  lemma {:induction false} JoinSplit(s: string, c: char)
    ensures Join([c], Split(s, c)) == s
    decreases |s|
  {
    var k := IndexOf(s, c);
    if k != -1 {
      var rest := s[k + 1..];
      JoinSplit(rest, c);
      assert Split(s, c) == [s[..k]] + Split(rest, c);
      assert s == s[..k] + [c] + rest;
    }
  }

  /** The first separator in `a + [c] + b` is the one after `a` when `a` has none. */
  lemma {:induction false} IndexOfAfter(a: string, c: char, b: string)
    requires c !in a
    ensures IndexOf(a + [c] + b, c) == |a|
  {
    if a != [] {
      assert (a + [c] + b)[1..] == a[1..] + [c] + b;
      IndexOfAfter(a[1..], c, b);
    }
  }

  /** Splitting a join of words that do not contain the separator gives back
      the words. */
  lemma {:induction false} SplitJoin(ws: seq<string>, c: char)
    requires ws != []
    requires forall i :: 0 <= i < |ws| ==> c !in ws[i]
    ensures Split(Join([c], ws), c) == ws
  {
    var w := ws[0];
    assert c !in w;
    if |ws| > 1 {
      var tail := ws[1..];
      assert forall i :: 0 <= i < |tail| ==> c !in tail[i] by {
        forall i | 0 <= i < |tail| ensures c !in tail[i] {
          assert tail[i] == ws[i + 1];
        }
      }
      var rest := Join([c], tail);
      var s := w + [c] + rest;
      assert Join([c], ws) == s;
      IndexOfAfter(w, c, rest);
      assert s[..|w|] == w;
      assert s[|w| + 1..] == rest;
      assert Split(s, c) == [w] + Split(rest, c);
      SplitJoin(tail, c);
      assert ws == [w] + tail;
    } else {
      assert Join([c], ws) == w;
      assert Split(w, c) == [w];
    }
  }

  // ---------------------------------------------------------------------
  // os.path.join (POSIX)

  /** Python's `os.path.join(a, b)` on POSIX: an absolute `b` replaces `a`;
      otherwise a `/` is inserted unless `a` is empty or already ends in one. */
  function PathJoin(a: string, b: string): string
  {
    if |b| > 0 && b[0] == '/' then b
    else if a == "" || a[|a| - 1] == '/' then a + b
    else a + "/" + b
  }

  /** The joined path always ends with `b` and, when `b` is relative, starts
      with `a`, with a `/` between them whenever `a` is non-empty. */
  lemma PathJoinShape(a: string, b: string)
    ensures |PathJoin(a, b)| >= |b|
    ensures PathJoin(a, b)[|PathJoin(a, b)| - |b|..] == b
    ensures !(|b| > 0 && b[0] == '/') ==>
              |PathJoin(a, b)| >= |a| && PathJoin(a, b)[..|a|] == a &&
              (a != "" ==> PathJoin(a, b)[|PathJoin(a, b)| - |b| - 1] == '/')
  {
    var r := PathJoin(a, b);
    if |b| > 0 && b[0] == '/' {
    } else if a == "" || a[|a| - 1] == '/' {
      assert r == a + b;
      if a != "" {
        assert r[|r| - |b| - 1] == a[|a| - 1];
      }
    } else {
      assert r == a + "/" + b;
      assert r[|r| - |b| - 1] == '/';
    }
  }
}
