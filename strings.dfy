/** The .NET string operations the forms use: `char.IsWhiteSpace`,
    `string.IsNullOrWhiteSpace`, `Trim`, `Split(params char[])` and `string.Join`. */
module Strings {

  /** `char.IsWhiteSpace`: the Unicode space, line and paragraph separators,
      U+0009..U+000D, U+0085 and U+00A0. */
  predicate IsWhiteSpace(c: char): (r: bool)
    ensures c < '\U{0080}' ==> (r <==> c == ' ' || '\t' <= c <= '\r')
  {
    || c == ' '
    || ('\t' <= c <= '\r')
    || c == '\U{0085}' || c == '\U{00A0}' || c == '\U{1680}'
    || ('\U{2000}' <= c <= '\U{200A}')
    || c == '\U{2028}' || c == '\U{2029}' || c == '\U{202F}' || c == '\U{205F}'
    || c == '\U{3000}'
  }

  /** `string.IsNullOrWhiteSpace` for a non-null string (a text box's text is
      never null): nothing is left once leading white space is removed. */
  predicate IsNullOrWhiteSpace(s: string): (r: bool)
    ensures r <==> TrimStart(s) == []
  {
    TrimStartIsSuffix(s);
    forall i :: 0 <= i < |s| ==> IsWhiteSpace(s[i])
  }

  /** Removes the longest all-white-space prefix; what is left does not start
      with white space. */
  function TrimStart(s: string): (r: string)
    ensures |r| <= |s|
    ensures r != [] ==> !IsWhiteSpace(r[0])
  {
    if s != [] && IsWhiteSpace(s[0]) then TrimStart(s[1..]) else s
  }

  /** `TrimStart` keeps a suffix of `s` and drops only white space. */
  lemma {:induction false} TrimStartIsSuffix(s: string)
    ensures TrimStart(s) == s[|s| - |TrimStart(s)|..]
    ensures forall i :: 0 <= i < |s| - |TrimStart(s)| ==> IsWhiteSpace(s[i])
  {
    if s != [] && IsWhiteSpace(s[0]) {
      TrimStartIsSuffix(s[1..]);
      assert s[1..][|s| - 1 - |TrimStart(s)|..] == s[|s| - |TrimStart(s)|..];
    }
  }

  /** Removes the longest all-white-space suffix; what is left does not end
      with white space. */
  function TrimEnd(s: string): (r: string)
    ensures |r| <= |s|
    ensures r != [] ==> !IsWhiteSpace(r[|r| - 1])
  {
    if s != [] && IsWhiteSpace(s[|s| - 1]) then TrimEnd(s[..|s| - 1]) else s
  }

  /** `TrimEnd` keeps a prefix of `s` and drops only white space. */
  lemma {:induction false} TrimEndIsPrefix(s: string)
    ensures TrimEnd(s) == s[..|TrimEnd(s)|]
    ensures forall i :: |TrimEnd(s)| <= i < |s| ==> IsWhiteSpace(s[i])
  {
    if s != [] && IsWhiteSpace(s[|s| - 1]) {
      TrimEndIsPrefix(s[..|s| - 1]);
      assert s[..|s| - 1][..|TrimEnd(s)|] == s[..|TrimEnd(s)|];
    }
  }

  /** `string.Trim()`: white space removed from both ends. */
  function Trim(s: string): (r: string)
    ensures r == [] <==> IsNullOrWhiteSpace(s)
    ensures r != [] ==> !IsWhiteSpace(r[0]) && !IsWhiteSpace(r[|r| - 1])
  {
    TrimEndIsPrefix(TrimStart(s));
    TrimEnd(TrimStart(s))
  }

  /** `r` is the stretch of `s` starting at `k`, and everything of `s`
      before and after that stretch is white space. */
  predicate IsWhiteSpaceBounded(s: string, k: int, r: string) {
    && 0 <= k && k + |r| <= |s| && s[k..k + |r|] == r
    && (forall i :: 0 <= i < k ==> IsWhiteSpace(s[i]))
    && (forall i :: k + |r| <= i < |s| ==> IsWhiteSpace(s[i]))
  }

  /** The trimmed string is the stretch of `s` between its leading and trailing white space. */
  lemma TrimIsInfix(s: string)
    ensures IsWhiteSpaceBounded(s, |s| - |TrimStart(s)|, Trim(s))
  {
    var t := TrimStart(s);
    TrimStartIsSuffix(s);
    assert Trim(s) == TrimEnd(t);
    TrimEndTail(s, t, |s| - |t|);
  }

  /** `TrimEnd` of the suffix `t` of `s` from `k`, when all of `s` before `k`
      is white space, is a stretch of `s` bounded by white space. */
  lemma TrimEndTail(s: string, t: string, k: int)
    requires 0 <= k <= |s| && t == s[k..]
    requires forall i :: 0 <= i < k ==> IsWhiteSpace(s[i])
    ensures IsWhiteSpaceBounded(s, k, TrimEnd(t))
  {
    var r := TrimEnd(t);
    TrimEndIsPrefix(t);
    forall i | k + |r| <= i < |s| ensures IsWhiteSpace(s[i]) {
      assert s[i] == t[i - k];
    }
  }

  /** Trimming twice is trimming once. */
  lemma TrimIdempotent(s: string)
    ensures Trim(Trim(s)) == Trim(s)
  {
    var r := Trim(s);
    if r != [] {
      assert TrimStart(r) == r;
      assert TrimEnd(r) == r;
    }
  }

  /** Number of characters of `s` that belong to `seps`. */
  function CountIn(s: string, seps: set<char>): nat {
    if s == [] then 0 else (if s[0] in seps then 1 else 0) + CountIn(s[1..], seps)
  }

  /** `s.Split(seps)`: the pieces between separators, empty pieces kept. */
  function Split(s: string, seps: set<char>): (parts: seq<string>)
    ensures |parts| == CountIn(s, seps) + 1
    ensures forall k, i :: 0 <= k < |parts| && 0 <= i < |parts[k]| ==> parts[k][i] !in seps
  {
    if s == [] then [[]]
    else
      var rest := Split(s[1..], seps);
      if s[0] in seps then [[]] + rest
      else [[s[0]] + rest[0]] + rest[1..]
  }

  /** The first piece is the prefix of `s` up to the first separator. */
  lemma {:induction false} SplitFirst(s: string, seps: set<char>)
    ensures var p := Split(s, seps)[0];
            |p| <= |s| && p == s[..|p|] && (|p| < |s| ==> s[|p|] in seps)
  {
    if s != [] && s[0] !in seps {
      SplitFirst(s[1..], seps);
    }
  }

  /** The last piece is the suffix of `s` after the last separator. */
  lemma {:induction false} SplitLast(s: string, seps: set<char>)
    ensures var parts := Split(s, seps);
            var p := parts[|parts| - 1];
            |p| <= |s| && p == s[|s| - |p|..] && (|p| < |s| ==> s[|s| - |p| - 1] in seps)
  {
    if s != [] {
      SplitLast(s[1..], seps);
      var rest := Split(s[1..], seps);
      var parts := Split(s, seps);
      if s[0] !in seps && |rest| == 1 {
        SplitSingle(s[1..], seps);
        assert parts[|parts| - 1] == [s[0]] + s[1..] == s;
      } else if |rest| > 1 && |rest[|rest| - 1]| == |s| - 1 {
        CountInNone(s[1..], seps);
      }
    }
  }

  /** A string without separators counts none. */
  lemma {:induction false} CountInNone(s: string, seps: set<char>)
    requires forall i :: 0 <= i < |s| ==> s[i] !in seps
    ensures CountIn(s, seps) == 0
  {
    if s != [] {
      CountInNone(s[1..], seps);
    }
  }

  /** `string.Join(sep, parts)`: the parts with `sep` between neighbours. */
  function Join(sep: string, parts: seq<string>): (r: string)
    ensures parts == [] ==> r == []
  {
    if parts == [] then []
    else if |parts| == 1 then parts[0]
    else parts[0] + sep + Join(sep, parts[1..])
  }

  /** A joined list always ends with its last element. */
  lemma {:induction false} JoinEndsWithLast(sep: string, parts: seq<string>)
    requires parts != []
    ensures var j := Join(sep, parts);
            var last := parts[|parts| - 1];
            |last| <= |j| && j[|j| - |last|..] == last
  {
    if |parts| > 1 {
      JoinEndsWithLast(sep, parts[1..]);
    }
  }

  /** `s` with every separator in `seps` replaced by `c`. */
  function ReplaceAll(s: string, seps: set<char>, c: char): (r: string)
    ensures |r| == |s|
    ensures forall i :: 0 <= i < |s| ==> r[i] == if s[i] in seps then c else s[i]
  {
    if s == [] then [] else [if s[0] in seps then c else s[0]] + ReplaceAll(s[1..], seps, c)
  }

  /** Joining the pieces of a split with one of the separators gives the text
      back with every separator replaced by that one: the pieces are the
      stretches between separators, in order. With a single separator the
      text itself comes back. */
  lemma {:induction false} JoinSplit(s: string, seps: set<char>, c: char)
    requires c in seps
    ensures Join([c], Split(s, seps)) == ReplaceAll(s, seps, c)
    ensures seps == {c} ==> Join([c], Split(s, seps)) == s
  {
    JoinSplitReplaces(s, seps, c);
    if seps == {c} {
      assert ReplaceAll(s, seps, c) == s;
    }
  }

  lemma {:induction false} JoinSplitReplaces(s: string, seps: set<char>, c: char)
    requires c in seps
    ensures Join([c], Split(s, seps)) == ReplaceAll(s, seps, c)
  {
    if s != [] {
      JoinSplitReplaces(s[1..], seps, c);
      var rest := Split(s[1..], seps);
      var tail := ReplaceAll(s[1..], seps, c);
      assert ReplaceAll(s, seps, c) == [if s[0] in seps then c else s[0]] + tail;
      if s[0] in seps {
        assert Split(s, seps) == [[]] + rest;
      } else if |rest| == 1 {
        assert Split(s, seps) == [[s[0]] + rest[0]];
      } else {
        var parts := [[s[0]] + rest[0]] + rest[1..];
        assert Split(s, seps) == parts;
        assert parts[1..] == rest[1..];
        assert Join([c], parts) == ([s[0]] + rest[0]) + [c] + Join([c], rest[1..]);
      }
    }
  }

  /** Splitting the joined text at the separator character recovers the pieces,
      provided no piece contains it. */
  lemma {:induction false} SplitJoin(c: char, parts: seq<string>)
    requires parts != []
    requires forall k, i :: 0 <= k < |parts| && 0 <= i < |parts[k]| ==> parts[k][i] != c
    ensures Split(Join([c], parts), {c}) == parts
  {
    if |parts| == 1 {
      SplitNoSeparator(parts[0], {c});
    } else {
      SplitJoin(c, parts[1..]);
      var tail := [c] + Join([c], parts[1..]);
      assert Join([c], parts) == parts[0] + tail;
      assert tail[1..] == Join([c], parts[1..]);
      SplitPrefix(parts[0], tail, {c});
    }
  }

  /** A string without separators is one piece. */
  lemma {:induction false} SplitNoSeparator(s: string, seps: set<char>)
    requires forall i :: 0 <= i < |s| ==> s[i] !in seps
    ensures Split(s, seps) == [s]
  {
    if s != [] {
      SplitNoSeparator(s[1..], seps);
      assert [s[0]] + s[1..] == s;
    }
  }

  /** A split into a single piece leaves the string whole. */
  lemma {:induction false} SplitSingle(s: string, seps: set<char>)
    requires |Split(s, seps)| == 1
    ensures Split(s, seps) == [s]
  {
    if s != [] && s[0] !in seps {
      SplitSingle(s[1..], seps);
      assert [s[0]] + s[1..] == s;
    }
  }

  /** A separator-free head extends the first piece of what follows the head,
      when that starts with a separator. */
  lemma {:induction false} SplitPrefix(p: string, t: string, seps: set<char>)
    requires forall i :: 0 <= i < |p| ==> p[i] !in seps
    requires t != [] && t[0] in seps
    ensures Split(p + t, seps) == [p] + Split(t[1..], seps)
  {
    if p == [] {
      assert p + t == t;
    } else {
      SplitPrefix(p[1..], t, seps);
      assert (p + t)[0] == p[0] && (p + t)[1..] == p[1..] + t;
      assert [p[0]] + p[1..] == p;
    }
  }
}
