/**
  The LIKE patterns of move.ts and delete.ts. PostgreSQL matches as section 9.7.1 of its
  manual says: `%` any string, `_` any character, a backslash makes the next
  character stand for itself.
  */
module Like {
  import opened Paths

  predicate Matches(s: string, p: string)
    decreases |s| + |p|
  {
    if p == "" then s == ""
    else if p[0] == '%' then Matches(s, p[1..]) || (s != "" && Matches(s[1..], p))
    else if p[0] == '\\' && |p| > 1 then s != "" && s[0] == p[1] && Matches(s[1..], p[2..])
    else s != "" && (p[0] == '_' || s[0] == p[0]) && Matches(s[1..], p[1..])
  }

  /** `s.replace(/c/g, repl)`. */
  function ReplaceAll(s: string, c: char, repl: string): string {
    if s == "" then "" else (if s[0] == c then repl else [s[0]]) + ReplaceAll(s[1..], c, repl)
  }

  function Escape(s: string): string {
    ReplaceAll(ReplaceAll(s, '%', ['\\', '%']), '_', ['\\', '_'])
  }

  function EscapedChar(c: char): string {
    if c == '%' then ['\\', '%'] else if c == '_' then ['\\', '_'] else [c]
  }

  /** The pattern for what is below src. */
  function Pattern(src: string): string {
    Escape(src) + ['/', '%']
  }

  predicate Below(src: string, path: string) {
    src + ['/'] <= path
  }

  lemma {:induction false} ReplaceAppend(a: string, b: string, c: char, repl: string)
    ensures ReplaceAll(a + b, c, repl) == ReplaceAll(a, c, repl) + ReplaceAll(b, c, repl)
  {
    if a == "" {
      assert a + b == b;
    } else {
      assert (a + b)[1..] == a[1..] + b;
      ReplaceAppend(a[1..], b, c, repl);
    }
  }

  lemma {:induction false} ReplaceOne(x: char, c: char, repl: string)
    ensures ReplaceAll([x], c, repl) == if x == c then repl else [x]
  {
    assert [x][1..] == [];
  }

  lemma {:induction false} EscapeFirst(s: string)
    requires s != ""
    ensures Escape(s) == EscapedChar(s[0]) + Escape(s[1..])
  {
    var c, rest := s[0], s[1..];
    var once := ReplaceAll(rest, '%', ['\\', '%']);
    assert s == [c] + rest;
    ReplaceAppend([c], rest, '%', ['\\', '%']);
    ReplaceOne(c, '%', ['\\', '%']);
    ReplaceAppend(if c == '%' then ['\\', '%'] else [c], once, '_', ['\\', '_']);
    if c == '%' {
      assert ['\\', '%'] == ['\\'] + ['%'];
      ReplaceAppend(['\\'], ['%'], '_', ['\\', '_']);
      ReplaceOne('\\', '_', ['\\', '_']);
      ReplaceOne('%', '_', ['\\', '_']);
    } else {
      ReplaceOne(c, '_', ['\\', '_']);
    }
  }

  lemma {:induction false} PatternFirst(src: string)
    requires src != ""
    ensures Pattern(src) == EscapedChar(src[0]) + Pattern(src[1..])
  {
    EscapeFirst(src);
  }

  lemma {:induction false} AnythingMatches(s: string)
    ensures Matches(s, ['%'])
    decreases |s|
  {
    assert ['%'][1..] == [];
    if s != "" {
      AnythingMatches(s[1..]);
    }
  }

  /** An ordinary or escaped character of the pattern matches itself and nothing else. */
  lemma {:induction false} MatchOne(s: string, c: char, p: string)
    requires c != '\\'
    ensures Matches(s, EscapedChar(c) + p) <==> s != "" && s[0] == c && Matches(s[1..], p)
  {
    var q := EscapedChar(c) + p;
    if c == '%' || c == '_' {
      assert q[0] == '\\' && q[1] == c && q[2..] == p;
    } else {
      assert q[0] == c && q[1..] == p;
    }
  }

  lemma {:induction false} MatchTail(s: string)
    ensures Matches(s, ['/', '%']) <==> s != "" && s[0] == '/'
  {
    assert ['/', '%'][1..] == ['%'];
    if s != "" {
      AnythingMatches(s[1..]);
    }
  }

  lemma {:induction false} BelowFirst(src: string, path: string)
    requires src != ""
    ensures Below(src, path) <==> path != "" && path[0] == src[0] && Below(src[1..], path[1..])
  {
    assert src + ['/'] == [src[0]] + (src[1..] + ['/']);
  }

  lemma {:induction false} PatternMatchesBelow(src: string, path: string)
    requires '\\' !in src
    ensures Matches(path, Pattern(src)) <==> Below(src, path)
    decreases |src|
  {
    if src == "" {
      assert Pattern(src) == ['/', '%'];
      MatchTail(path);
    } else {
      PatternFirst(src);
      MatchOne(path, src[0], Pattern(src[1..]));
      BelowFirst(src, path);
      if path != "" {
        PatternMatchesBelow(src[1..], path[1..]);
      }
    }
  }

  // ---------------------------------------------------------------------
  // A backslash in the source path spoils the pattern, always.
  // ---------------------------------------------------------------------

  /** A text the pattern matches: every wildcard that the backslashes left behind is given
      as little as possible, and no underscore. */
  function Stray(src: string): string
    decreases |src|
  {
    if src == "" then ['/']
    else if src[0] != '\\' then [src[0]] + Stray(src[1..])
    else if |src| == 1 then ['/']
    else if src[1] == '%' then ['\\'] + Stray(src[2..])
    else if src[1] == '_' then ['\\', 'x'] + Stray(src[2..])
    else [src[1]] + Stray(src[2..])
  }

  lemma {:induction false} MatchEscapedBackslash(s: string, p: string, c: char)
    ensures s != "" && s[0] == c && Matches(s[1..], p) ==> Matches(s, ['\\', c] + p)
  {
    var q := ['\\', c] + p;
    assert q[0] == '\\' && q[1] == c && q[2..] == p;
  }

  lemma {:induction false} SkipPercent(s: string, p: string)
    requires Matches(s, p)
    ensures Matches(s, ['%'] + p)
  {
    assert (['%'] + p)[1..] == p;
  }

  lemma {:induction false} SkipUnderscore(x: char, s: string, p: string)
    requires Matches(s, p)
    ensures Matches([x] + s, ['_'] + p)
  {
    assert (['_'] + p)[1..] == p && ([x] + s)[1..] == s;
  }

  lemma {:induction false} StrayMatches(src: string, rest: string)
    ensures Matches(Stray(src) + rest, Pattern(src))
    decreases |src|
  {
    if src == "" {
      assert Pattern(src) == ['/', '%'];
      MatchTail(Stray(src) + rest);
    } else if src[0] != '\\' {
      StrayMatches(src[1..], rest);
      StrayAfterChar(src, rest);
    } else if |src| == 1 {
      LastBackslash(src);
      AnythingMatches(rest);
      assert (['/'] + rest)[1..] == rest;
      MatchEscapedBackslash(['/'] + rest, ['%'], '/');
    } else {
      StrayMatches(src[2..], rest);
      StrayAfterBackslash(src, src[1], Stray(src[2..]) + rest, Pattern(src[2..]));
      StrayAround(src, rest);
    }
  }

  lemma {:induction false} StrayAfterChar(src: string, rest: string)
    requires src != "" && src[0] != '\\' && Matches(Stray(src[1..]) + rest, Pattern(src[1..]))
    ensures Matches(Stray(src) + rest, Pattern(src))
  {
    PatternFirst(src);
    MatchCons(src[0], Stray(src[1..]) + rest, Pattern(src[1..]));
    AppendAssoc([src[0]], Stray(src[1..]), rest);
  }

  lemma {:induction false} MatchCons(c: char, t: string, p: string)
    requires c != '\\' && Matches(t, p)
    ensures Matches([c] + t, EscapedChar(c) + p)
  {
    assert ([c] + t)[1..] == t;
    MatchOne([c] + t, c, p);
  }

  lemma {:induction false} LastBackslash(src: string)
    requires |src| == 1 && src[0] == '\\'
    ensures Pattern(src) == ['\\', '/'] + ['%']
  {
    PatternFirst(src);
    assert Pattern(src[1..]) == ['/', '%'];
  }

  /** What the text of src puts in front of the text of src[2..]. */
  function StrayHead(c: char): string {
    if c == '%' then ['\\'] else if c == '_' then ['\\', 'x'] else [c]
  }

  lemma {:induction false} StrayAround(src: string, rest: string)
    requires |src| > 1 && src[0] == '\\'
    ensures Stray(src) + rest == StrayHead(src[1]) + (Stray(src[2..]) + rest)
  {
  }

  lemma {:induction false} PatternAfterBackslash(src: string, c: char)
    requires |src| > 1 && src[0] == '\\' && src[1] == c
    ensures Pattern(src) == ['\\'] + (EscapedChar(c) + Pattern(src[2..]))
  {
    PatternFirst(src);
    PatternFirst(src[1..]);
    assert src[1..][1..] == src[2..];
  }

  lemma {:induction false} StrayAfterBackslash(src: string, c: char, t: string, p: string)
    requires |src| > 1 && src[0] == '\\' && src[1] == c && p == Pattern(src[2..]) && Matches(t, p)
    ensures Matches(StrayHead(c) + t, Pattern(src))
  {
    PatternAfterBackslash(src, c);
    if c == '%' {
      BackslashPercent(t, p);
    } else if c == '_' {
      BackslashUnderscore(t, p);
    } else {
      BackslashOther(c, t, p);
    }
  }

  lemma {:induction false} BackslashPercent(t: string, p: string)
    requires Matches(t, p)
    ensures Matches(['\\'] + t, ['\\'] + (['\\', '%'] + p))
  {
    SkipPercent(t, p);
    assert ['\\'] + (['\\', '%'] + p) == ['\\', '\\'] + (['%'] + p);
    assert (['\\'] + t)[1..] == t;
    MatchEscapedBackslash(['\\'] + t, ['%'] + p, '\\');
  }

  lemma {:induction false} BackslashUnderscore(t: string, p: string)
    requires Matches(t, p)
    ensures Matches(['\\', 'x'] + t, ['\\'] + (['\\', '_'] + p))
  {
    SkipUnderscore('x', t, p);
    assert ['\\'] + (['\\', '_'] + p) == ['\\', '\\'] + (['_'] + p);
    var s := ['\\', 'x'] + t;
    assert s[1..] == ['x'] + t;
    MatchEscapedBackslash(s, ['_'] + p, '\\');
  }

  lemma {:induction false} BackslashOther(c: char, t: string, p: string)
    requires Matches(t, p)
    ensures Matches([c] + t, ['\\'] + ([c] + p))
  {
    assert ['\\'] + ([c] + p) == ['\\', c] + p;
    assert ([c] + t)[1..] == t;
    MatchEscapedBackslash([c] + t, p, c);
  }

  lemma {:induction false} StrayIsNotBelow(src: string)
    ensures |Stray(src)| <= |src| + 1
    ensures '\\' in src ==> Stray(src) != src + ['/']
    decreases |src|
  {
    if src == "" {
    } else if src[0] != '\\' {
      StrayIsNotBelow(src[1..]);
      assert src == [src[0]] + src[1..];
      assert Stray(src)[1..] == Stray(src[1..]) && (src + ['/'])[1..] == src[1..] + ['/'];
    } else if |src| == 1 {
    } else {
      StrayIsNotBelow(src[2..]);
      if src[1] == '_' {
        assert Stray(src)[1] == 'x' && (src + ['/'])[1] == '_';
      }
    }
  }

  lemma {:induction false} StrangerIsNotBelow(src: string)
    requires '\\' in src
    ensures !Below(src, Stray(src) + ['x'])
  {
    StrayIsNotBelow(src);
    NotAPrefix(src + ['/'], Stray(src));
  }

  lemma {:induction false} NotAPrefix(b: string, t: string)
    requires |t| <= |b| && b != "" && b[|b| - 1] == '/' && b != t
    ensures !(b <= t + ['x'])
  {
    assert |b| == |t| ==> (t + ['x'])[..|b|] == t;
    assert (t + ['x'])[|t|] == 'x';
  }

  /** The pattern selects exactly what is below a path, among all strings, if and only if the
      path has no backslash: the source escapes `%` and `_` but not the escape character. */
  lemma {:induction false} PatternIsExact(src: string)
    ensures (forall path :: Matches(path, Pattern(src)) <==> Below(src, path)) <==> '\\' !in src
  {
    if '\\' in src {
      StrayMatches(src, ['x']);
      StrangerIsNotBelow(src);
    } else {
      forall path
        ensures Matches(path, Pattern(src)) <==> Below(src, path)
      {
        PatternMatchesBelow(src, path);
      }
    }
  }

  // ---------------------------------------------------------------------
  // The same among the paths that rows can have.
  // ---------------------------------------------------------------------

  predicate NoDouble(s: string) {
    forall k :: 0 <= k < |s| - 1 ==> !(s[k] == '/' && s[k + 1] == '/')
  }

  lemma {:induction false} NoDoubleTail(s: string, k: nat)
    requires NoDouble(s) && k <= |s|
    ensures NoDouble(s[k..])
  {
    forall i | 0 <= i < |s[k..]| - 1
      ensures !(s[k..][i] == '/' && s[k..][i + 1] == '/')
    {
      assert !(s[k + i] == '/' && s[k + i + 1] == '/');
    }
  }

  lemma {:induction false} NoDoubleCons(c: char, s: string)
    ensures NoDouble([c] + s) <==> NoDouble(s) && !(c == '/' && s != "" && s[0] == '/')
  {
    var t := [c] + s;
    if NoDouble(t) {
      NoDoubleTail(t, 1);
      assert t[1..] == s;
      assert s != "" ==> !(t[0] == '/' && t[0 + 1] == '/');
    } else {
      var k :| 0 <= k < |t| - 1 && t[k] == '/' && t[k + 1] == '/';
      assert k > 0 ==> s[k - 1] == '/' && s[k - 1 + 1] == '/';
    }
  }

  /** The pattern after a backslash and what it makes of a text. */
  lemma {:induction false} MatchAfterBackslash(t: string, src: string, c: char) returns (rest: string)
    requires |src| > 1 && src[0] == '\\' && src[1] == c && Matches(t, Pattern(src))
    ensures Matches(rest, Pattern(src[2..])) && |rest| < |t| && rest == t[|t| - |rest|..]
    ensures if c == '%' || c == '_' then t[0] == '\\' else t[0] == c && rest == t[1..]
    ensures c == '_' ==> |rest| + 2 == |t|
  {
    PatternAfterBackslash(src, c);
    var p, q := Pattern(src[2..]), Pattern(src);
    if c == '%' {
      assert q == ['\\', '\\'] + (['%'] + p);
      EscapedFirst(t, '\\', ['%'] + p);
      rest := AfterPercent(t[1..], p);
      assert rest == t[|t| - |rest|..];
    } else if c == '_' {
      assert q == ['\\', '\\'] + (['_'] + p);
      EscapedFirst(t, '\\', ['_'] + p);
      assert (['_'] + p)[1..] == p;
      rest := t[2..];
    } else {
      assert q == ['\\', c] + p;
      EscapedFirst(t, c, p);
      rest := t[1..];
    }
  }

  lemma {:induction false} EscapedFirst(t: string, c: char, p: string)
    requires Matches(t, ['\\', c] + p)
    ensures t != "" && t[0] == c && Matches(t[1..], p)
  {
    var q := ['\\', c] + p;
    assert q[0] == '\\' && q[1] == c && q[2..] == p;
  }

  lemma {:induction false} AfterPercent(t: string, p: string) returns (rest: string)
    requires Matches(t, ['%'] + p)
    ensures Matches(rest, p) && |rest| <= |t| && rest == t[|t| - |rest|..]
    decreases |t|
  {
    assert (['%'] + p)[1..] == p;
    if Matches(t, p) {
      rest := t;
    } else {
      rest := AfterPercent(t[1..], p);
    }
  }

  /** If any text without double slash matches, the stray text has no double slash either;
      c is what comes before. */
  lemma {:induction false} StrayStaysCanonical(c: char, src: string, t: string)
    requires NoDouble([c] + (src + ['/'])) && NoDouble([c] + t) && Matches(t, Pattern(src))
    ensures NoDouble([c] + Stray(src))
    decreases |src|
  {
    NoDoubleCons(c, src + ['/']);
    NoDoubleCons(c, t);
    NoDoubleCons(c, Stray(src));
    if src == "" {
    } else if src[0] != '\\' {
      PatternFirst(src);
      MatchOne(t, src[0], Pattern(src[1..]));
      assert src + ['/'] == [src[0]] + (src[1..] + ['/']) && t == [t[0]] + t[1..];
      StrayStaysCanonical(src[0], src[1..], t[1..]);
    } else if |src| == 1 {
      LastBackslash(src);
      EscapedFirst(t, '/', ['%']);
    } else {
      StrayAfterBackslashCanonical(c, src, t);
    }
  }

  lemma {:induction false} StrayAfterBackslashCanonical(c: char, src: string, t: string)
    requires |src| > 1 && src[0] == '\\'
    requires NoDouble([c] + (src + ['/'])) && NoDouble([c] + t) && Matches(t, Pattern(src))
    ensures NoDouble([c] + Stray(src))
    decreases |src|, 0
  {
    var d, w := src[1], src[2..];
    var rest := MatchAfterBackslash(t, src, d);
    NoDoubleCons(c, t);
    NoDoubleTail(t, |t| - |rest|);
    NoDoubleCons(c, src + ['/']);
    NoDoubleTail(src + ['/'], 1);
    assert (src + ['/'])[1..] == [d] + (w + ['/']);
    NoDoubleCons(d, w + ['/']);
    var e := if d == '%' then '\\' else if d == '_' then 'x' else d;
    NoDoubleCons(e, w + ['/']);
    assert e == d ==> t == [e] + rest;
    NoDoubleCons(e, rest);
    StrayStaysCanonical(e, w, rest);
    NoDoubleCons('\\', [e] + Stray(w));
    assert Stray(src) == StrayHead(d) + Stray(w);
    assert ['\\', 'x'] + Stray(w) == ['\\'] + (['x'] + Stray(w));
    NoDoubleCons(c, Stray(src));
  }

  /** The source path meets a backslash that is followed by `%` or `_`: a wildcard is left over. */
  predicate Wild(src: string)
    decreases |src|
  {
    src != "" &&
    if src[0] != '\\' then Wild(src[1..])
    else |src| > 1 && (src[1] == '%' || src[1] == '_' || Wild(src[2..]))
  }

  /** Without a wildcard the pattern only matches what begins with the stray text. */
  lemma {:induction false} LiteralPattern(src: string, t: string)
    requires !Wild(src) && Matches(t, Pattern(src))
    ensures Stray(src) <= t
    decreases |src|
  {
    if src == "" {
      assert Pattern(src) == ['/', '%'];
      MatchTail(t);
    } else if src[0] != '\\' {
      PatternFirst(src);
      MatchOne(t, src[0], Pattern(src[1..]));
      LiteralPattern(src[1..], t[1..]);
      assert t == [t[0]] + t[1..];
    } else if |src| == 1 {
      LastBackslash(src);
      EscapedFirst(t, '/', ['%']);
    } else {
      var rest := MatchAfterBackslash(t, src, src[1]);
      LiteralPattern(src[2..], rest);
      assert t == [t[0]] + rest;
    }
  }

  /** Then the stray text parts from src + "/" at some place. */
  lemma {:induction false} StrayParts(ahead: string, src: string) returns (k: nat)
    requires !Wild(src) && (forall i :: 0 <= i < |ahead| ==> ahead[i] == '\\')
    requires ahead == "" ==> '\\' in src
    ensures k < |Stray(src)| && k < |ahead + src| + 1 && Stray(src)[k] != (ahead + src + ['/'])[k]
    decreases |src|
  {
    if src == "" || (ahead != "" && (src[0] != '\\' || |src| == 1 || src[1] != '\\')) {
      k := 0;
    } else if src[0] != '\\' {
      var i := StrayParts([], src[1..]);
      assert src == [src[0]] + src[1..];
      OneLater(src[0], Stray(src[1..]), [] + src[1..] + ['/'], i);
      assert ahead + src + ['/'] == [src[0]] + ([] + src[1..] + ['/']);
      k := i + 1;
    } else if |src| == 1 || src[1] != '\\' {
      k := 0;
    } else {
      var i := StrayParts(ahead + ['\\'], src[2..]);
      OneLater('\\', Stray(src[2..]), (ahead + ['\\']) + src[2..] + ['/'], i);
      BackslashesShift(ahead, src);
      k := i + 1;
    }
  }

  lemma {:induction false} OneLater(c: char, a: string, b: string, i: nat)
    requires i < |a| && i < |b| && a[i] != b[i]
    ensures ([c] + a)[i + 1] != ([c] + b)[i + 1]
  {
  }

  lemma {:induction false} BackslashesShift(ahead: string, src: string)
    requires |src| > 1 && src[0] == '\\' && src[1] == '\\'
    requires forall i :: 0 <= i < |ahead| ==> ahead[i] == '\\'
    ensures ahead + src + ['/'] == ['\\'] + ((ahead + ['\\']) + src[2..] + ['/'])
  {
    assert src == ['\\', '\\'] + src[2..];
    assert ahead + ['\\', '\\'] == ['\\'] + (ahead + ['\\']);
  }

  /** What goes wrong for a stored source path with a backslash. If the stray text is the start of
      paths that rows can have, such a path is selected although it is not below the
      source; if not, no row at all is selected. And if no wildcard is left over, everything
      below the source is missed. */
  lemma {:induction false} BackslashSpoils(src: string)
    requires Canonical(src) && '\\' in src
    ensures Canonical(Stray(src) + ['x']) ==>
      Matches(Stray(src) + ['x'], Pattern(src)) && !Below(src, Stray(src) + ['x'])
    ensures !Canonical(Stray(src) + ['x']) ==>
      forall path :: Canonical(path) ==> !Matches(path, Pattern(src))
    ensures !Wild(src) ==> forall path :: Below(src, path) ==> !Matches(path, Pattern(src))
  {
    StrayMatches(src, ['x']);
    StrangerIsNotBelow(src);
    forall path | Canonical(path) && Matches(path, Pattern(src))
      ensures Canonical(Stray(src) + ['x'])
    {
      CanonicalStray(src, path);
    }
    forall path | !Wild(src) && Matches(path, Pattern(src))
      ensures !Below(src, path)
    {
      LiteralPattern(src, path);
      var k := StrayParts("", src);
      assert "" + src + ['/'] == src + ['/'];
    }
  }

  lemma {:induction false} CanonicalStray(src: string, path: string)
    requires Canonical(src) && src != "/" && Canonical(path) && Matches(path, Pattern(src))
    ensures Canonical(Stray(src) + ['x'])
  {
    var s, p := src[1..], path[1..];
    PatternFirst(src);
    MatchOne(path, '/', Pattern(s));
    assert src == ['/'] + s && path == ['/'] + p;
    NoSlashAtEnd(src);
    assert src + ['/'] == ['/'] + (s + ['/']);
    assert NoDouble(path);
    StrayStaysCanonical('/', s, p);
    assert Stray(src) == ['/'] + Stray(s);
    var t := Stray(src) + ['x'];
    forall k | 0 <= k < |t| - 1
      ensures !(t[k] == '/' && t[k + 1] == '/')
    {
      if k < |t| - 2 {
        assert !(Stray(src)[k] == '/' && Stray(src)[k + 1] == '/');
      }
    }
  }

  lemma {:induction false} NoSlashAtEnd(src: string)
    requires Canonical(src) && src != "/"
    ensures NoDouble(src + ['/'])
  {
    var b := src + ['/'];
    forall k | 0 <= k < |b| - 1
      ensures !(b[k] == '/' && b[k + 1] == '/')
    {
      if k < |src| - 1 {
        assert !(src[k] == '/' && src[k + 1] == '/');
      }
    }
  }

  lemma {:induction false} ChildIsCanonical(src: string)
    requires Canonical(src) && src != "/"
    ensures Canonical(src + ['/', 'x']) && Below(src, src + ['/', 'x'])
  {
    NoSlashAtEnd(src);
    var t := src + ['/', 'x'];
    assert src + ['/'] == t[..|src| + 1];
    forall k | 0 <= k < |t| - 1
      ensures !(t[k] == '/' && t[k + 1] == '/')
    {
      if k < |src| {
        assert !((src + ['/'])[k] == '/' && (src + ['/'])[k + 1] == '/');
      }
    }
  }

  /** Among the paths that rows can have: for every source path but the root, the pattern selects
      exactly what is below it if and only if it has no backslash. */
  lemma {:induction false} PatternIsExactOnRows(src: string)
    requires Canonical(src) && src != "/"
    ensures (forall path :: Canonical(path) ==> (Matches(path, Pattern(src)) <==> Below(src, path))) <==> '\\' !in src
  {
    if '\\' in src {
      BackslashSpoils(src);
      ChildIsCanonical(src);
    } else {
      forall path
        ensures Matches(path, Pattern(src)) <==> Below(src, path)
      {
        PatternMatchesBelow(src, path);
      }
    }
  }

  /** For instance, moving or deleting /a\b takes the rows below /ab and misses its own. */
  lemma {:induction false} BackslashExample()
    ensures Canonical("/a\\b") && Canonical("/ab/x") && Canonical("/a\\b/x")
    ensures Matches("/ab/x", Pattern("/a\\b")) && !Below("/a\\b", "/ab/x")
    ensures Below("/a\\b", "/a\\b/x") && !Matches("/a\\b/x", Pattern("/a\\b"))
  {
    ExampleStray();
    assert "/ab/" + ['x'] == "/ab/x" && "/a\\b" + ['/'] == "/a\\b/x"[..5];
    assert "/a\\b"[2] == '\\';
    BackslashSpoils("/a\\b");
  }

  lemma {:induction false} ExampleStray()
    ensures Stray("/a\\b") == "/ab/" && !Wild("/a\\b")
  {
    var s0, s1, s2, s4 := "/a\\b", "a\\b", "\\b", "";
    assert s0[1..] == s1 && s1[1..] == s2 && s2[2..] == s4;
    assert Stray(s2) == ['b'] + Stray(s4) && !Wild(s4) && !Wild(s2);
    assert Stray(s1) == ['a'] + Stray(s2) && !Wild(s1);
  }
}
