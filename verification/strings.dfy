/** The JavaScript string operations the core relies on: `trim`, `startsWith`,
    `split` on one character and `split(/\s+/)`, and the two leading-slash
    `replace` calls. */
module Strings {

  /** The characters JavaScript's `trim` and `\s` both treat as white space
      (WhiteSpace and LineTerminator of ECMA-262). */
  const Whitespace: set<char> := {
    ' ', '\t', '\n', '\r', '\U{000B}', '\U{000C}', '\U{00A0}', '\U{1680}',
    '\U{2000}', '\U{2001}', '\U{2002}', '\U{2003}', '\U{2004}', '\U{2005}',
    '\U{2006}', '\U{2007}', '\U{2008}', '\U{2009}', '\U{200A}',
    '\U{2028}', '\U{2029}', '\U{202F}', '\U{205F}', '\U{3000}', '\U{FEFF}'
  }

  predicate IsWhitespace(c: char) {
    c in Whitespace
  }

  predicate AllWhitespace(s: string) {
    forall i :: 0 <= i < |s| ==> IsWhitespace(s[i])
  }

  predicate NoWhitespace(s: string) {
    forall i :: 0 <= i < |s| ==> !IsWhitespace(s[i])
  }

  /** A string `trim` leaves as it is: empty, or without white space at either end. */
  predicate Trimmed(s: string) {
    s == "" || (!IsWhitespace(s[0]) && !IsWhitespace(s[|s| - 1]))
  }

  function TrimStart(s: string): (r: string)
    ensures |r| <= |s|
    ensures r == "" || !IsWhitespace(r[0])
  {
    if s == "" || !IsWhitespace(s[0]) then s else TrimStart(s[1..])
  }

  /** `TrimStart` removes a white-space prefix. */
  lemma {:induction false} TrimStartIsSuffix(s: string)
    ensures TrimStart(s) == s[|s| - |TrimStart(s)|..]
    ensures AllWhitespace(s[..|s| - |TrimStart(s)|])
    decreases |s|
  {
    if s != "" && IsWhitespace(s[0]) {
      TrimStartIsSuffix(s[1..]);
      var r := TrimStart(s[1..]);
      assert s[1..][|s| - 1 - |r|..] == s[|s| - |r|..];
      assert forall i :: 0 <= i < |s| - |r| ==> s[..|s| - |r|][i] == s[i];
      assert forall i :: 1 <= i < |s| - |r| ==> s[i] == s[1..][..|s| - 1 - |r|][i - 1];
    }
  }

  function TrimEnd(s: string): (r: string)
    ensures |r| <= |s|
    ensures r == "" || !IsWhitespace(r[|r| - 1])
  {
    if s == "" || !IsWhitespace(s[|s| - 1]) then s else TrimEnd(s[..|s| - 1])
  }

  /** `TrimEnd` removes a white-space suffix. */
  lemma {:induction false} TrimEndIsPrefix(s: string)
    ensures TrimEnd(s) == s[..|TrimEnd(s)|]
    ensures AllWhitespace(s[|TrimEnd(s)|..])
    decreases |s|
  {
    if s != "" && IsWhitespace(s[|s| - 1]) {
      var t := s[..|s| - 1];
      TrimEndIsPrefix(t);
      var r := TrimEnd(t);
      assert t[..|r|] == s[..|r|];
      assert forall i :: |r| <= i < |s| - 1 ==> s[i] == t[|r|..][i - |r|];
      assert forall i :: |r| <= i < |s| ==> s[|r|..][i - |r|] == s[i];
    }
  }

  /** `s.trim()`: the string without its leading and trailing white space. */
  function Trim(s: string): (r: string)
    ensures Trimmed(r) && |r| <= |s|
  {
    TrimEndIsPrefix(TrimStart(s));
    TrimEnd(TrimStart(s))
  }

  /** What `trim` removes is white space at the two ends. */
  lemma TrimIsPaddedSlice(s: string)
    ensures exists i :: 0 <= i && i + |Trim(s)| <= |s| && s[i..i + |Trim(s)|] == Trim(s)
                        && AllWhitespace(s[..i]) && AllWhitespace(s[i + |Trim(s)|..])
  {
    var a := TrimStart(s);
    var r := TrimEnd(a);
    TrimStartIsSuffix(s);
    TrimEndIsPrefix(a);
    var i := |s| - |a|;
    assert s[i..i + |r|] == r;
    assert s[..i] == s[..|s| - |a|];
    assert s[i + |r|..] == a[|r|..];
  }

  lemma {:induction false} TrimStartOfPadded(a: string, t: string)
    requires AllWhitespace(a)
    requires t == "" || !IsWhitespace(t[0])
    ensures TrimStart(a + t) == t
    decreases |a|
  {
    if a != "" {
      assert (a + t)[1..] == a[1..] + t;
      TrimStartOfPadded(a[1..], t);
    } else {
      assert a + t == t;
    }
  }

  lemma {:induction false} TrimEndOfPadded(t: string, b: string)
    requires AllWhitespace(b)
    requires t == "" || !IsWhitespace(t[|t| - 1])
    ensures TrimEnd(t + b) == t
    decreases |b|
  {
    if b != "" {
      assert (t + b)[..|t + b| - 1] == t + b[..|b| - 1];
      TrimEndOfPadded(t, b[..|b| - 1]);
    } else {
      assert t + b == t;
    }
  }

  /** Trimming removes exactly the white-space padding around a trimmed core. */
  lemma TrimOfPadded(a: string, core: string, b: string)
    requires AllWhitespace(a) && AllWhitespace(b) && Trimmed(core)
    ensures Trim(a + core + b) == core
  {
    if core == "" {
      assert a + core + b == a + b;
      if b == "" {
        assert a + b == a + "";
        TrimStartOfPadded(a, "");
      } else {
        assert AllWhitespace(a + b);
        assert a + b == (a + b) + "";
        TrimStartOfPadded(a + b, "");
      }
    } else {
      assert a + core + b == a + (core + b);
      TrimStartOfPadded(a, core + b);
      TrimEndOfPadded(core, b);
    }
  }

  /** Trimming only removes characters. */
  lemma TrimKeepsCharacters(s: string, c: char)
    requires c in Trim(s)
    ensures c in s
  {
    var a := TrimStart(s);
    var r := TrimEnd(a);
    TrimStartIsSuffix(s);
    TrimEndIsPrefix(a);
    var j :| 0 <= j < |r| && r[j] == c;
    assert a[j] == c;
    assert s[|s| - |a| + j] == c;
  }

  /** `trim` is idempotent. */
  lemma TrimIdempotent(s: string)
    ensures Trim(Trim(s)) == Trim(s)
  {
    var r := Trim(s);
    assert "" + r + "" == r;
    TrimOfPadded("", r, "");
  }

  /** `s.startsWith(p)` */
  predicate StartsWith(s: string, p: string) {
    |p| <= |s| && s[..|p|] == p
  }

  /** Glues the pieces of a split back together. */
  function Join(parts: seq<string>, sep: char): string
    requires |parts| >= 1
  {
    if |parts| == 1 then parts[0] else parts[0] + [sep] + Join(parts[1..], sep)
  }

  /** `s.split(sep)` for a one-character separator: never empty, no piece holds the
      separator, and joining the pieces gives back `s`. */
  function Split(s: string, sep: char): (parts: seq<string>)
    ensures |parts| >= 1
    ensures forall i :: 0 <= i < |parts| ==> sep !in parts[i]
    ensures Join(parts, sep) == s
  {
    if s == "" then [""]
    else
      var rest := Split(s[1..], sep);
      if s[0] == sep then
        var parts := [""] + rest;
        assert parts[1..] == rest;
        assert s == [sep] + s[1..];
        parts
      else
        var parts := [[s[0]] + rest[0]] + rest[1..];
        assert s == [s[0]] + s[1..];
        if |rest| == 1 then parts
        else
          assert parts[1..] == rest[1..];
          assert Join(rest, sep) == rest[0] + [sep] + Join(rest[1..], sep);
          parts
  }

  /** `s.split(/\s+/)`: cut at every maximal run of white space. A leading run gives
      an empty first piece and a trailing run an empty last piece, as in JavaScript. */
  function SplitWs(s: string): (parts: seq<string>)
    ensures |parts| >= 1
    ensures forall i :: 0 <= i < |parts| ==> NoWhitespace(parts[i])
    decreases |s|
  {
    if s == "" then [""]
    else if IsWhitespace(s[0]) then [""] + SplitWs(TrimStart(s[1..]))
    else
      var rest := SplitWs(s[1..]);
      [[s[0]] + rest[0]] + rest[1..]
  }

  /** The white-space runs that `SplitWs` cut `s` at, in order. */
  ghost function Runs(s: string): (runs: seq<string>)
    ensures |runs| == |SplitWs(s)| - 1
    ensures forall i :: 0 <= i < |runs| ==> runs[i] != "" && AllWhitespace(runs[i])
    decreases |s|
  {
    if s == "" then []
    else if IsWhitespace(s[0]) then
      var t := TrimStart(s[1..]);
      LeadingRun(s, t);
      [s[..|s| - |t|]] + Runs(t)
    else Runs(s[1..])
  }

  /** Interleaves pieces and separators: `parts[0] + runs[0] + parts[1] + ...`. */
  function Interleave(parts: seq<string>, runs: seq<string>): string
    requires |parts| == |runs| + 1
  {
    if runs == [] then parts[0] else parts[0] + runs[0] + Interleave(parts[1..], runs[1..])
  }

  lemma InterleaveCons(p: string, r: string, parts: seq<string>, runs: seq<string>)
    requires |parts| == |runs| + 1
    ensures Interleave([p] + parts, [r] + runs) == p + r + Interleave(parts, runs)
  {
    assert ([p] + parts)[1..] == parts;
    assert ([r] + runs)[1..] == runs;
  }

  lemma InterleaveHead(c: char, parts: seq<string>, runs: seq<string>)
    requires |parts| == |runs| + 1
    ensures Interleave([[c] + parts[0]] + parts[1..], runs) == [c] + Interleave(parts, runs)
  {
    var q := [[c] + parts[0]] + parts[1..];
    if runs != [] {
      assert q[1..] == parts[1..];
    }
  }

  /** `SplitWs` loses nothing: the pieces and the runs between them rebuild `s`. */
  lemma {:induction false} SplitWsRebuilds(s: string)
    ensures Interleave(SplitWs(s), Runs(s)) == s
    decreases |s|
  {
    if s == "" {
    } else if IsWhitespace(s[0]) {
      var t := TrimStart(s[1..]);
      SplitWsRebuilds(t);
      RebuildsAfterRun(s, t);
    } else {
      SplitWsRebuilds(s[1..]);
      RebuildsAfterChar(s);
    }
  }

  lemma RebuildsAfterRun(s: string, t: string)
    requires s != "" && IsWhitespace(s[0]) && t == TrimStart(s[1..])
    requires Interleave(SplitWs(t), Runs(t)) == t
    ensures Interleave(SplitWs(s), Runs(s)) == s
  {
    var run := s[..|s| - |t|];
    RunPieces(s, t);
    RunSeparators(s, t);
    RunThenRest(s, t);
    InterleaveAfterRun(SplitWs(t), Runs(t), run, t);
  }

  lemma RunPieces(s: string, t: string)
    requires s != "" && IsWhitespace(s[0]) && t == TrimStart(s[1..])
    ensures SplitWs(s) == [""] + SplitWs(t)
  {
  }

  lemma RunSeparators(s: string, t: string)
    requires s != "" && IsWhitespace(s[0]) && t == TrimStart(s[1..])
    ensures Runs(s) == [s[..|s| - |t|]] + Runs(t)
  {
  }

  lemma RunThenRest(s: string, t: string)
    requires s != "" && t == TrimStart(s[1..])
    ensures s == s[..|s| - |t|] + t
  {
    TrimStartIsSuffix(s[1..]);
    assert s[|s| - |t|..] == s[1..][|s| - 1 - |t|..] == t;
    assert s == s[..|s| - |t|] + s[|s| - |t|..];
  }

  lemma InterleaveAfterRun(parts: seq<string>, runs: seq<string>, run: string, t: string)
    requires |parts| == |runs| + 1 && Interleave(parts, runs) == t
    ensures Interleave([""] + parts, [run] + runs) == run + t
  {
    InterleaveCons("", run, parts, runs);
    assert "" + run == run;
  }

  /** The white space `SplitWs` skips at the front of `s`. */
  lemma LeadingRun(s: string, t: string)
    requires s != "" && IsWhitespace(s[0]) && t == TrimStart(s[1..])
    ensures |t| < |s| && s[..|s| - |t|] != "" && AllWhitespace(s[..|s| - |t|])
  {
    TrimStartIsSuffix(s[1..]);
    assert s[..|s| - |t|] == [s[0]] + s[1..][..|s| - 1 - |t|];
  }

  lemma RebuildsAfterChar(s: string)
    requires s != "" && !IsWhitespace(s[0])
    requires Interleave(SplitWs(s[1..]), Runs(s[1..])) == s[1..]
    ensures Interleave(SplitWs(s), Runs(s)) == s
  {
    var rest := SplitWs(s[1..]);
    assert SplitWs(s) == [[s[0]] + rest[0]] + rest[1..];
    assert Runs(s) == Runs(s[1..]);
    InterleaveHead(s[0], rest, Runs(s[1..]));
    assert s == [s[0]] + s[1..];
  }

  /** A white-space-free word in front of `y` sticks to `y`'s first piece. */
  lemma {:induction false} SplitWsWordPrefix(x: string, y: string)
    requires x != "" && NoWhitespace(x)
    ensures SplitWs(x + y) == [x + SplitWs(y)[0]] + SplitWs(y)[1..]
    decreases |x|
  {
    assert (x + y)[0] == x[0];
    assert (x + y)[1..] == x[1..] + y;
    if |x| > 1 {
      SplitWsWordPrefix(x[1..], y);
      assert [x[0]] + (x[1..] + SplitWs(y)[0]) == x + SplitWs(y)[0];
    } else {
      assert x[1..] + y == y;
      assert [x[0]] + SplitWs(y)[0] == x + SplitWs(y)[0];
    }
  }

  /** A white-space-free word alone is one piece. */
  lemma SplitWsWord(t: string)
    requires NoWhitespace(t)
    ensures SplitWs(t) == [t]
  {
    if t != "" {
      assert t + "" == t;
      SplitWsWordPrefix(t, "");
    }
  }

  /** A run of white space before a word gives an empty piece, then the word. */
  lemma SplitWsRunWord(w: string, t: string)
    requires w != "" && AllWhitespace(w)
    requires t != "" && NoWhitespace(t)
    ensures SplitWs(w + t) == ["", t]
  {
    assert (w + t)[0] == w[0];
    assert (w + t)[1..] == w[1..] + t;
    TrimStartOfPadded(w[1..], t);
    SplitWsWord(t);
  }

  /** A string without the separator is one piece. */
  lemma {:induction false} SplitWithoutSeparator(s: string, sep: char)
    requires sep !in s
    ensures Split(s, sep) == [s]
    decreases |s|
  {
    if s != "" {
      SplitWithoutSeparator(s[1..], sep);
      assert [s[0]] + s[1..] == s;
    }
  }

  /** The first piece ends at the first separator. */
  lemma {:induction false} SplitAtFirst(a: string, b: string, sep: char)
    requires sep !in a
    ensures Split(a + [sep] + b, sep) == [a] + Split(b, sep)
    decreases |a|
  {
    var s := a + [sep] + b;
    if a == "" {
      assert s == [sep] + b;
      assert s[1..] == b;
    } else {
      assert s[0] == a[0];
      assert s[1..] == a[1..] + [sep] + b;
      SplitAtFirst(a[1..], b, sep);
      assert [a[0]] + a[1..] == a;
    }
  }

  /** `split(/\s+/)` of "word run word" gives exactly the two words. */
  lemma SplitWsTwoWords(x: string, w: string, t: string)
    requires x != "" && NoWhitespace(x)
    requires w != "" && AllWhitespace(w)
    requires t != "" && NoWhitespace(t)
    ensures SplitWs(x + w + t) == [x, t]
  {
    SplitWsRunWord(w, t);
    assert x + w + t == x + (w + t);
    SplitWsWordPrefix(x, w + t);
    assert x + "" == x;
  }

  /** `s.replace(/^\//, '')`: drops at most one leading slash. */
  function StripOneLeadingSlash(s: string): (r: string)
    ensures s == r || s == "/" + r
    ensures StartsWith(s, "/") <==> s == "/" + r
  {
    if |s| > 0 && s[0] == '/' then s[1..] else s
  }

  /** `s.replace(/^\/+/, '')`: drops every leading slash. */
  function StripLeadingSlashes(s: string): (r: string)
    ensures |r| <= |s| && r == s[|s| - |r|..]
    ensures forall i :: 0 <= i < |s| - |r| ==> s[i] == '/'
    ensures r == "" || r[0] != '/'
  {
    if |s| > 0 && s[0] == '/' then StripLeadingSlashes(s[1..]) else s
  }
}
