/** The JavaScript string operations the profile code relies on:
    `String.prototype.trim`, `split` on a one-character separator, and
    `Array.prototype.join`. */
module Text {

  /** The WhiteSpace and LineTerminator code points of ECMAScript, which
      `trim` strips from both ends of a string. */
  const JsWhitespace: set<char> := {
    ' ', '\t', '\n', '\r', '\U{B}', '\U{C}', '\U{A0}', '\U{1680}',
    '\U{2000}', '\U{2001}', '\U{2002}', '\U{2003}', '\U{2004}', '\U{2005}',
    '\U{2006}', '\U{2007}', '\U{2008}', '\U{2009}', '\U{200A}',
    '\U{2028}', '\U{2029}', '\U{202F}', '\U{205F}', '\U{3000}', '\U{FEFF}'
  }

  predicate IsJsWhitespace(c: char) {
    c in JsWhitespace
  }

  /** Neither end of `s` is whitespace: `trim` leaves it alone. */
  predicate IsTrimmed(s: string) {
    s == [] || (!IsJsWhitespace(s[0]) && !IsJsWhitespace(s[|s| - 1]))
  }

  /** Drops the leading whitespace (see `TrimStartSpec` for the full
      characterisation). */
  function TrimStart(s: string): (r: string)
    ensures |r| <= |s|
    ensures r == [] || !IsJsWhitespace(r[0])
  {
    if |s| > 0 && IsJsWhitespace(s[0]) then TrimStart(s[1..]) else s
  }

  /** `TrimStart` keeps a suffix of `s` and what it drops is whitespace only. */
  lemma {:induction false} TrimStartSpec(s: string)
    ensures TrimStart(s) == s[|s| - |TrimStart(s)|..]
    ensures forall i :: 0 <= i < |s| - |TrimStart(s)| ==> IsJsWhitespace(s[i])
  {
    if |s| > 0 && IsJsWhitespace(s[0]) {
      TrimStartSpec(s[1..]);
    }
  }

  /** Drops the trailing whitespace (see `TrimEndSpec`); the first character,
      if any is kept, is unchanged. */
  function TrimEnd(s: string): (r: string)
    ensures |r| <= |s|
    ensures r == [] || (r[0] == s[0] && !IsJsWhitespace(r[|r| - 1]))
  {
    if |s| > 0 && IsJsWhitespace(s[|s| - 1]) then TrimEnd(s[..|s| - 1]) else s
  }

  /** `TrimEnd` keeps a prefix of `s` and what it drops is whitespace only. */
  lemma {:induction false} TrimEndSpec(s: string)
    ensures TrimEnd(s) == s[..|TrimEnd(s)|]
    ensures forall i :: |TrimEnd(s)| <= i < |s| ==> IsJsWhitespace(s[i])
  {
    if |s| > 0 && IsJsWhitespace(s[|s| - 1]) {
      TrimEndSpec(s[..|s| - 1]);
    }
  }

  /** `s[a..b]` is what remains of `s` once only whitespace is cut off
      its two ends. */
  predicate CutsWhitespace(s: string, a: int, b: int) {
    && 0 <= a <= b <= |s|
    && (forall i :: 0 <= i < a ==> IsJsWhitespace(s[i]))
    && (forall i :: b <= i < |s| ==> IsJsWhitespace(s[i]))
  }

  /** `s.trim()`: a slice of `s` with no whitespace at either end, where
      everything cut off on either side is whitespace. */
  function Trim(s: string): (r: string)
    ensures IsTrimmed(r)
    ensures exists a, b :: CutsWhitespace(s, a, b) && r == s[a..b]
  {
    TrimSlice(s);
    TrimEnd(TrimStart(s))
  }

  /** The witnesses for `Trim`'s slice. */
  lemma TrimSlice(s: string)
    ensures var t := TrimStart(s); var a := |s| - |t|;
      CutsWhitespace(s, a, a + |TrimEnd(t)|) && TrimEnd(t) == s[a..a + |TrimEnd(t)|]
  {
    var t := TrimStart(s);
    TrimStartSpec(s);
    TrimEndSpec(t);
    SuffixPrefixCuts(s, t, TrimEnd(t), |s| - |t|);
  }

  /** Cutting whitespace off the front of `s` and then off the back of what
      is left cuts whitespace off both ends of `s`. */
  lemma SuffixPrefixCuts(s: string, t: string, u: string, a: nat)
    requires a <= |s| && t == s[a..] && |u| <= |t| && u == t[..|u|]
    requires forall i :: 0 <= i < a ==> IsJsWhitespace(s[i])
    requires forall i :: |u| <= i < |t| ==> IsJsWhitespace(t[i])
    ensures CutsWhitespace(s, a, a + |u|) && u == s[a..a + |u|]
  {
    forall i | a + |u| <= i < |s|
      ensures IsJsWhitespace(s[i])
    {
      assert s[i] == t[i - a];
    }
  }

  /** A string without whitespace at either end is its own trim, and only
      such a string is. */
  lemma TrimFixedPoints(s: string)
    ensures Trim(s) == s <==> IsTrimmed(s)
  {
    if IsTrimmed(s) {
      assert TrimStart(s) == s;
      assert TrimEnd(s) == s;
    }
  }

  /** Trimming twice is trimming once. */
  lemma TrimIdempotent(s: string)
    ensures Trim(Trim(s)) == Trim(s)
  {
    TrimFixedPoints(Trim(s));
  }

  /** One leading space in front of a trimmed string is removed by `trim`. */
  lemma TrimSpaced(x: string)
    requires IsTrimmed(x)
    ensures Trim(" " + x) == x
  {
    assert (" " + x)[1..] == x;
    assert TrimStart(" " + x) == TrimStart(x);
    TrimFixedPoints(x);
    assert TrimStart(x) == x;
  }

  /** The number of occurrences of `c` in `s`. */
  function Count(s: string, c: char): nat {
    if |s| == 0 then 0 else (if s[0] == c then 1 else 0) + Count(s[1..], c)
  }

  /** `s.split(sep)` for a one-character separator: the pieces between the
      separators, empty pieces included, so `"".split(",")` is `[""]`. */
  function Split(s: string, sep: char): (r: seq<string>)
    ensures |r| == Count(s, sep) + 1
    ensures forall i :: 0 <= i < |r| ==> sep !in r[i]
  {
    if |s| == 0 then [""]
    else
      var rest := Split(s[1..], sep);
      if s[0] == sep then [""] + rest
      else [[s[0]] + rest[0]] + rest[1..]
  }

  /** `xs.join(sep)`: the elements with `sep` between neighbours. */
  function Join(xs: seq<string>, sep: string): string {
    if |xs| == 0 then ""
    else if |xs| == 1 then xs[0]
    else xs[0] + sep + Join(xs[1..], sep)
  }

  /** Putting a prefix on the first element puts it on the joined string. */
  lemma JoinPrefixHead(p: string, xs: seq<string>, sep: string)
    requires |xs| > 0
    ensures Join([p + xs[0]] + xs[1..], sep) == p + Join(xs, sep)
  {
    var ys := [p + xs[0]] + xs[1..];
    if |xs| > 1 {
      assert ys[1..] == xs[1..];
    }
  }

  /** Joining the pieces of a split with the separator gives back the string. */
  lemma {:induction false} JoinSplit(s: string, sep: char)
    ensures Join(Split(s, sep), [sep]) == s
  {
    if |s| > 0 {
      var rest := Split(s[1..], sep);
      JoinSplit(s[1..], sep);
      if s[0] == sep {
        assert ([""] + rest)[1..] == rest;
      } else {
        JoinPrefixHead([s[0]], rest, [sep]);
        assert [[s[0]] + rest[0]] + rest[1..] == Split(s, sep);
      }
      assert s == [s[0]] + s[1..];
    }
  }

  /** A string without the separator splits into itself alone. */
  lemma {:induction false} SplitWithoutSeparator(s: string, sep: char)
    requires sep !in s
    ensures Split(s, sep) == [s]
  {
    if |s| > 0 {
      assert sep !in s[1..];
      SplitWithoutSeparator(s[1..], sep);
      assert s == [s[0]] + s[1..];
    }
  }

  /** Splitting `a + sep + b`, with `a` free of the separator, yields `a`
      followed by the pieces of `b`. */
  lemma {:induction false} SplitAfterPiece(a: string, sep: char, b: string)
    requires sep !in a
    ensures Split(a + [sep] + b, sep) == [a] + Split(b, sep)
  {
    var s := a + [sep] + b;
    if |a| == 0 {
      assert s[1..] == b;
    } else {
      assert s[1..] == a[1..] + [sep] + b;
      assert sep !in a[1..];
      SplitAfterPiece(a[1..], sep, b);
      assert [a[0]] + a[1..] == a;
    }
  }

  /** Splitting a join gives back the elements, provided none contains the
      separator and there is at least one (the empty join splits into `[""]`). */
  lemma {:induction false} SplitJoin(xs: seq<string>, sep: char)
    requires |xs| > 0
    requires forall i :: 0 <= i < |xs| ==> sep !in xs[i]
    ensures Split(Join(xs, [sep]), sep) == xs
  {
    if |xs| == 1 {
      SplitWithoutSeparator(xs[0], sep);
    } else {
      SplitJoin(xs[1..], sep);
      SplitAfterPiece(xs[0], sep, Join(xs[1..], [sep]));
      assert xs == [xs[0]] + xs[1..];
    }
  }

  /** Every element but the first with one space in front. */
  function Padded(xs: seq<string>): (r: seq<string>)
    ensures |r| == |xs|
    ensures forall i :: 0 <= i < |xs| ==> r[i] == " " + xs[i]
  {
    seq(|xs|, i requires 0 <= i < |xs| => " " + xs[i])
  }

  /** `trim` applied to every element. */
  function TrimAll(xs: seq<string>): (r: seq<string>)
    ensures |r| == |xs|
    ensures forall i :: 0 <= i < |xs| ==> r[i] == Trim(xs[i])
  {
    seq(|xs|, i requires 0 <= i < |xs| => Trim(xs[i]))
  }

  /** A character other than the separator extends the first piece. */
  lemma SplitConsChar(c: char, t: string, sep: char)
    requires c != sep
    ensures Split([c] + t, sep) == [[c] + Split(t, sep)[0]] + Split(t, sep)[1..]
  {
    assert ([c] + t)[1..] == t;
  }

  /** The `", "` join of a list of at least two elements, cut after the comma. */
  lemma JoinCommaSpace(xs: seq<string>)
    requires |xs| > 1
    ensures Join(xs, ", ") == xs[0] + [','] + (" " + Join(xs[1..], ", "))
  {
    var rest := Join(xs[1..], ", ");
    assert Join(xs, ", ") == xs[0] + ", " + rest;
    assert ", " == [','] + " ";
    assert xs[0] + ", " + rest == xs[0] + [','] + (" " + rest);
  }

  /** A list joined with `", "` splits on `','` into the elements, each but
      the first carrying the space of the delimiter. */
  lemma {:induction false} SplitCommaSpaceJoin(xs: seq<string>)
    requires |xs| > 0
    requires forall i :: 0 <= i < |xs| ==> ',' !in xs[i]
    ensures Split(Join(xs, ", "), ',') == [xs[0]] + Padded(xs[1..])
  {
    if |xs| == 1 {
      SplitWithoutSeparator(xs[0], ',');
    } else {
      var tail := Join(xs[1..], ", ");
      SplitCommaSpaceJoin(xs[1..]);
      JoinCommaSpace(xs);
      SplitAfterPiece(xs[0], ',', " " + tail);
      var pieces := Split(tail, ',');
      SplitConsChar(' ', tail, ',');
      assert pieces == [xs[1]] + Padded(xs[2..]);
      assert [" " + pieces[0]] + pieces[1..] == Padded(xs[1..]);
    }
  }

  /** Trimming undoes the padding of trimmed strings. */
  lemma TrimAllUnpads(x: string, ys: seq<string>)
    requires IsTrimmed(x)
    requires forall i :: 0 <= i < |ys| ==> IsTrimmed(ys[i])
    ensures TrimAll([x] + Padded(ys)) == [x] + ys
  {
    var zs := [x] + Padded(ys);
    var ts := TrimAll(zs);
    TrimFixedPoints(x);
    assert ts[0] == x;
    forall i | 1 <= i < |zs|
      ensures ts[i] == ys[i - 1]
    {
      assert zs[i] == " " + ys[i - 1];
      TrimSpaced(ys[i - 1]);
    }
    assert ts == [x] + ys;
  }

  /** Joining trimmed, comma-free strings with `", "` and then splitting on
      `','` and trimming each piece recovers the list. */
  lemma SplitTrimInvertsJoin(xs: seq<string>)
    requires |xs| > 0
    requires forall i :: 0 <= i < |xs| ==> ',' !in xs[i] && IsTrimmed(xs[i])
    ensures TrimAll(Split(Join(xs, ", "), ',')) == xs
  {
    SplitCommaSpaceJoin(xs);
    TrimAllUnpads(xs[0], xs[1..]);
    assert [xs[0]] + xs[1..] == xs;
  }
}
