/** Text helpers of the page script: JavaScript's notion of white space, trim,
    splitting on runs of delimiters, the word counter of the vision box and
    the list normaliser used for the free-form feature answer. */
module Text {

  /** ECMAScript's WhiteSpace and LineTerminator code points: the set that both
      String.prototype.trim and the regular-expression class \s use. */
  predicate IsSpace(c: char) {
    || c == '\t' || c == '\n' || c == '\U{B}' || c == '\U{C}' || c == '\r' || c == ' '
    || c == '\U{A0}' || c == '\U{1680}' || ('\U{2000}' <= c <= '\U{200A}')
    || c == '\U{2028}' || c == '\U{2029}' || c == '\U{202F}' || c == '\U{205F}'
    || c == '\U{3000}' || c == '\U{FEFF}'
  }

  /** The character classes the script splits on: /\s+/ and /[\n,]+/. */
  datatype Delims = Whitespace | CommaOrNewline

  predicate IsDelim(d: Delims, c: char) {
    match d
    case Whitespace => IsSpace(c)
    case CommaOrNewline => c == ',' || c == '\n'
  }

  predicate AllDelims(d: Delims, s: string) {
    forall i :: 0 <= i < |s| ==> IsDelim(d, s[i])
  }

  predicate NoDelims(d: Delims, s: string) {
    forall i :: 0 <= i < |s| ==> !IsDelim(d, s[i])
  }

  /** A string with no white space at either end (what trim returns). */
  predicate IsTrimmed(s: string) {
    s == [] || (!IsSpace(s[0]) && !IsSpace(s[|s| - 1]))
  }

  /** The length of the leading run of delimiters of s. */
  function LeadingDelims(d: Delims, s: string): (k: nat)
    ensures k <= |s|
    ensures forall i :: 0 <= i < k ==> IsDelim(d, s[i])
    ensures k < |s| ==> !IsDelim(d, s[k])
  {
    if s != [] && IsDelim(d, s[0]) then 1 + LeadingDelims(d, s[1..]) else 0
  }

  /** s without its leading run of delimiters. */
  function DropDelims(d: Delims, s: string): string {
    s[LeadingDelims(d, s)..]
  }

  /** String.prototype.trim: the result has no white space at either end, is
      empty exactly when s is all white space, and leaves a trimmed string alone. */
  function Trim(s: string): (r: string)
    ensures IsTrimmed(r)
    ensures |r| <= |s|
    ensures r == [] <==> AllDelims(Whitespace, s)
    ensures IsTrimmed(s) ==> r == s
    ensures NoDelims(CommaOrNewline, s) ==> NoDelims(CommaOrNewline, r)
  {
    if s != [] && IsSpace(s[0]) then Trim(s[1..])
    else if s != [] && IsSpace(s[|s| - 1]) then Trim(s[..|s| - 1])
    else s
  }

  /** r sits in s at offset k with nothing but white space around it. */
  predicate InfixAt(s: string, r: string, k: int) {
    && 0 <= k <= |s| - |r|
    && r == s[k..k + |r|]
    && AllDelims(Whitespace, s[..k])
    && AllDelims(Whitespace, s[k + |r|..])
  }

  /** What trim keeps: the part of s between a leading and a trailing run of
      white space. With IsTrimmed this fixes the result completely. */
  lemma {:induction false} TrimInfix(s: string)
    ensures exists k :: InfixAt(s, Trim(s), k)
    decreases |s|
  {
    var r := Trim(s);
    if s != [] && IsSpace(s[0]) {
      TrimInfix(s[1..]);
      var k :| InfixAt(s[1..], r, k);
      InfixDropFirst(s, r, k);
    } else if s != [] && IsSpace(s[|s| - 1]) {
      TrimInfix(s[..|s| - 1]);
      var k :| InfixAt(s[..|s| - 1], r, k);
      InfixDropLast(s, r, k);
    } else {
      assert InfixAt(s, r, 0);
    }
  }

  lemma InfixDropFirst(s: string, r: string, k: int)
    requires s != [] && IsSpace(s[0]) && InfixAt(s[1..], r, k)
    ensures InfixAt(s, r, k + 1)
  {
    var t := s[1..];
    assert s[k + 1..k + 1 + |r|] == t[k..k + |r|];
    assert s[k + 1 + |r|..] == t[k + |r|..];
    var pre := s[..k + 1];
    forall i | 0 <= i < |pre|
      ensures IsDelim(Whitespace, pre[i])
    {
      if i > 0 {
        assert pre[i] == t[..k][i - 1];
      }
    }
  }

  lemma InfixDropLast(s: string, r: string, k: int)
    requires s != [] && IsSpace(s[|s| - 1]) && InfixAt(s[..|s| - 1], r, k)
    ensures InfixAt(s, r, k)
  {
    var t := s[..|s| - 1];
    assert s[k..k + |r|] == t[k..k + |r|];
    assert s[..k] == t[..k];
    assert s[k + |r|..] == t[k + |r|..] + [s[|s| - 1]];
  }

  /** String.prototype.split with the pattern /[delims]+/: the pieces between
      maximal delimiter runs, with an empty piece before a leading run and after a
      trailing run ("" splits into [""]). */
  function Split(d: Delims, s: string): (r: seq<string>)
    ensures |r| >= 1
    ensures forall i :: 0 <= i < |r| ==> NoDelims(d, r[i])
    ensures r[0] == [] <==> (s == [] || IsDelim(d, s[0]))
    decreases |s|
  {
    if s == [] then [""]
    else if IsDelim(d, s[0]) then [""] + Split(d, DropDelims(d, s[1..]))
    else
      var rest := Split(d, s[1..]);
      [[s[0]] + rest[0]] + rest[1..]
  }

  /** The characters of s that are not delimiters, in order. */
  function Kept(d: Delims, s: string): (r: string)
    ensures NoDelims(d, r)
  {
    if s == [] then [] else (if IsDelim(d, s[0]) then [] else [s[0]]) + Kept(d, s[1..])
  }

  function Concat(xs: seq<string>): string {
    if xs == [] then [] else xs[0] + Concat(xs[1..])
  }

  /** The filter(Boolean) step: drops empty strings. */
  function NonEmpty(xs: seq<string>): (r: seq<string>)
    ensures |r| <= |xs|
    ensures forall i :: 0 <= i < |r| ==> r[i] != [] && r[i] in xs
    ensures forall x :: x in xs && x != [] ==> x in r
  {
    if xs == [] then [] else (if xs[0] == [] then [] else [xs[0]]) + NonEmpty(xs[1..])
  }

  /** filter keeps the order: filtering a concatenation filters each part. */
  lemma {:induction false} NonEmptyAppend(a: seq<string>, b: seq<string>)
    ensures NonEmpty(a + b) == NonEmpty(a) + NonEmpty(b)
    decreases |a|
  {
    if a == [] {
      assert a + b == b;
    } else {
      assert (a + b)[1..] == a[1..] + b;
      NonEmptyAppend(a[1..], b);
    }
  }

  /** The map(s => s.trim()) step. */
  function TrimAll(xs: seq<string>): (r: seq<string>)
    ensures |r| == |xs|
    ensures forall i :: 0 <= i < |r| ==> r[i] == Trim(xs[i])
  {
    if xs == [] then [] else [Trim(xs[0])] + TrimAll(xs[1..])
  }

  /** Array.prototype.slice(0, end): a negative end counts back from the length. */
  function SliceTo<T>(xs: seq<T>, end: int): (r: seq<T>)
    ensures |r| <= |xs| && r == xs[..|r|]
    ensures 0 <= end ==> |r| == if end < |xs| then end else |xs|
    ensures end < 0 ==> |r| == if |xs| + end < 0 then 0 else |xs| + end
  {
    if end < 0 then xs[..if |xs| + end < 0 then 0 else |xs| + end]
    else if end < |xs| then xs[..end]
    else xs
  }

  /** Array.prototype.join. */
  function Join(xs: seq<string>, sep: string): string {
    if xs == [] then "" else if |xs| == 1 then xs[0] else xs[0] + sep + Join(xs[1..], sep)
  }

  // ---------- word count ----------

  /** countWords: trim, then count the non-empty pieces of split(/\s+/). */
  function CountWords(s: string): (n: nat)
    ensures n == 0 <==> AllDelims(Whitespace, s)
  {
    var t := Trim(s);
    if t == [] then 0 else |NonEmpty(Split(Whitespace, t))|
  }

  /** Reference word counter, scanning left to right: one word starts at each
      non-delimiter that begins the string or follows a delimiter. */
  function Runs(d: Delims, s: string, afterDelim: bool): nat {
    if s == [] then 0
    else (if afterDelim && !IsDelim(d, s[0]) then 1 else 0) + Runs(d, s[1..], IsDelim(d, s[0]))
  }

  lemma {:induction false} RunsSkipDelims(d: Delims, s: string)
    ensures Runs(d, DropDelims(d, s), true) == Runs(d, s, true)
    decreases |s|
  {
    if s != [] && IsDelim(d, s[0]) {
      RunsSkipDelims(d, s[1..]);
    }
  }

  lemma {:induction false} RunsTrailingDelims(d: Delims, p: string, q: string, b: bool)
    requires AllDelims(d, q)
    ensures Runs(d, p + q, b) == Runs(d, p, b)
    decreases |p|
  {
    if p == [] {
      assert p + q == q;
      RunsAllDelims(d, q, b);
    } else {
      assert (p + q)[1..] == p[1..] + q;
      RunsTrailingDelims(d, p[1..], q, IsDelim(d, p[0]));
    }
  }

  lemma {:induction false} RunsAllDelims(d: Delims, q: string, b: bool)
    requires AllDelims(d, q)
    ensures Runs(d, q, b) == 0
    decreases |q|
  {
    if q != [] {
      RunsAllDelims(d, q[1..], true);
    }
  }

  lemma {:induction false} NonEmptyPrepend(x: string, xs: seq<string>)
    ensures NonEmpty([x] + xs) == (if x == [] then [] else [x]) + NonEmpty(xs)
  {
    assert ([x] + xs)[1..] == xs;
  }

  /** The pieces of split are in one-to-one correspondence with the runs the
      reference counter counts (empty pieces aside). */
  lemma {:induction false} SplitCountsRuns(d: Delims, s: string)
    ensures |NonEmpty(Split(d, s))| == Runs(d, s, true)
    decreases |s|
  {
    if s == [] {
    } else if IsDelim(d, s[0]) {
      var rest := DropDelims(d, s[1..]);
      SplitCountsRuns(d, rest);
      CountAfterDelims(d, s);
    } else {
      SplitCountsRuns(d, s[1..]);
      CountAfterChar(d, s);
    }
  }

  lemma CountAfterDelims(d: Delims, s: string)
    requires s != [] && IsDelim(d, s[0])
    requires |NonEmpty(Split(d, DropDelims(d, s[1..])))| == Runs(d, DropDelims(d, s[1..]), true)
    ensures |NonEmpty(Split(d, s))| == Runs(d, s, true)
  {
    var rest := DropDelims(d, s[1..]);
    assert Split(d, s) == [""] + Split(d, rest);
    NonEmptyPrepend("", Split(d, rest));
    RunsSkipDelims(d, s[1..]);
  }

  lemma CountAfterChar(d: Delims, s: string)
    requires s != [] && !IsDelim(d, s[0])
    requires |NonEmpty(Split(d, s[1..]))| == Runs(d, s[1..], true)
    ensures |NonEmpty(Split(d, s))| == Runs(d, s, true)
  {
    var t := s[1..];
    var rest := Split(d, t);
    assert Split(d, s) == [[s[0]] + rest[0]] + rest[1..];
    NonEmptyPrepend([s[0]] + rest[0], rest[1..]);
    assert rest == [rest[0]] + rest[1..];
    NonEmptyPrepend(rest[0], rest[1..]);
    RunsStart(d, t);
  }

  /** Whether a word starts at the front of t is all that the flag changes. */
  lemma RunsStart(d: Delims, t: string)
    ensures Runs(d, t, true) == Runs(d, t, false) + (if t != [] && !IsDelim(d, t[0]) then 1 else 0)
  {
  }

  /** Trimming removes no word. */
  lemma {:induction false} RunsTrim(s: string)
    ensures Runs(Whitespace, Trim(s), true) == Runs(Whitespace, s, true)
    decreases |s|
  {
    if s != [] && IsSpace(s[0]) {
      RunsTrim(s[1..]);
    } else if s != [] && IsSpace(s[|s| - 1]) {
      var init := s[..|s| - 1];
      RunsTrim(init);
      assert s == init + [s[|s| - 1]];
      RunsTrailingDelims(Whitespace, init, [s[|s| - 1]], true);
    }
  }

  /** countWords returns the number of maximal runs of non-white-space characters. */
  lemma {:induction false} CountWordsCountsRuns(s: string)
    ensures CountWords(s) == Runs(Whitespace, s, true)
  {
    RunsTrim(s);
    var t := Trim(s);
    if t == [] {
      assert Runs(Whitespace, t, true) == 0;
    } else {
      SplitCountsRuns(Whitespace, t);
    }
  }

  /** Splitting drops the delimiters and nothing else. */
  lemma {:induction false} SplitKeepsCharacters(d: Delims, s: string)
    ensures Concat(Split(d, s)) == Kept(d, s)
    decreases |s|
  {
    if s == [] {
    } else if IsDelim(d, s[0]) {
      var rest := DropDelims(d, s[1..]);
      SplitKeepsCharacters(d, rest);
      KeptDropDelims(d, s[1..]);
      assert ([""] + Split(d, rest))[1..] == Split(d, rest);
    } else {
      var rest := Split(d, s[1..]);
      SplitKeepsCharacters(d, s[1..]);
      var r := [[s[0]] + rest[0]] + rest[1..];
      assert r[1..] == rest[1..];
      assert rest == [rest[0]] + rest[1..];
      assert Concat(rest) == rest[0] + Concat(rest[1..]);
    }
  }

  lemma {:induction false} KeptDropDelims(d: Delims, s: string)
    ensures Kept(d, DropDelims(d, s)) == Kept(d, s)
    decreases |s|
  {
    if s != [] && IsDelim(d, s[0]) {
      KeptDropDelims(d, s[1..]);
    }
  }

  // ---------- what split cuts ----------

  /** The pieces p0, ..., pn with the separators s0, ..., s(n-1) between them:
      p0 + s0 + p1 + ... + pn. */
  function Weave(pieces: seq<string>, seps: seq<string>): string
    requires |pieces| == |seps| + 1
    decreases |seps|
  {
    if seps == [] then pieces[0] else pieces[0] + seps[0] + Weave(pieces[1..], seps[1..])
  }

  /** pieces and seps cut s at its maximal runs of delimiters: no piece holds a
      delimiter, every separator is a non-empty run of delimiters, only the first
      and the last piece may be empty, and woven together they spell s. */
  predicate IsSplitOf(d: Delims, s: string, pieces: seq<string>, seps: seq<string>) {
    && |pieces| == |seps| + 1
    && PiecesOk(d, pieces)
    && SepsOk(d, seps)
    && Weave(pieces, seps) == s
  }

  predicate PiecesOk(d: Delims, pieces: seq<string>) {
    && (forall i :: 0 <= i < |pieces| ==> NoDelims(d, pieces[i]))
    && (forall i :: 0 < i < |pieces| - 1 ==> pieces[i] != [])
  }

  predicate SepsOk(d: Delims, seps: seq<string>) {
    forall j :: 0 <= j < |seps| ==> seps[j] != [] && AllDelims(d, seps[j])
  }

  /** The maximal runs of delimiters of s, in order. */
  function Seps(d: Delims, s: string): (r: seq<string>)
    decreases |s|
  {
    if s == [] then []
    else if IsDelim(d, s[0]) then
      var k := 1 + LeadingDelims(d, s[1..]);
      [s[..k]] + Seps(d, s[k..])
    else Seps(d, s[1..])
  }

  /** split cuts s at its delimiter runs: its pieces and the runs between them
      rebuild s. */
  lemma {:induction false} SplitIsSplitOf(d: Delims, s: string)
    ensures IsSplitOf(d, s, Split(d, s), Seps(d, s))
    decreases |s|
  {
    if s == [] {
    } else if IsDelim(d, s[0]) {
      var k := 1 + LeadingDelims(d, s[1..]);
      SplitIsSplitOf(d, s[k..]);
      UnfoldAtRun(d, s);
      CutAfterRun(d, s, k, Split(d, s[k..]), Seps(d, s[k..]));
    } else {
      SplitIsSplitOf(d, s[1..]);
      CutAfterChar(d, s);
    }
  }

  /** A cut of what follows the leading run of s, with an empty piece and that
      run in front, is a cut of s. */
  lemma CutAfterRun(d: Delims, s: string, k: nat, p: seq<string>, q: seq<string>)
    requires s != [] && IsDelim(d, s[0]) && k == 1 + LeadingDelims(d, s[1..])
    requires IsSplitOf(d, s[k..], p, q)
    ensures IsSplitOf(d, s, [""] + p, [s[..k]] + q)
  {
    LeadingRun(d, s);
    ConsRun(d, s, s[..k], s[k..], p, q);
  }

  lemma UnfoldAtRun(d: Delims, s: string)
    requires s != [] && IsDelim(d, s[0])
    ensures var k := 1 + LeadingDelims(d, s[1..]);
      k <= |s| && Split(d, s) == [""] + Split(d, s[k..]) && Seps(d, s) == [s[..k]] + Seps(d, s[k..])
  {
  }

  /** s starts with a delimiter: its leading run is s[..k], and what follows is
      what split goes on with. */
  lemma LeadingRun(d: Delims, s: string)
    requires s != [] && IsDelim(d, s[0])
    ensures var k := 1 + LeadingDelims(d, s[1..]);
      && k <= |s| && AllDelims(d, s[..k])
      && DropDelims(d, s[1..]) == s[k..]
      && (s[k..] == [] || !IsDelim(d, s[k]))
  {
    var k := 1 + LeadingDelims(d, s[1..]);
    var run := s[..k];
    forall i | 0 <= i < k
      ensures IsDelim(d, run[i])
    {
      if i > 0 {
        assert run[i] == s[1..][i - 1];
      }
    }
  }

  /** A run of delimiters in front of a cut adds an empty first piece. */
  lemma ConsRun(d: Delims, s: string, run: string, t: string, p: seq<string>, q: seq<string>)
    requires IsSplitOf(d, t, p, q)
    requires run != [] && AllDelims(d, run) && s == run + t
    requires t == [] || !IsDelim(d, t[0])
    ensures IsSplitOf(d, s, [""] + p, [run] + q)
  {
    var P, Q := [""] + p, [run] + q;
    assert P[1..] == p && Q[1..] == q;
    assert Weave(P, Q) == run + t;
    assert q != [] ==> IsDelim(d, q[0][0]) && t == p[0] + (q[0] + Weave(p[1..], q[1..]));
    assert forall i :: 0 < i < |P| ==> P[i] == p[i - 1];
    assert forall j :: 0 < j < |Q| ==> Q[j] == q[j - 1];
  }

  lemma CutAfterChar(d: Delims, s: string)
    requires s != [] && !IsDelim(d, s[0])
    requires IsSplitOf(d, s[1..], Split(d, s[1..]), Seps(d, s[1..]))
    ensures IsSplitOf(d, s, Split(d, s), Seps(d, s))
  {
    var t := s[1..];
    assert s == [s[0]] + t;
    ConsChar(d, s[0], t, Split(d, t), Seps(d, t));
  }

  /** A non-delimiter in front of a cut joins its first piece. */
  lemma ConsChar(d: Delims, c: char, t: string, p: seq<string>, q: seq<string>)
    requires IsSplitOf(d, t, p, q)
    requires !IsDelim(d, c)
    ensures IsSplitOf(d, [c] + t, [[c] + p[0]] + p[1..], q)
  {
    var P := [[c] + p[0]] + p[1..];
    WeaveFront(c, p, q);
    assert forall i :: 0 < i < |P| ==> P[i] == p[i];
    assert NoDelims(d, P[0]) by {
      assert forall i :: 0 < i < |P[0]| ==> P[0][i] == p[0][i - 1];
    }
  }

  /** A character put in front of the first piece goes in front of the whole. */
  lemma WeaveFront(c: char, pieces: seq<string>, seps: seq<string>)
    requires |pieces| == |seps| + 1
    ensures Weave([[c] + pieces[0]] + pieces[1..], seps) == [c] + Weave(pieces, seps)
  {
    var front := [[c] + pieces[0]] + pieces[1..];
    assert front[1..] == pieces[1..];
    if seps != [] {
      var w := Weave(pieces[1..], seps[1..]);
      AppendAssoc3(c, pieces[0], seps[0], w);
    }
  }

  lemma AppendAssoc3(c: char, a: string, b: string, w: string)
    ensures [c] + a + b + w == [c] + (a + b + w)
  {
  }

  /** Dropping a run of delimiters stops at the first non-delimiter. */
  lemma {:induction false} DropRun(d: Delims, q: string, w: string)
    requires AllDelims(d, q)
    requires w == [] || !IsDelim(d, w[0])
    ensures DropDelims(d, q + w) == w
    decreases |q|
  {
    if q == [] {
      assert q + w == w;
    } else {
      assert (q + w)[1..] == q[1..] + w;
      DropRun(d, q[1..], w);
    }
  }

  /** The cut is unique: any pieces and separators that cut s at its maximal
      delimiter runs are the pieces split returns. */
  lemma {:induction false} SplitUnique(d: Delims, s: string, pieces: seq<string>, seps: seq<string>)
    requires IsSplitOf(d, s, pieces, seps)
    ensures pieces == Split(d, s)
    decreases |s|
  {
    if seps == [] {
      SplitSingle(d, s);
    } else if pieces[0] == [] {
      var w := Weave(pieces[1..], seps[1..]);
      UncutRun(d, s, pieces, seps);
      SplitUnique(d, w, pieces[1..], seps[1..]);
      assert pieces == [""] + pieces[1..];
    } else {
      var tail := [pieces[0][1..]] + pieces[1..];
      UncutChar(d, s, pieces, seps);
      SplitUnique(d, s[1..], tail, seps);
      assert [[s[0]] + tail[0]] + tail[1..] == pieces;
    }
  }

  /** A cut whose first piece is empty starts with a whole run of delimiters,
      and the rest of the cut cuts what follows that run. */
  lemma UncutRun(d: Delims, s: string, pieces: seq<string>, seps: seq<string>)
    requires IsSplitOf(d, s, pieces, seps) && seps != [] && pieces[0] == []
    ensures var w := Weave(pieces[1..], seps[1..]);
      && IsSplitOf(d, w, pieces[1..], seps[1..])
      && s != [] && IsDelim(d, s[0]) && |w| < |s|
      && Split(d, s) == [""] + Split(d, w)
  {
    var rest, more := pieces[1..], seps[1..];
    var w := Weave(rest, more);
    assert s == seps[0] + w;
    assert forall i :: 0 <= i < |rest| ==> rest[i] == pieces[i + 1];
    assert forall j :: 0 <= j < |more| ==> more[j] == seps[j + 1];
    assert more != [] ==> rest[0] == pieces[1] != [] && w == rest[0] + (more[0] + Weave(rest[1..], more[1..]));
    var q := seps[0][1..];
    assert s[1..] == q + w;
    DropRun(d, q, w);
  }

  /** A cut whose first piece is not empty: without the first character, the
      shortened first piece and the rest cut s[1..]. */
  lemma UncutChar(d: Delims, s: string, pieces: seq<string>, seps: seq<string>)
    requires IsSplitOf(d, s, pieces, seps) && seps != [] && pieces[0] != []
    ensures var tail := [pieces[0][1..]] + pieces[1..];
      && s != [] && s[0] == pieces[0][0] && !IsDelim(d, s[0])
      && IsSplitOf(d, s[1..], tail, seps)
      && [[s[0]] + tail[0]] + tail[1..] == pieces
  {
    var c := pieces[0][0];
    var first := pieces[0][1..];
    var tail := [first] + pieces[1..];
    assert [c] + first == pieces[0];
    assert tail[1..] == pieces[1..];
    assert [[c] + tail[0]] + tail[1..] == pieces;
    WeaveFront(c, tail, seps);
    assert s == [c] + s[1..];
    assert forall i :: 0 < i < |tail| ==> tail[i] == pieces[i];
    assert NoDelims(d, first) by {
      assert forall i :: 0 <= i < |first| ==> first[i] == pieces[0][i + 1];
    }
  }

  // ---------- list normalisation ----------

  const ListCap := 25

  /** An item normalizeList can return: non-empty, trimmed, free of ',' and '\n'. */
  predicate IsListItem(x: string) {
    x != [] && IsTrimmed(x) && NoDelims(CommaOrNewline, x)
  }

  /** normalizeList: split on runs of commas and newlines, trim, drop empties,
      keep the first 25. */
  function NormalizeList(raw: string): (r: seq<string>)
    ensures |r| <= ListCap
    ensures forall i :: 0 <= i < |r| ==> IsListItem(r[i])
    ensures raw == [] ==> r == []
  {
    if raw == [] then []
    else
      var pieces := Split(CommaOrNewline, raw);
      var items := NonEmpty(TrimAll(pieces));
      ItemsAreListItems(pieces);
      SliceTo(items, ListCap)
  }

  /** normalizeList returns the first 25 of the trimmed, non-empty fields of raw,
      in order, whatever cut of raw at its comma and newline runs is taken. */
  lemma NormalizeListFields(raw: string, pieces: seq<string>, seps: seq<string>)
    requires IsSplitOf(CommaOrNewline, raw, pieces, seps)
    ensures NormalizeList(raw) == SliceTo(NonEmpty(TrimAll(pieces)), ListCap)
  {
    SplitUnique(CommaOrNewline, raw, pieces, seps);
    if raw == [] {
      assert TrimAll(pieces) == [""];
    }
  }

  lemma ItemsAreListItems(pieces: seq<string>)
    requires forall i :: 0 <= i < |pieces| ==> NoDelims(CommaOrNewline, pieces[i])
    ensures forall i :: 0 <= i < |NonEmpty(TrimAll(pieces))| ==> IsListItem(NonEmpty(TrimAll(pieces))[i])
  {
    var trimmed := TrimAll(pieces);
    forall i | 0 <= i < |NonEmpty(trimmed)| ensures IsListItem(NonEmpty(trimmed)[i]) {
      var k :| 0 <= k < |trimmed| && trimmed[k] == NonEmpty(trimmed)[i];
      assert NoDelims(CommaOrNewline, pieces[k]);
    }
  }

  lemma {:induction false} SplitSingle(d: Delims, x: string)
    requires NoDelims(d, x)
    ensures Split(d, x) == [x]
    decreases |x|
  {
    if x != [] {
      SplitSingle(d, x[1..]);
      assert [x[0]] + x[1..] == x;
    }
  }

  /** Array.prototype.join with a separator of delimiters, undone by split: the
      items come back when none is empty and none holds a delimiter. */
  lemma SplitJoin(d: Delims, items: seq<string>, sep: string)
    requires |items| >= 1
    requires forall i :: 0 <= i < |items| ==> items[i] != [] && NoDelims(d, items[i])
    requires sep != [] && AllDelims(d, sep)
    ensures Split(d, Join(items, sep)) == items
  {
    var seps := seq(|items| - 1, _ => sep);
    JoinWeave(items, sep);
    SplitUnique(d, Join(items, sep), items, seps);
  }

  lemma {:induction false} JoinWeave(items: seq<string>, sep: string)
    requires |items| >= 1
    ensures Join(items, sep) == Weave(items, seq(|items| - 1, _ => sep))
    decreases |items|
  {
    if |items| > 1 {
      JoinWeave(items[1..], sep);
      var seps := seq(|items| - 1, _ => sep);
      assert seps[1..] == seq(|items| - 2, _ => sep);
    }
  }

  lemma {:induction false} JoinStart(items: seq<string>)
    requires |items| >= 1 && items[0] != []
    ensures Join(items, ",") != [] && Join(items, ",")[0] == items[0][0]
  {
  }

  lemma {:induction false} NormalizedUnchanged(items: seq<string>)
    requires forall i :: 0 <= i < |items| ==> IsListItem(items[i])
    ensures NonEmpty(TrimAll(items)) == items
    decreases |items|
  {
    if items != [] {
      NormalizedUnchanged(items[1..]);
      assert TrimAll(items) == [items[0]] + TrimAll(items[1..]);
      NonEmptyPrepend(items[0], TrimAll(items[1..]));
      assert [items[0]] + items[1..] == items;
    }
  }

  /** Round trip: a list of at most 25 normalised items, joined with commas,
      normalises back to itself. */
  lemma {:induction false} NormalizeListRoundTrip(items: seq<string>)
    requires |items| <= ListCap
    requires forall i :: 0 <= i < |items| ==> IsListItem(items[i])
    ensures NormalizeList(Join(items, ",")) == items
  {
    var joined := Join(items, ",");
    if items != [] {
      JoinStart(items);
      SplitJoin(CommaOrNewline, items, ",");
      NormalizedUnchanged(items);
      var cleaned := NonEmpty(TrimAll(Split(CommaOrNewline, joined)));
      assert cleaned == items;
      assert NormalizeList(joined) == SliceTo(cleaned, ListCap);
    }
  }
}
