/** String helpers shared by the document stores and the chunk packer:
    the sentence pattern `/[^.!?]+[.!?]+/g` as an explicit scanner,
    JavaScript's `String.prototype.trim`, and `Array.prototype.join`. */
module Text {

  /** The characters of the class `[.!?]`. */
  predicate IsTerminator(c: char)
  {
    c == '.' || c == '!' || c == '?'
  }

  /** The characters `String.prototype.trim` removes: ECMAScript WhiteSpace
      (tab, vertical tab, form feed, space, no-break space, byte order mark
      and the space separators of category Zs) and LineTerminator. */
  predicate IsWhitespace(c: char)
  {
    || c == '\t' || c == '\U{B}' || c == '\U{C}' || c == ' '
    || c == '\U{A0}' || c == '\U{FEFF}' || c == '\U{1680}'
    || ('\U{2000}' <= c <= '\U{200A}') || c == '\U{202F}' || c == '\U{205F}' || c == '\U{3000}'
    || c == '\n' || c == '\r' || c == '\U{2028}' || c == '\U{2029}'
  }

  ghost predicate AllTerminators(s: string)
  {
    forall k :: 0 <= k < |s| ==> IsTerminator(s[k])
  }

  ghost predicate NoTerminators(s: string)
  {
    forall k :: 0 <= k < |s| ==> !IsTerminator(s[k])
  }

  ghost predicate AllWhitespace(s: string)
  {
    forall k :: 0 <= k < |s| ==> IsWhitespace(s[k])
  }

  /** One match of `[^.!?]+[.!?]+`: a non-empty run of non-terminators
      followed by a non-empty run of terminators. */
  ghost predicate IsSentence(x: string)
  {
    && |x| >= 2
    && !IsTerminator(x[0])
    && IsTerminator(x[|x| - 1])
    && forall i, j :: 0 <= i < j < |x| && IsTerminator(x[i]) ==> IsTerminator(x[j])
  }

  /** Length of the longest prefix of `s` whose characters are all
      terminators (`term`) or all non-terminators (`!term`). */
  function RunLength(s: string, term: bool): (n: nat)
    ensures n <= |s|
  {
    if s == [] || IsTerminator(s[0]) != term then 0 else 1 + RunLength(s[1..], term)
  }

  /** The run is uniform and maximal. */
  lemma {:induction false} RunLengthMaximal(s: string, term: bool)
    ensures forall k :: 0 <= k < RunLength(s, term) ==> IsTerminator(s[k]) == term
    ensures RunLength(s, term) < |s| ==> IsTerminator(s[RunLength(s, term)]) != term
    decreases |s|
  {
    if s != [] && IsTerminator(s[0]) == term {
      RunLengthMaximal(s[1..], term);
      assert forall k :: 1 <= k < |s| ==> s[k] == s[1..][k - 1];
    }
  }

  /** The matches of `/[^.!?]+[.!?]+/g` in `s`, left to right: terminators
      where no match can start are skipped, a maximal run of
      non-terminators is followed by its maximal run of terminators, and a
      run of non-terminators that reaches the end of `s` is no match. */
  function Sentences(s: string): (r: seq<string>)
    decreases |s|
  {
    if s == [] then []
    else if IsTerminator(s[0]) then Sentences(s[1..])
    else if RunLength(s, false) == |s| then []
    else [s[..SpanEnd(s)]] + Sentences(s[SpanEnd(s)..])
  }

  /** Where the scanner's span from a non-terminator ends: after its run of
      non-terminators and the run of terminators that follows. */
  function SpanEnd(s: string): (m: nat)
    ensures m <= |s|
  {
    RunLength(s, false) + RunLength(s[RunLength(s, false)..], true)
  }

  /** `s.match(/[^.!?]+[.!?]+/g) || [s]`: the whole text when nothing matches. */
  function SentenceSplit(s: string): (r: seq<string>)
    ensures |r| >= 1
    ensures Sentences(s) == [] ==> r == [s]
    ensures Sentences(s) != [] ==> r == Sentences(s)
  {
    var found := Sentences(s);
    if found == [] then [s] else found
  }

  /** The concatenation of a sequence of strings. */
  function Concat(xs: seq<string>): (r: string)
  {
    if xs == [] then [] else xs[0] + Concat(xs[1..])
  }

  ghost predicate AllSentences(xs: seq<string>)
  {
    forall k :: 0 <= k < |xs| ==> IsSentence(xs[k])
  }

  /** `s` is `s[..i]`, all terminators, then the sentences `xs`, ending at
      `j`, then `s[j..]`, which holds no terminator. */
  ghost predicate DecomposesAt(s: string, xs: seq<string>, i: int, j: int)
  {
    && 0 <= i <= j <= |s|
    && AllSentences(xs)
    && AllTerminators(s[..i])
    && s[i..j] == Concat(xs)
    && NoTerminators(s[j..])
  }

  /** `s` splits into leading terminators, the sentences `xs` and a tail
      without terminators: the shape of a global match of the pattern. */
  ghost predicate Decomposes(s: string, xs: seq<string>)
  {
    exists i, j :: DecomposesAt(s, xs, i, j)
  }

  lemma {:induction false} ConcatAppend(xs: seq<string>, ys: seq<string>)
    ensures Concat(xs + ys) == Concat(xs) + Concat(ys)
    decreases |xs|
  {
    if xs == [] {
      assert xs + ys == ys;
    } else {
      assert (xs + ys)[1..] == xs[1..] + ys;
      ConcatAppend(xs[1..], ys);
    }
  }

  lemma ConcatCons(xs: seq<string>)
    requires xs != []
    ensures Concat(xs) == xs[0] + Concat(xs[1..])
  {
  }

  /** A leading terminator extends the skipped prefix by one. */
  lemma SkipTerminator(s: string, xs: seq<string>, i: int, j: int)
    requires s != [] && IsTerminator(s[0])
    requires DecomposesAt(s[1..], xs, i, j)
    ensures DecomposesAt(s, xs, i + 1, j + 1)
  {
    var t := s[1..];
    var p := s[..i + 1];
    forall k | 0 <= k < |p| ensures IsTerminator(p[k]) {
      if k > 0 { assert p[k] == t[..i][k - 1]; }
    }
    SliceOfTail(s, i, j);
  }

  /** Slices of `s[1..]` are slices of `s` one position further on. */
  lemma SliceOfTail(s: string, a: int, b: int)
    requires s != [] && 0 <= a <= b <= |s| - 1
    ensures s[1..][a..b] == s[a + 1..b + 1] && s[1..][b..] == s[b + 1..]
  {
    var t := s[1..];
    assert forall k :: 0 <= k < b - a ==> t[a..b][k] == t[a + k] == s[a + 1 + k] == s[a + 1..b + 1][k];
    assert forall k :: 0 <= k < |s| - 1 - b ==> t[b..][k] == t[b + k] == s[b + 1 + k] == s[b + 1..][k];
  }

  /** Conversely, a non-empty skipped prefix can lose its first terminator. */
  lemma UnskipTerminator(s: string, xs: seq<string>, i: int, j: int)
    requires DecomposesAt(s, xs, i, j) && i > 0
    ensures IsTerminator(s[0])
    ensures DecomposesAt(s[1..], xs, i - 1, j - 1)
  {
    var t := s[1..];
    assert s[..i][0] == s[0];
    assert t[..i - 1] == s[..i][1..];
    assert t[i - 1..j - 1] == s[i..j];
    assert t[j - 1..] == s[j..];
  }

  /** A sentence put in front of a decomposition that skips nothing. */
  lemma PrependSentence(s: string, m: int, xs: seq<string>, j: int)
    requires 0 < m <= |s| && IsSentence(s[..m])
    requires DecomposesAt(s[m..], xs, 0, j)
    ensures DecomposesAt(s, [s[..m]] + xs, 0, m + j)
  {
    var x := s[..m];
    var rest := s[m..];
    assert ([x] + xs)[1..] == xs;
    ConcatCons([x] + xs);
    assert s[0..m + j] == x + rest[0..j];
    assert s[m + j..] == rest[j..];
    assert s[..0] == [];
    forall k | 0 <= k < |[x] + xs| ensures IsSentence(([x] + xs)[k]) {
      if k > 0 { assert ([x] + xs)[k] == xs[k - 1]; }
    }
  }

  /** When nothing is skipped, what follows is either a sentence or the tail,
      so it does not start with a terminator. */
  lemma NoLeadingTerminator(s: string, xs: seq<string>, j: int)
    requires DecomposesAt(s, xs, 0, j) && s != []
    ensures !IsTerminator(s[0])
  {
    if xs != [] {
      ConcatCons(xs);
      assert IsSentence(xs[0]);
      assert s[0..j][0] == xs[0][0];
    } else {
      assert s[j..][0] == s[0];
    }
  }

  /** A decomposition that skips something starts at a terminator. */
  lemma SkippedStartsWithTerminator(s: string, xs: seq<string>, i: int, j: int)
    requires DecomposesAt(s, xs, i, j)
    ensures i > 0 ==> IsTerminator(s[0])
  {
    if i > 0 { assert s[..i][0] == s[0]; }
  }

  /** A run of non-terminators followed by a run of terminators is a
      sentence. */
  lemma SentenceOfRuns(a: string, b: string)
    requires a != [] && b != [] && NoTerminators(a) && AllTerminators(b)
    ensures IsSentence(a + b)
  {
    var x := a + b;
    assert forall i :: 0 <= i < |x| ==> (IsTerminator(x[i]) <==> i >= |a|);
  }

  /** A run of terminators that starts at position `n` of `s`, in terms of
      the positions of `s`. */
  lemma TerminatorRunAt(s: string, n: int)
    requires 0 <= n <= |s|
    ensures forall k :: n <= k < n + RunLength(s[n..], true) ==> IsTerminator(s[k])
    ensures n + RunLength(s[n..], true) < |s| ==> !IsTerminator(s[n + RunLength(s[n..], true)])
    ensures n < |s| && IsTerminator(s[n]) ==> RunLength(s[n..], true) > 0
  {
    var t := s[n..];
    RunLengthMaximal(t, true);
    assert forall k :: n <= k < |s| ==> s[k] == t[k - n];
  }

  /** Non-terminators up to `n` and terminators from `n` to `m` make the
      prefix of length `m` a sentence. */
  lemma PrefixIsSentence(s: string, n: int, m: int)
    requires 0 < n < m <= |s|
    requires forall k :: 0 <= k < n ==> !IsTerminator(s[k])
    requires forall k :: n <= k < m ==> IsTerminator(s[k])
    ensures IsSentence(s[..m])
  {
    var x := s[..m];
    assert forall k :: 0 <= k < m ==> x[k] == s[k];
  }

  /** The scanner's span at a non-terminator is a sentence, and the scan
      resumes at a non-terminator. */
  lemma ScannedSentence(s: string)
    requires s != [] && !IsTerminator(s[0]) && RunLength(s, false) < |s|
    ensures IsSentence(s[..SpanEnd(s)]) && (SpanEnd(s) < |s| ==> !IsTerminator(s[SpanEnd(s)]))
  {
    var n := RunLength(s, false);
    RunLengthMaximal(s, false);
    TerminatorRunAt(s, n);
    PrefixIsSentence(s, n, SpanEnd(s));
  }

  /** What the scanner returns is a global match, with the positions at
      which the sentences start and end. */
  lemma {:induction false} SentencesDecomposeAt(s: string) returns (i: int, j: int)
    ensures DecomposesAt(s, Sentences(s), i, j)
    decreases |s|
  {
    if s == [] {
      i, j := 0, 0;
    } else if IsTerminator(s[0]) {
      var i', j' := SentencesDecomposeAt(s[1..]);
      SkipTerminator(s, Sentences(s[1..]), i', j');
      i, j := i' + 1, j' + 1;
    } else if RunLength(s, false) == |s| {
      i, j := 0, 0;
      TailDecomposes(s);
    } else {
      var m := SpanEnd(s);
      var i', j' := SentencesDecomposeAt(s[m..]);
      SentenceThenDecomposition(s, m, i', j');
      i, j := 0, m + j';
    }
  }

  /** Text made of one run of non-terminators is all tail. */
  lemma TailDecomposes(s: string)
    requires s != [] && !IsTerminator(s[0]) && RunLength(s, false) == |s|
    ensures DecomposesAt(s, Sentences(s), 0, 0)
  {
    RunLengthMaximal(s, false);
    assert s[0..] == s;
  }

  /** The scanner's first span followed by a decomposition of the rest. */
  lemma SentenceThenDecomposition(s: string, m: int, i: int, j: int)
    requires s != [] && !IsTerminator(s[0]) && RunLength(s, false) < |s|
    requires SpanEnd(s) == m
    requires DecomposesAt(s[m..], Sentences(s[m..]), i, j)
    ensures DecomposesAt(s, Sentences(s), 0, m + j)
  {
    ScannedSentence(s);
    SentencesStep(s, m);
    var xs := Sentences(s[m..]);
    SkippedStartsWithTerminator(s[m..], xs, i, j);
    assert i == 0;
    PrependSentence(s, m, xs, j);
  }

  /** The first sentence of a decomposition that skips nothing is a prefix
      of `s`, and the rest of `s` decomposes into the other sentences. */
  lemma SentenceOpens(s: string, xs: seq<string>, j: int)
    requires DecomposesAt(s, xs, 0, j) && xs != []
    ensures IsSentence(xs[0]) && |xs[0]| <= j && s[..|xs[0]|] == xs[0]
    ensures DecomposesAt(s[|xs[0]|..], xs[1..], 0, j - |xs[0]|)
  {
    var x := xs[0];
    ConcatCons(xs);
    assert IsSentence(x);
    assert s[0..j] == x + Concat(xs[1..]);
    assert s[..|x|] == s[0..j][..|x|];
    var rest := s[|x|..];
    assert rest[0..j - |x|] == s[|x|..j];
    assert s[|x|..j] == s[0..j][|x|..];
    assert rest[j - |x|..] == s[j..];
    assert rest[..0] == [];
    forall k | 0 <= k < |xs[1..]| ensures IsSentence(xs[1..][k]) {
      assert xs[1..][k] == xs[k + 1];
    }
  }

  /** A run length is determined by where the run stops. */
  lemma RunLengthAt(s: string, term: bool, k: nat)
    requires k <= |s|
    requires forall i :: 0 <= i < k ==> IsTerminator(s[i]) == term
    requires k < |s| ==> IsTerminator(s[k]) != term
    ensures RunLength(s, term) == k
  {
    RunLengthMaximal(s, term);
  }

  /** A sentence at the start of `s` that is not followed by a terminator
      is exactly the scanner's two runs. */
  lemma RunsOfSentence(s: string, x: string)
    requires IsSentence(x) && |x| <= |s| && s[..|x|] == x
    requires |x| < |s| ==> !IsTerminator(s[|x|])
    ensures RunLength(s, false) < |s|
    ensures SpanEnd(s) == |x|
  {
    var p := RunLength(x, false);
    RunLengthMaximal(x, false);
    assert forall k :: 0 <= k < |x| ==> s[k] == x[k];
    RunLengthAt(s, false, p);
    var t := s[p..];
    assert forall k :: 0 <= k < |x| - p ==> t[k] == x[p + k] && IsTerminator(x[p + k]);
    assert |x| - p < |t| ==> t[|x| - p] == s[|x|];
    RunLengthAt(t, true, |x| - p);
  }

  /** One step of the scanner at a non-terminator whose runs end at `m`. */
  lemma SentencesStep(s: string, m: int)
    requires s != [] && !IsTerminator(s[0]) && RunLength(s, false) < |s|
    requires SpanEnd(s) == m
    ensures Sentences(s) == [s[..m]] + Sentences(s[m..])
  {
  }

  /** Text without terminators holds no sentence. */
  lemma SentencesNone(s: string)
    requires NoTerminators(s)
    ensures Sentences(s) == []
  {
    if s != [] { RunLengthAt(s, false, |s|); }
  }

  /** A sentence that opens a decomposition is the scanner's first span. */
  lemma FirstSentenceScanned(s: string, xs: seq<string>, j: int)
    requires DecomposesAt(s, xs, 0, j) && xs != []
    ensures Sentences(s) == [xs[0]] + Sentences(s[|xs[0]|..])
    ensures DecomposesAt(s[|xs[0]|..], xs[1..], 0, j - |xs[0]|)
  {
    SentenceOpens(s, xs, j);
    var x := xs[0];
    var rest := s[|x|..];
    assert s[..|x|][0] == s[0];
    if rest != [] {
      NoLeadingTerminator(rest, xs[1..], j - |x|);
      assert rest[0] == s[|x|];
    }
    RunsOfSentence(s, x);
    SentencesStep(s, |x|);
  }

  /** A global match is unique: any decomposition of `s` into leading
      terminators, sentences and a terminator-free tail is the scanner's. */
  lemma {:induction false} DecompositionUnique(s: string, xs: seq<string>, i: int, j: int)
    requires DecomposesAt(s, xs, i, j)
    ensures xs == Sentences(s)
    decreases |s|
  {
    if i > 0 {
      UnskipTerminator(s, xs, i, j);
      DecompositionUnique(s[1..], xs, i - 1, j - 1);
    } else if xs == [] {
      assert s[j..] == s;
      SentencesNone(s);
    } else {
      FirstSentenceScanned(s, xs, j);
      DecompositionUnique(s[|xs[0]|..], xs[1..], 0, j - |xs[0]|);
      assert xs == [xs[0]] + xs[1..];
    }
  }

  /** The scanner is exactly the global match: `xs` is what it returns
      for `s` if and only if `xs` decomposes `s` into leading terminators,
      sentences and a terminator-free tail. */
  lemma SentencesCharacterised(s: string, xs: seq<string>)
    ensures Sentences(s) == xs <==> Decomposes(s, xs)
  {
    var i, j := SentencesDecomposeAt(s);
    if Decomposes(s, xs) {
      var i', j' :| DecomposesAt(s, xs, i', j');
      DecompositionUnique(s, xs, i', j');
    }
  }

  /** `s.trimStart()`. */
  function TrimStart(s: string): (r: string)
    ensures |r| <= |s|
  {
    if s != [] && IsWhitespace(s[0]) then TrimStart(s[1..]) else s
  }

  /** `s.trimEnd()`. */
  function TrimEnd(s: string): (r: string)
    ensures |r| <= |s|
  {
    if s != [] && IsWhitespace(s[|s| - 1]) then TrimEnd(s[..|s| - 1]) else s
  }

  /** `s.trim()`. */
  function Trim(s: string): string
  {
    TrimEnd(TrimStart(s))
  }

  /** `trimStart` removes exactly the leading whitespace. */
  lemma {:induction false} TrimStartRemovesLeadingSpace(s: string)
    ensures TrimStart(s) == s[|s| - |TrimStart(s)|..]
    ensures AllWhitespace(s[..|s| - |TrimStart(s)|])
    ensures TrimStart(s) == [] || !IsWhitespace(TrimStart(s)[0])
    decreases |s|
  {
    if s != [] && IsWhitespace(s[0]) {
      TrimStartRemovesLeadingSpace(s[1..]);
      var k := |s| - |TrimStart(s)|;
      assert s[..k] == [s[0]] + s[1..][..k - 1];
    }
  }

  /** `trimEnd` removes exactly the trailing whitespace. */
  lemma {:induction false} TrimEndRemovesTrailingSpace(s: string)
    ensures TrimEnd(s) == s[..|TrimEnd(s)|]
    ensures AllWhitespace(s[|TrimEnd(s)|..])
    ensures TrimEnd(s) == [] || !IsWhitespace(TrimEnd(s)[|TrimEnd(s)| - 1])
    decreases |s|
  {
    if s != [] && IsWhitespace(s[|s| - 1]) {
      var t := s[..|s| - 1];
      TrimEndRemovesTrailingSpace(t);
      var k := |TrimEnd(s)|;
      assert s[k..] == t[k..] + [s[|s| - 1]];
      assert t[..k] == s[..k];
    }
  }

  /** `s.trim()` is the infix of `s` left after removing whitespace at both
      ends, and it neither starts nor ends with whitespace. */
  lemma TrimIsInfix(s: string)
    ensures exists i, j :: 0 <= i <= j <= |s| && Trim(s) == s[i..j] && AllWhitespace(s[..i]) && AllWhitespace(s[j..])
    ensures Trim(s) == [] || (!IsWhitespace(Trim(s)[0]) && !IsWhitespace(Trim(s)[|Trim(s)| - 1]))
  {
    var t := TrimStart(s);
    TrimStartRemovesLeadingSpace(s);
    TrimEndRemovesTrailingSpace(t);
    var r := TrimEnd(t);
    var i := |s| - |t|;
    assert r == s[i..i + |r|];
    assert s[i + |r|..] == t[|r|..];
    if r != [] {
      assert r[0] == t[0];
    }
  }

  /** Text with no whitespace at either end is its own trim. */
  lemma TrimClean(s: string)
    requires s == [] || (!IsWhitespace(s[0]) && !IsWhitespace(s[|s| - 1]))
    ensures Trim(s) == s
  {
    assert TrimStart(s) == s;
  }

  /** Leading whitespace does not survive a trim. */
  lemma TrimLeadingSpace(s: string)
    requires s != [] && IsWhitespace(s[0])
    ensures Trim(s) == Trim(s[1..])
  {
    assert TrimStart(s) == TrimStart(s[1..]);
  }

  /** Trimming twice is trimming once. */
  lemma TrimIdempotent(s: string)
    ensures Trim(Trim(s)) == Trim(s)
  {
    TrimIsInfix(s);
    TrimClean(Trim(s));
  }

  /** `xs.join(sep)`. */
  function Join(xs: seq<string>, sep: string): (r: string)
  {
    if xs == [] then []
    else if |xs| == 1 then xs[0]
    else xs[0] + sep + Join(xs[1..], sep)
  }

  /** Joining two non-empty lists is joining each and putting one
      separator between them: every element of `xs` precedes every
      element of `ys` in the result. */
  lemma {:induction false} JoinAppend(xs: seq<string>, ys: seq<string>, sep: string)
    requires xs != [] && ys != []
    ensures Join(xs + ys, sep) == Join(xs, sep) + sep + Join(ys, sep)
    decreases |xs|
  {
    if |xs| == 1 {
      assert (xs + ys)[1..] == ys;
    } else {
      assert (xs + ys)[1..] == xs[1..] + ys;
      JoinAppend(xs[1..], ys, sep);
    }
  }

  /** With at least two elements, the joined string holds the separator
      right after the first element. */
  lemma JoinHoldsSeparator(xs: seq<string>, sep: string)
    requires |xs| >= 2
    ensures Join(xs, sep)[|xs[0]|..|xs[0]| + |sep|] == sep
  {
    assert Join(xs, sep) == (xs[0] + sep) + Join(xs[1..], sep);
  }

  /** The character of decimal digit `d`. */
  function DigitChar(d: nat): char
    requires d < 10
  {
    (48 + d) as char
  }

  /** `String(n)` for a non-negative integer: its decimal digits, most
      significant first, with no leading zero. */
  function NatToString(n: nat): (r: string)
    ensures |r| >= 1
    ensures r[0] == '0' ==> n == 0
    decreases n
  {
    if n < 10 then [DigitChar(n)] else NatToString(n / 10) + [DigitChar(n % 10)]
  }

  /** The value of a string of decimal digits, read most significant first. */
  function ParseDecimal(s: string): int
  {
    if s == [] then 0 else ParseDecimal(s[..|s| - 1]) * 10 + (s[|s| - 1] as int - 48)
  }

  /** Reading back the digits of `n` gives `n`. */
  lemma {:induction false} ParseNatToString(n: nat)
    ensures ParseDecimal(NatToString(n)) == n
    decreases n
  {
    if n >= 10 {
      var s := NatToString(n);
      assert s[..|s| - 1] == NatToString(n / 10);
      ParseNatToString(n / 10);
    }
  }

  /** Different numbers have different decimal texts. */
  lemma NatToStringInjective(a: nat, b: nat)
    ensures NatToString(a) == NatToString(b) ==> a == b
  {
    ParseNatToString(a);
    ParseNatToString(b);
  }
}
