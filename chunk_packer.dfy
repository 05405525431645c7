/** The browser-side chunker `splitIntoChunks`: the text is cut into
    sentences with the same pattern as the server store, and consecutive
    sentences are packed greedily into chunks of at most `chunkSize`
    characters. */
module ChunkPacker {
  import opened Text

  /** The default of `splitIntoChunks`' `chunkSize` parameter. */
  const DefaultChunkSize := 500

  /** The sentences of the groups, in order. */
  function Flatten(groups: seq<seq<string>>): (r: seq<string>)
  {
    if groups == [] then [] else groups[0] + Flatten(groups[1..])
  }

  /** A group either holds one sentence (of any length) or holds sentences
      whose untrimmed concatenation fits in `size`. */
  ghost predicate Fits(group: seq<string>, size: int)
  {
    |group| == 1 || |Concat(group)| <= size
  }

  /** `groups` cut `sentences` into consecutive non-empty runs that fit,
      and each run ends only because its successor's first sentence would
      not have fitted: the partition the greedy loop builds. */
  ghost predicate GreedyPartition(sentences: seq<string>, groups: seq<seq<string>>, size: int)
  {
    && Flatten(groups) == sentences
    && (forall k :: 0 <= k < |groups| ==> groups[k] != [] && Fits(groups[k], size))
    && (forall k :: 0 <= k < |groups| - 1 ==> |Concat(groups[k])| + |groups[k + 1][0]| > size)
  }

  /** The chunks pushed for `groups`: each group's text, trimmed. */
  function TrimmedChunks(groups: seq<seq<string>>): (r: seq<string>)
    ensures |r| == |groups|
  {
    seq(|groups|, k requires 0 <= k < |groups| => Trim(Concat(groups[k])))
  }

  /** Every sentence of a non-empty text is non-empty: a match of the
      pattern is, and so is the whole text when nothing matches. */
  lemma SentencesNonEmpty(text: string)
    requires text != ""
    ensures forall k :: 0 <= k < |SentenceSplit(text)| ==> SentenceSplit(text)[k] != ""
  {
    var i, j := SentencesDecomposeAt(text);
    forall k | 0 <= k < |Sentences(text)| ensures Sentences(text)[k] != "" {
      assert IsSentence(Sentences(text)[k]);
    }
  }

  lemma {:induction false} FlattenAppend(groups: seq<seq<string>>, g: seq<string>)
    ensures Flatten(groups + [g]) == Flatten(groups) + g
    decreases |groups|
  {
    if groups == [] {
      assert [] + [g] == [g];
    } else {
      assert (groups + [g])[1..] == groups[1..] + [g];
      FlattenAppend(groups[1..], g);
    }
  }

  /** The state of the packing loop after `i` sentences: the closed
      `groups` and the `open` group (the sentences of `currentChunk`)
      together hold the first `i` sentences, every group fits, each closed
      group was closed by the overflow of its successor's first sentence,
      and the open group is empty only before the first sentence. */
  ghost predicate Packing(sentences: seq<string>, i: int, groups: seq<seq<string>>, open: seq<string>, size: int)
  {
    && 0 <= i <= |sentences|
    && (forall k :: 0 <= k < |sentences| ==> sentences[k] != "")
    && Flatten(groups) + open == sentences[..i]
    && (open == [] <==> i == 0)
    && (open != [] ==> Fits(open, size))
    && (forall k :: 0 <= k < |groups| ==> groups[k] != [] && Fits(groups[k], size))
    && (forall k :: 0 <= k < |groups| - 1 ==> |Concat(groups[k])| + |groups[k + 1][0]| > size)
    && (groups != [] && open != [] ==> |Concat(groups[|groups| - 1])| + |open[0]| > size)
  }

  lemma ConcatOfOne(s: string)
    ensures Concat([s]) == s
  {
  }

  /** The open group is empty exactly when its text is. */
  lemma OpenTextEmpty(sentences: seq<string>, i: int, groups: seq<seq<string>>, open: seq<string>, size: int)
    requires Packing(sentences, i, groups, open, size)
    ensures Concat(open) == "" <==> open == []
  {
    if open != [] {
      assert open[0] == (Flatten(groups) + open)[|Flatten(groups)|];
      assert open[0] != "";
      assert Concat(open) == open[0] + Concat(open[1..]);
    }
  }

  /** The next sentence fits: it joins the open group. */
  lemma PackingExtend(sentences: seq<string>, i: int, groups: seq<seq<string>>, open: seq<string>, size: int)
    requires Packing(sentences, i, groups, open, size) && i < |sentences|
    requires |Concat(open)| + |sentences[i]| <= size
    ensures Packing(sentences, i + 1, groups, open + [sentences[i]], size)
    ensures Concat(open + [sentences[i]]) == Concat(open) + sentences[i]
  {
    var s := sentences[i];
    var open' := open + [s];
    ConcatAppend(open, [s]);
    ConcatOfOne(s);
    assert Fits(open', size);
    assert sentences[..i + 1] == sentences[..i] + [s];
    assert Flatten(groups) + open' == (Flatten(groups) + open) + [s];
    assert open != [] ==> open'[0] == open[0];
  }

  /** The next sentence overflows: the open group, if any, is closed and
      the sentence opens a new one. */
  lemma PackingClose(sentences: seq<string>, i: int, groups: seq<seq<string>>, open: seq<string>, size: int)
    requires Packing(sentences, i, groups, open, size) && i < |sentences|
    requires |Concat(open)| + |sentences[i]| > size
    ensures open != [] ==> Packing(sentences, i + 1, groups + [open], [sentences[i]], size)
    ensures open == [] ==> Packing(sentences, i + 1, groups, [sentences[i]], size)
  {
    if open != [] {
      CloseOpenGroup(sentences, i, groups, open, size);
    } else {
      FirstSentenceOpens(sentences, groups, size);
    }
  }

  /** Before the first sentence nothing has been closed, and the first
      sentence opens the first group. */
  lemma FirstSentenceOpens(sentences: seq<string>, groups: seq<seq<string>>, size: int)
    requires Packing(sentences, 0, groups, [], size) && 0 < |sentences|
    ensures Packing(sentences, 1, groups, [sentences[0]], size)
  {
    assert groups == [];
    assert sentences[..1] == [sentences[0]];
  }

  lemma CloseOpenGroup(sentences: seq<string>, i: int, groups: seq<seq<string>>, open: seq<string>, size: int)
    requires Packing(sentences, i, groups, open, size) && i < |sentences| && open != []
    requires |Concat(open)| + |sentences[i]| > size
    ensures Packing(sentences, i + 1, groups + [open], [sentences[i]], size)
  {
    FlattenClose(groups, open, sentences, i);
    GroupsFitAppend(groups, open, groups + [open], size);
    GroupsOverflowAppend(groups, open, groups + [open], size);
  }

  lemma FlattenClose(groups: seq<seq<string>>, open: seq<string>, sentences: seq<string>, i: int)
    requires 0 <= i < |sentences| && Flatten(groups) + open == sentences[..i]
    ensures Flatten(groups + [open]) + [sentences[i]] == sentences[..i + 1]
  {
    FlattenAppend(groups, open);
    assert sentences[..i + 1] == sentences[..i] + [sentences[i]];
  }

  lemma GroupsFitAppend(groups: seq<seq<string>>, g: seq<string>, gs: seq<seq<string>>, size: int)
    requires forall k :: 0 <= k < |groups| ==> groups[k] != [] && Fits(groups[k], size)
    requires g != [] && Fits(g, size) && gs == groups + [g]
    ensures forall k :: 0 <= k < |gs| ==> gs[k] != [] && Fits(gs[k], size)
  {
    forall k | 0 <= k < |gs|
      ensures gs[k] != [] && Fits(gs[k], size)
    {
      if k < |groups| { assert gs[k] == groups[k]; }
    }
  }

  lemma GroupsOverflowAppend(groups: seq<seq<string>>, g: seq<string>, gs: seq<seq<string>>, size: int)
    requires forall k :: 0 <= k < |groups| ==> groups[k] != []
    requires g != [] && gs == groups + [g]
    requires forall k :: 0 <= k < |groups| - 1 ==> |Concat(groups[k])| + |groups[k + 1][0]| > size
    requires groups != [] ==> |Concat(groups[|groups| - 1])| + |g[0]| > size
    ensures forall k :: 0 <= k < |gs| ==> gs[k] != []
    ensures forall k :: 0 <= k < |gs| - 1 ==> |Concat(gs[k])| + |gs[k + 1][0]| > size
  {
    assert forall k :: 0 <= k < |gs| ==> gs[k] != [] by {
      forall k | 0 <= k < |gs| ensures gs[k] != [] {
        if k < |groups| { assert gs[k] == groups[k]; }
      }
    }
    forall k | 0 <= k < |gs| - 1
      ensures |Concat(gs[k])| + |gs[k + 1][0]| > size
    {
      assert gs[k] == groups[k];
      if k + 1 < |groups| { assert gs[k + 1] == groups[k + 1]; }
    }
  }

  /** After the last sentence the open group, if any, is the last group. */
  lemma PackingDone(sentences: seq<string>, groups: seq<seq<string>>, open: seq<string>, size: int)
    requires Packing(sentences, |sentences|, groups, open, size)
    ensures open != [] ==> GreedyPartition(sentences, groups + [open], size)
    ensures open == [] ==> GreedyPartition(sentences, groups, size)
  {
    assert sentences[..|sentences|] == sentences;
    if open != [] {
      FlattenAppend(groups, open);
      var g := groups + [open];
      assert forall k :: 0 <= k < |groups| ==> g[k] == groups[k];
      assert g[|g| - 1] == open;
    }
  }

  lemma TrimmedChunksAppend(groups: seq<seq<string>>, g: seq<string>)
    ensures TrimmedChunks(groups + [g]) == TrimmedChunks(groups) + [Trim(Concat(g))]
  {
  }

  /** The state of `splitIntoChunks`' loop after `i` sentences of `text`:
      `current` is the open group's text and `chunks` holds the closed
      groups trimmed. The empty text's one sentence is empty and packs
      nothing. */
  ghost predicate Loop(text: string, sentences: seq<string>, size: int, i: int,
                       groups: seq<seq<string>>, open: seq<string>, current: string, chunks: seq<string>)
  {
    && sentences == SentenceSplit(text)
    && chunks == TrimmedChunks(groups)
    && (text == "" ==> 0 <= i <= |sentences| && chunks == [] && current == "")
    && (text != "" ==> Packing(sentences, i, groups, open, size) && current == Concat(open))
  }

  lemma LoopStart(text: string, size: int)
    ensures Loop(text, SentenceSplit(text), size, 0, [], [], "", [])
  {
    if text != "" {
      SentencesNonEmpty(text);
      assert SentenceSplit(text)[..0] == [];
    }
  }

  /** The next sentence fits: it is appended to the open group. */
  lemma LoopExtend(text: string, sentences: seq<string>, size: int, i: int,
                   groups: seq<seq<string>>, open: seq<string>, current: string, chunks: seq<string>)
    requires Loop(text, sentences, size, i, groups, open, current, chunks) && i < |sentences|
    requires |current + sentences[i]| <= size
    ensures Loop(text, sentences, size, i + 1, groups, open + [sentences[i]], current + sentences[i], chunks)
  {
    if text != "" {
      PackingExtend(sentences, i, groups, open, size);
    } else {
      assert Sentences("") == [];
      assert sentences[i] == "";
      assert current + sentences[i] == "";
    }
  }

  /** The next sentence overflows: the open group is closed when its text
      is non-empty, and the sentence opens the next one. */
  lemma LoopClose(text: string, sentences: seq<string>, size: int, i: int,
                  groups: seq<seq<string>>, open: seq<string>, current: string, chunks: seq<string>)
    requires Loop(text, sentences, size, i, groups, open, current, chunks) && i < |sentences|
    requires |current + sentences[i]| > size
    ensures current != "" ==>
      Loop(text, sentences, size, i + 1, groups + [open], [sentences[i]], sentences[i], chunks + [Trim(current)])
    ensures current == "" ==>
      Loop(text, sentences, size, i + 1, groups, [sentences[i]], sentences[i], chunks)
  {
    ConcatOfOne(sentences[i]);
    if text != "" {
      OpenTextEmpty(sentences, i, groups, open, size);
      PackingClose(sentences, i, groups, open, size);
      TrimmedChunksAppend(groups, open);
    } else {
      assert Sentences("") == [];
      assert sentences[i] == "";
    }
  }

  /** After the last sentence, the open group, when its text is non-empty,
      is the last group of a greedy partition. */
  lemma LoopDone(text: string, sentences: seq<string>, size: int,
                 groups: seq<seq<string>>, open: seq<string>, current: string, chunks: seq<string>)
    requires Loop(text, sentences, size, |sentences|, groups, open, current, chunks)
    ensures text == "" ==> chunks == [] && current == ""
    ensures text != "" && current != "" ==>
      GreedyPartition(sentences, groups + [open], size) && chunks + [Trim(current)] == TrimmedChunks(groups + [open])
    ensures text != "" && current == "" ==>
      GreedyPartition(sentences, groups, size) && chunks == TrimmedChunks(groups)
  {
    if text != "" {
      OpenTextEmpty(sentences, |sentences|, groups, open, size);
      PackingDone(sentences, groups, open, size);
      TrimmedChunksAppend(groups, open);
    }
  }

  /** `splitIntoChunks(text, chunkSize)`: the chunks are the trimmed texts
      of the greedy partition of the text's sentences. */
  method SplitIntoChunks(text: string, chunkSize: int) returns (chunks: seq<string>, ghost groups: seq<seq<string>>)
    ensures text == "" ==> chunks == []
    ensures text != "" ==> GreedyPartition(SentenceSplit(text), groups, chunkSize) && chunks == TrimmedChunks(groups)
  {
    var sentences := SentenceSplit(text);
    chunks := [];
    groups := [];
    var current := "";
    ghost var open: seq<string> := [];
    LoopStart(text, chunkSize);
    for i := 0 to |sentences|
      invariant Loop(text, sentences, chunkSize, i, groups, open, current, chunks)
    {
      var sentence := sentences[i];
      if |current + sentence| <= chunkSize {
        LoopExtend(text, sentences, chunkSize, i, groups, open, current, chunks);
        current := current + sentence;
        open := open + [sentence];
      } else {
        LoopClose(text, sentences, chunkSize, i, groups, open, current, chunks);
        if current != "" {
          chunks := chunks + [Trim(current)];
          groups := groups + [open];
        }
        current := sentence;
        open := [sentence];
      }
    }
    LoopDone(text, sentences, chunkSize, groups, open, current, chunks);
    if current != "" {
      chunks := chunks + [Trim(current)];
      groups := groups + [open];
    }
  }

  /** `splitIntoChunks(text)` with the default chunk size. */
  method SplitIntoChunksDefault(text: string) returns (chunks: seq<string>, ghost groups: seq<seq<string>>)
    ensures text == "" ==> chunks == []
    ensures text != "" ==> GreedyPartition(SentenceSplit(text), groups, DefaultChunkSize) && chunks == TrimmedChunks(groups)
  {
    chunks, groups := SplitIntoChunks(text, DefaultChunkSize);
  }

  lemma TrimShortens(s: string)
    ensures |Trim(s)| <= |s|
  {
  }

  /** Every chunk of a greedy partition is at most `size` characters long,
      except a single sentence longer than `size`, which becomes a chunk of
      its own, trimmed but not truncated. */
  lemma ChunkBounds(sentences: seq<string>, groups: seq<seq<string>>, size: int)
    requires GreedyPartition(sentences, groups, size)
    ensures forall k :: 0 <= k < |groups| ==>
      |TrimmedChunks(groups)[k]| <= size
      || (|groups[k]| == 1 && |groups[k][0]| > size && TrimmedChunks(groups)[k] == Trim(groups[k][0]))
  {
    forall k | 0 <= k < |groups|
      ensures |TrimmedChunks(groups)[k]| <= size
        || (|groups[k]| == 1 && |groups[k][0]| > size && TrimmedChunks(groups)[k] == Trim(groups[k][0]))
    {
      TrimShortens(Concat(groups[k]));
      if |groups[k]| == 1 {
        assert groups[k] == [groups[k][0]];
        assert Concat(groups[k]) == groups[k][0];
      }
    }
  }

  /** A partition into non-empty groups has no more groups than sentences:
      the packer never emits more chunks than sentences. */
  lemma {:induction false} NoMoreChunksThanSentences(groups: seq<seq<string>>)
    requires forall k :: 0 <= k < |groups| ==> groups[k] != []
    ensures |groups| <= |Flatten(groups)|
    decreases |groups|
  {
    if groups != [] {
      NoMoreChunksThanSentences(groups[1..]);
    }
  }

  lemma ConcatPrefixShorter(g: seq<string>, n: nat)
    requires n <= |g|
    ensures |Concat(g[..n])| <= |Concat(g)|
  {
    ConcatAppend(g[..n], g[n..]);
    assert g[..n] + g[n..] == g;
  }

  /** The first groups of two greedy partitions of the same sentences are
      the same: neither can be shorter, since the longer one would show that
      the shorter could have taken one more sentence. */
  lemma FirstGroupDetermined(sentences: seq<string>, g1: seq<seq<string>>, g2: seq<seq<string>>, size: int)
    requires GreedyPartition(sentences, g1, size) && GreedyPartition(sentences, g2, size)
    requires g1 != [] && g2 != []
    ensures g1[0] == g2[0]
  {
    FirstGroupNotShorter(sentences, g1, g2, size);
    FirstGroupNotShorter(sentences, g2, g1, size);
    assert sentences == g1[0] + Flatten(g1[1..]);
    assert sentences == g2[0] + Flatten(g2[1..]);
    assert g1[0] == sentences[..|g1[0]|] == g2[0];
  }

  lemma FirstGroupNotShorter(sentences: seq<string>, a: seq<seq<string>>, b: seq<seq<string>>, size: int)
    requires GreedyPartition(sentences, a, size) && GreedyPartition(sentences, b, size)
    requires a != [] && b != []
    ensures |b[0]| <= |a[0]|
  {
    var n := |a[0]|;
    GroupStarts(sentences, a, size);
    GroupStarts(sentences, b, size);
    if n < |b[0]| {
      // `a` has a second group, which starts with sentence `n`, and `b[0]`
      // holds `a[0]` and that sentence, although they overflow
      assert |Concat(a[0])| + |a[1][0]| > size;
      assert b[0][..n + 1] == sentences[..n + 1] == a[0] + [a[1][0]];
      LongerGroupOverflows(b[0], a[0], a[1][0], size);
    }
  }

  /** A partition's first group is the first sentences, and when sentences
      remain the second group starts with the next one. */
  lemma GroupStarts(sentences: seq<string>, g: seq<seq<string>>, size: int)
    requires GreedyPartition(sentences, g, size) && g != []
    ensures 0 < |g[0]| <= |sentences| && sentences[..|g[0]|] == g[0]
    ensures |g[0]| < |sentences| ==> |g| >= 2 && g[1] != [] && g[1][0] == sentences[|g[0]|]
  {
    assert sentences == g[0] + Flatten(g[1..]);
    if |g[0]| < |sentences| {
      assert Flatten(g[1..]) == g[1] + Flatten(g[2..]);
    }
  }

  /** A group that extends `prefix` by a sentence which overflows does not
      fit. */
  lemma LongerGroupOverflows(group: seq<string>, prefix: seq<string>, next: string, size: int)
    requires |prefix| < |group| && group[..|prefix| + 1] == prefix + [next]
    requires |Concat(prefix)| + |next| > size
    ensures |Concat(group)| > size
  {
    ConcatAppend(prefix, [next]);
    ConcatOfOne(next);
    ConcatPrefixShorter(group, |prefix| + 1);
  }

  /** The greedy partition is unique, so the chunks the packer returns are
      determined by the sentences and the size alone. */
  lemma {:induction false} GreedyPartitionUnique(sentences: seq<string>, g1: seq<seq<string>>, g2: seq<seq<string>>, size: int)
    requires GreedyPartition(sentences, g1, size) && GreedyPartition(sentences, g2, size)
    ensures g1 == g2
    decreases |sentences|
  {
    if g1 == [] || g2 == [] {
      NoMoreChunksThanSentences(g1);
      NoMoreChunksThanSentences(g2);
    } else {
      FirstGroupDetermined(sentences, g1, g2, size);
      var rest := sentences[|g1[0]|..];
      assert Flatten(g1) == g1[0] + Flatten(g1[1..]);
      assert Flatten(g2) == g2[0] + Flatten(g2[1..]);
      assert Flatten(g1[1..]) == rest == Flatten(g2[1..]);
      TailIsGreedy(sentences, g1, size);
      TailIsGreedy(sentences, g2, size);
      GreedyPartitionUnique(rest, g1[1..], g2[1..], size);
      assert g1 == [g1[0]] + g1[1..];
      assert g2 == [g2[0]] + g2[1..];
    }
  }

  lemma TailIsGreedy(sentences: seq<string>, groups: seq<seq<string>>, size: int)
    requires GreedyPartition(sentences, groups, size) && groups != []
    ensures GreedyPartition(Flatten(groups[1..]), groups[1..], size)
  {
    var t := groups[1..];
    assert forall k :: 0 <= k < |t| ==> t[k] == groups[k + 1];
  }
}
