/** The server's in-memory document store: uploaded text is split into
    sentence chunks tagged with their source, and the chunks joined with a
    blank line are the context handed to the language model. */
module ServerStore {
  import opened Text

  /** What `getContext` returns while the store holds no chunk. */
  const NoDocuments := "No documents have been uploaded yet."

  /** The separator `getContext` puts between chunk contents. */
  const ChunkSeparator := "\n\n"

  /** `{ content, metadata: { source } }`. */
  datatype Chunk = Chunk(content: string, source: string)

  function Contents(chunks: seq<Chunk>): (r: seq<string>)
    ensures |r| == |chunks|
    ensures forall k :: 0 <= k < |chunks| ==> r[k] == chunks[k].content
  {
    seq(|chunks|, k requires 0 <= k < |chunks| => chunks[k].content)
  }

  /** The chunks `addDocument(text, source)` appends: one per match of the
      sentence pattern, or the whole text when nothing matches, each
      trimmed and tagged with `source`. */
  function ChunksOf(text: string, source: string): (r: seq<Chunk>)
    ensures |r| >= 1
    ensures forall k :: 0 <= k < |r| ==> r[k].source == source
    ensures Sentences(text) == [] ==> r == [Chunk(Trim(text), source)]
    ensures Sentences(text) != [] ==>
      |r| == |Sentences(text)| && forall k :: 0 <= k < |r| ==> r[k].content == Trim(Sentences(text)[k])
  {
    var pieces := SentenceSplit(text);
    seq(|pieces|, k requires 0 <= k < |pieces| => Chunk(Trim(pieces[k]), source))
  }

  /** `getContext()` for a store holding `chunks`. */
  function Context(chunks: seq<Chunk>): string
  {
    if chunks == [] then NoDocuments else Join(Contents(chunks), ChunkSeparator)
  }

  class DocumentStore {
    var chunks: seq<Chunk>

    constructor ()
      ensures chunks == []
    {
      chunks := [];
    }

    /** Appends the chunks of `text`, leaving the earlier ones in place. */
    method AddDocument(text: string, source: string)
      modifies this
      ensures chunks == old(chunks) + ChunksOf(text, source)
    {
      chunks := chunks + ChunksOf(text, source);
    }

    function GetContext(): string
      reads this
    {
      Context(chunks)
    }

    /** Empties the store, whatever it held before. */
    method Clear()
      modifies this
      ensures chunks == []
    {
      chunks := [];
    }
  }

  /** The lazily created process-wide store, `DocumentStore.instance`. */
  class StoreRegistry {
    var instance: DocumentStore?

    constructor ()
      ensures instance == null
    {
      instance := null;
    }

    /** `DocumentStore.getInstance()`: creates an empty store on the first
        call and returns that same store on every later call. */
    method GetInstance() returns (store: DocumentStore)
      modifies this
      ensures old(instance) != null ==> store == old(instance)
      ensures old(instance) == null ==> fresh(store) && store.chunks == []
      ensures instance == store
    {
      if instance == null {
        instance := new DocumentStore();
      }
      store := instance;
    }
  }

  /** The context is the sentinel exactly when the store is empty, or when
      its only chunk is the sentinel text itself: a store of two or more
      chunks yields a context holding a blank line, which the sentinel
      does not. */
  lemma ContextIsSentinelIff(chunks: seq<Chunk>)
    ensures Context(chunks) == NoDocuments <==>
      chunks == [] || (|chunks| == 1 && chunks[0].content == NoDocuments)
  {
    if |chunks| >= 2 {
      var cs := Contents(chunks);
      JoinHoldsSeparator(cs, ChunkSeparator);
      var c := Context(chunks);
      var p := |cs[0]|;
      assert c[p] == '\n' by { assert c[p..p + 2][0] == c[p]; }
      SentinelHasNoNewline();
    }
  }

  /** The context is empty exactly when the store holds one chunk whose
      content is empty: two or more chunks leave at least the separator. */
  lemma ContextIsEmptyIff(chunks: seq<Chunk>)
    ensures Context(chunks) == "" <==> |chunks| == 1 && chunks[0].content == ""
  {
    if |chunks| >= 2 {
      JoinHoldsSeparator(Contents(chunks), ChunkSeparator);
    }
  }

  lemma SentinelHasNoNewline()
    ensures forall k :: 0 <= k < |NoDocuments| ==> NoDocuments[k] != '\n'
  {
  }

  /** Appending chunks to a non-empty store extends its context: the old
      context, a blank line, then the new contents joined. */
  lemma ContextAfterAppend(chunks: seq<Chunk>, added: seq<Chunk>)
    requires added != []
    ensures chunks == [] ==> Context(chunks + added) == Join(Contents(added), ChunkSeparator)
    ensures chunks != [] ==>
      Context(chunks + added) == Context(chunks) + ChunkSeparator + Join(Contents(added), ChunkSeparator)
  {
    assert Contents(chunks + added) == Contents(chunks) + Contents(added);
    if chunks == [] {
      assert chunks + added == added;
    } else {
      JoinAppend(Contents(chunks), Contents(added), ChunkSeparator);
    }
  }

  /** Ingesting document A and then document B into an empty store puts
      every chunk of A before every chunk of B in the context. */
  lemma ContextOrdersDocuments(a: string, srcA: string, b: string, srcB: string)
    ensures Context(ChunksOf(a, srcA) + ChunksOf(b, srcB)) ==
      Join(Contents(ChunksOf(a, srcA)), ChunkSeparator) + ChunkSeparator + Join(Contents(ChunksOf(b, srcB)), ChunkSeparator)
  {
    ContextAfterAppend(ChunksOf(a, srcA), ChunksOf(b, srcB));
  }

  /** Any document, even the empty one, adds a chunk; the empty text adds
      the empty chunk, after which the context is empty, not the sentinel. */
  lemma EmptyDocumentAddsEmptyChunk(chunks: seq<Chunk>, source: string)
    ensures |chunks + ChunksOf("", source)| == |chunks| + 1
    ensures Context([] + ChunksOf("", source)) == ""
  {
    assert Sentences("") == [];
    assert Trim("") == "";
    assert [] + ChunksOf("", source) == [Chunk("", source)];
  }

  lemma FoxSentence(x: string)
    requires x == "The fox runs."
    ensures IsSentence(x)
  {
    SentenceOfRuns("The fox runs", ".");
    assert "The fox runs" + "." == x;
  }

  lemma DogSentence(x: string)
    requires x == " The dog sleeps."
    ensures IsSentence(x)
  {
    SentenceOfRuns(" The dog sleeps", ".");
    assert " The dog sleeps" + "." == x;
  }

  lemma FoxAndDogDecomposes(s: string, xs: seq<string>)
    requires s == "The fox runs. The dog sleeps."
    requires xs == ["The fox runs.", " The dog sleeps."]
    ensures DecomposesAt(s, xs, 0, |s|)
  {
    FoxSentence(xs[0]);
    DogSentence(xs[1]);
    assert AllSentences(xs);
    ConcatCons(xs);
    ConcatCons(xs[1..]);
    assert xs[1..][1..] == [];
    assert Concat(xs) == s;
    assert s[..0] == [] && s[0..|s|] == s && s[|s|..] == [];
  }

  lemma FoxAndDogTrimmed(xs: seq<string>)
    requires xs == ["The fox runs.", " The dog sleeps."]
    ensures Trim(xs[0]) == "The fox runs." && Trim(xs[1]) == "The dog sleeps."
  {
    TrimClean(xs[0]);
    TrimLeadingSpace(xs[1]);
    assert xs[1][1..] == "The dog sleeps.";
    TrimClean("The dog sleeps.");
  }

  lemma TwoChunkContext(chunks: seq<Chunk>)
    requires |chunks| == 2
    ensures Context(chunks) == chunks[0].content + ChunkSeparator + chunks[1].content
  {
    var cs := Contents(chunks);
    assert cs[1..] == [chunks[1].content];
    assert Join(cs[1..], ChunkSeparator) == chunks[1].content;
  }

  lemma FoxAndDogChunks(text: string, source: string)
    requires text == "The fox runs. The dog sleeps."
    ensures ChunksOf(text, source) == [Chunk("The fox runs.", source), Chunk("The dog sleeps.", source)]
  {
    var xs := ["The fox runs.", " The dog sleeps."];
    FoxAndDogDecomposes(text, xs);
    DecompositionUnique(text, xs, 0, |text|);
    FoxAndDogTrimmed(xs);
  }

  /** `"The fox runs. The dog sleeps."` gives two chunks and the context
      `"The fox runs.\n\nThe dog sleeps."`. */
  lemma FoxAndDog(text: string, source: string)
    requires text == "The fox runs. The dog sleeps."
    ensures ChunksOf(text, source) == [Chunk("The fox runs.", source), Chunk("The dog sleeps.", source)]
    ensures Context(ChunksOf(text, source)) == "The fox runs.\n\nThe dog sleeps."
  {
    FoxAndDogChunks(text, source);
    FoxAndDogContext(ChunksOf(text, source), source);
  }

  lemma FoxAndDogContext(chunks: seq<Chunk>, source: string)
    requires chunks == [Chunk("The fox runs.", source), Chunk("The dog sleeps.", source)]
    ensures Context(chunks) == "The fox runs.\n\nThe dog sleeps."
  {
    TwoChunkContext(chunks);
  }

  /** The sentinel is a single sentence. */
  lemma SentinelIsOneSentence(s: string)
    requires s == NoDocuments
    ensures Sentences(s) == [s]
  {
    SentenceOfRuns("No documents have been uploaded yet", ".");
    assert Concat([s]) == s;
    assert s[..0] == [] && s[0..|s|] == s && s[|s|..] == [];
    DecompositionUnique(s, [s], 0, |s|);
  }

  /** A document whose text is the sentinel sentence is stored as one chunk
      equal to the sentinel, so the context of that store reads as "no
      documents". */
  lemma SentinelDocumentLooksEmpty(text: string, source: string)
    requires text == NoDocuments
    ensures ChunksOf(text, source) == [Chunk(NoDocuments, source)]
    ensures Context(ChunksOf(text, source)) == NoDocuments
  {
    SentinelIsOneSentence(text);
    TrimClean(text);
  }
}
