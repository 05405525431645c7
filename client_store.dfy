/** The browser-side document store. It keeps the same append, context and
    clear behaviour as the server store, but a text splitter library does
    the chunking. That splitter is a parameter here, and its documents'
    metadata is merged over the `source` tag. */
module ClientStore {
  import opened Text
  import ServerStore

  /** A metadata value of a splitter document. Only `source` strings are
      written by the store itself; other values pass through unchanged. */
  datatype MetaValue = Str(text: string) | Num(number: int) | Other(id: nat)

  /** A document returned by the splitter: `{ pageContent, metadata }`. */
  datatype SplitterDoc = SplitterDoc(pageContent: string, metadata: map<string, MetaValue>)

  /** A stored chunk: `{ content, metadata }`. */
  datatype Chunk = Chunk(content: string, metadata: map<string, MetaValue>)

  /** The splitter's `createDocuments([text])`, as the documents it yields. */
  type Splitter = string -> seq<SplitterDoc>

  /** `{ source, ...meta }`: the `source` key first, then every key of the
      splitter's metadata, which wins on a clash. */
  function Tagged(source: string, meta: map<string, MetaValue>): map<string, MetaValue>
  {
    map["source" := Str(source)] + meta
  }

  /** The chunks `addDocument` builds from the splitter's documents. */
  function ChunksOf(docs: seq<SplitterDoc>, source: string): (r: seq<Chunk>)
    ensures |r| == |docs|
    ensures forall k :: 0 <= k < |docs| ==>
      r[k].content == docs[k].pageContent && r[k].metadata == Tagged(source, docs[k].metadata)
  {
    seq(|docs|, k requires 0 <= k < |docs| => Chunk(docs[k].pageContent, Tagged(source, docs[k].metadata)))
  }

  /** The chunks' texts. The server store's chunks are another type (a
      `source` string instead of a metadata map), so each store has its own
      projection; `ContextAgreesWithServer` shows the two contexts agree. */
  function Contents(chunks: seq<Chunk>): (r: seq<string>)
    ensures |r| == |chunks|
    ensures forall k :: 0 <= k < |chunks| ==> r[k] == chunks[k].content
  {
    seq(|chunks|, k requires 0 <= k < |chunks| => chunks[k].content)
  }

  /** `getContext()` for a store holding `chunks`. */
  function Context(chunks: seq<Chunk>): string
  {
    if chunks == [] then ServerStore.NoDocuments else Join(Contents(chunks), ServerStore.ChunkSeparator)
  }

  class DocumentStore {
    var chunks: seq<Chunk>
    const splitter: Splitter

    constructor (splitter: Splitter)
      ensures chunks == [] && this.splitter == splitter
    {
      chunks := [];
      this.splitter := splitter;
    }

    /** Appends one chunk per splitter document, after the earlier ones. */
    method AddDocument(text: string, source: string)
      modifies this
      ensures chunks == old(chunks) + ChunksOf(splitter(text), source)
    {
      var documents := splitter(text);
      var newChunks := ChunksOf(documents, source);
      chunks := chunks + newChunks;
    }

    function GetContext(): string
      reads this
    {
      Context(chunks)
    }

    /** Empties the store, whatever it held before. */
    method Clear()
      modifies this
      ensures chunks == []
    {
      chunks := [];
    }
  }

  /** The lazily created store `DocumentStore.instance`, built with the
      splitter its private constructor configures. */
  class StoreRegistry {
    var instance: DocumentStore?
    const splitter: Splitter

    constructor (splitter: Splitter)
      ensures instance == null && this.splitter == splitter
    {
      instance := null;
      this.splitter := splitter;
    }

    /** `DocumentStore.getInstance()`: creates an empty store on the first
        call and returns that same store on every later call. */
    method GetInstance() returns (store: DocumentStore)
      modifies this
      ensures old(instance) != null ==> store == old(instance)
      ensures old(instance) == null ==> fresh(store) && store.chunks == [] && store.splitter == splitter
      ensures instance == store
    {
      if instance == null {
        instance := new DocumentStore(splitter);
      }
      store := instance;
    }
  }

  /** A chunk's `source` is the splitter's own `source` value when its
      metadata has one, and the given source otherwise; every other key is
      the splitter's, and no key is invented. */
  lemma TaggedSource(source: string, meta: map<string, MetaValue>)
    ensures Tagged(source, meta).Keys == meta.Keys + {"source"}
    ensures "source" in meta ==> Tagged(source, meta)["source"] == meta["source"]
    ensures "source" !in meta ==> Tagged(source, meta)["source"] == Str(source)
    ensures forall key :: key in meta ==> Tagged(source, meta)[key] == meta[key]
  {
  }

  /** The client store's context is the server store's context for chunks
      with the same contents: the same sentinel and the same separator. */
  lemma {:induction false} ContextAgreesWithServer(chunks: seq<Chunk>, served: seq<ServerStore.Chunk>)
    requires |served| == |chunks|
    requires forall k :: 0 <= k < |chunks| ==> served[k].content == chunks[k].content
    ensures Context(chunks) == ServerStore.Context(served)
  {
    assert Contents(chunks) == ServerStore.Contents(served);
  }

  /** The context is the sentinel exactly when the store is empty, or when
      its only chunk's content is the sentinel text itself. */
  lemma ContextIsSentinelIff(chunks: seq<Chunk>)
    ensures Context(chunks) == ServerStore.NoDocuments <==>
      chunks == [] || (|chunks| == 1 && chunks[0].content == ServerStore.NoDocuments)
  {
    var served := seq(|chunks|, k requires 0 <= k < |chunks| => ServerStore.Chunk(chunks[k].content, ""));
    ContextAgreesWithServer(chunks, served);
    ServerStore.ContextIsSentinelIff(served);
  }

  /** Adding a document replaces the sentinel of an empty store by the new
      contents joined, and extends the context of a non-empty store: the old
      context, a blank line, then the new contents joined. */
  lemma ContextAfterAppend(chunks: seq<Chunk>, added: seq<Chunk>)
    requires added != []
    ensures chunks == [] ==> Context(chunks + added) == Join(Contents(added), ServerStore.ChunkSeparator)
    ensures chunks != [] ==>
      Context(chunks + added) == Context(chunks) + ServerStore.ChunkSeparator + Join(Contents(added), ServerStore.ChunkSeparator)
  {
    if chunks == [] {
      assert chunks + added == added;
    } else {
      assert Contents(chunks + added) == Contents(chunks) + Contents(added);
      JoinAppend(Contents(chunks), Contents(added), ServerStore.ChunkSeparator);
    }
  }
}
