/** Document ingestion (`process_file`): the file-type check, the document row, the split of
    the extracted text into overlapping chunks of 1000 characters every 900, one chunk row per
    piece and one embedding row per chunk row.

    The text extractors and the uploaded bytes are parameters (`extractPdf`, `extractDoc`,
    `content`); the generated ids are parameters too (`chunkId(k)`, `embeddingId(k)` for the
    k-th chunk of the file). Embedding vectors are not modelled. */
module Documents {
  import opened Common
  import opened Text
  import opened Models

  const ChunkSize: nat := 1000
  const ChunkOverlap: nat := 100
  /** The step of `range(0, len(text), chunk_size - chunk_overlap)`. */
  const Stride: nat := ChunkSize - ChunkOverlap

  /** `file.filename.lower().endswith(('.pdf', '.doc', '.docx'))`. */
  predicate AllowedFile(filename: string)
  {
    var name := Lower(filename);
    EndsWith(name, ".pdf") || EndsWith(name, ".doc") || EndsWith(name, ".docx")
  }

  /** The extractor is chosen by the lower-cased name: PDF, otherwise Word. */
  function ExtractedText(filename: string, content: string, extractPdf: string -> string,
                         extractDoc: string -> string): string
  {
    if EndsWith(Lower(filename), ".pdf") then extractPdf(content) else extractDoc(content)
  }

  /** How many starts `range(0, n, 900)` yields. */
  function ChunkCount(n: nat): (c: nat)
    ensures c * Stride >= n
    ensures c > 0 ==> (c - 1) * Stride < n
  {
    (n + Stride - 1) / Stride
  }

  /** `range(0, n, 900)` yields exactly the starts below n. */
  lemma ChunkCountExact(n: nat, k: nat)
    ensures k < ChunkCount(n) <==> k * Stride < n
  {
    var c := ChunkCount(n);
    if k < c {
      assert k * Stride <= (c - 1) * Stride;
    } else {
      assert k * Stride >= c * Stride;
    }
  }

  /** Python's `text[i:i+1000]`, with both ends clamped to the text. */
  function Slice(text: string, i: nat): (piece: string)
    ensures i <= |text| ==> piece <= text[i..] && |piece| == Min(ChunkSize, |text| - i)
    ensures i >= |text| ==> piece == []
  {
    var lo := Min(i, |text|);
    var hi := Min(i + ChunkSize, |text|);
    text[lo..hi]
  }

  /** The k-th chunk: the slice that starts at 900·k. */
  function Chunk(text: string, k: nat): string
  {
    Slice(text, k * Stride)
  }

  /** Every chunk that the loop produces is a non-empty piece of the text starting at 900·k,
      1000 characters long unless it reaches the end of the text. */
  lemma ChunkShape(text: string, k: nat)
    requires k < ChunkCount(|text|)
    ensures var c := Chunk(text, k);
      && 0 < |c| <= ChunkSize
      && |c| == Min(ChunkSize, |text| - k * Stride)
      && c == text[k * Stride .. k * Stride + |c|]
  {
    ChunkCountExact(|text|, k);
  }

  /** Neighbouring chunks overlap: whatever the first has past 900 characters begins the
      next; that is 100 characters when the first is full, and otherwise the next chunk is
      exactly that tail. */
  lemma ChunksOverlap(text: string, k: nat)
    requires k + 1 < ChunkCount(|text|)
    ensures |Chunk(text, k)| > Stride
    ensures Chunk(text, k)[Stride..] == Chunk(text, k + 1)[..|Chunk(text, k)| - Stride]
    ensures |Chunk(text, k)| == ChunkSize || Chunk(text, k + 1) == Chunk(text, k)[Stride..]
  {
    ChunkCountExact(|text|, k + 1);
    ChunkShape(text, k);
    ChunkShape(text, k + 1);
  }

  /** When the text runs at most 100 characters past the last multiple of 900, the last
      chunk adds nothing: it is the tail of the chunk before it. */
  lemma LastChunkRedundant(text: string)
    requires |text| > Stride && 0 < |text| % Stride <= ChunkOverlap
    ensures ChunkCount(|text|) >= 2
    ensures var c := ChunkCount(|text|);
      Chunk(text, c - 1) == Chunk(text, c - 2)[Stride..]
  {
    var n := |text|;
    var q := n / Stride;
    assert n == q * Stride + n % Stride;
    assert ChunkCount(n) == q + 1;
    ChunkShape(text, q);
    ChunkShape(text, q - 1);
  }

  /** The first 900 characters of each of the first m chunks, joined. */
  function Heads(text: string, m: nat): string
  {
    if m == 0 then [] else
      var c := Chunk(text, m - 1);
      Heads(text, m - 1) + c[..Min(Stride, |c|)]
  }

  /** Without the overlap, the chunks put back together are the text. */
  lemma {:induction false} HeadsPrefix(text: string, m: nat)
    requires m <= ChunkCount(|text|)
    ensures Heads(text, m) == text[..Min(m * Stride, |text|)]
  {
    if m > 0 {
      HeadsPrefix(text, m - 1);
      ChunkShape(text, m - 1);
      ChunkCountExact(|text|, m - 1);
      var c := Chunk(text, m - 1);
      var lo := (m - 1) * Stride;
      var hi := Min(m * Stride, |text|);
      assert m * Stride == lo + Stride;
      assert lo < |text| && |c| == Min(ChunkSize, |text| - lo);
      assert lo + Min(Stride, |c|) == hi;
      assert c[..Min(Stride, |c|)] == text[lo .. hi];
      assert text[..lo] + text[lo .. hi] == text[..hi];
    }
  }

  /** The chunker loses nothing: the heads of all chunks are the whole text. */
  lemma ChunksCoverText(text: string)
    ensures Heads(text, ChunkCount(|text|)) == text
  {
    HeadsPrefix(text, ChunkCount(|text|));
  }

  /** The k-th chunk row of a file: its text and `chunk_index = k`. */
  function ChunkRow(fileId: string, text: string, chunkId: nat -> string, k: nat): DocumentChunk
  {
    DocumentChunk(chunkId(k), fileId, Chunk(text, k), k)
  }

  /** Every chunk row the loop adds, in order. */
  function ChunkRows(fileId: string, text: string, chunkId: nat -> string): (rows: seq<DocumentChunk>)
    ensures |rows| == ChunkCount(|text|)
    ensures forall k :: 0 <= k < |rows| ==> rows[k] == ChunkRow(fileId, text, chunkId, k)
  {
    seq(ChunkCount(|text|), k requires 0 <= k => ChunkRow(fileId, text, chunkId, k))
  }

  /** The rows the loop adds: none exactly for an empty text; the k-th carries the file's id,
      `chunk_index = k`, its own chunk id and a non-empty piece of the text that starts at
      900·k and is 1000 characters long unless it reaches the end. */
  lemma ChunkRowsShape(fileId: string, text: string, chunkId: nat -> string)
    ensures var rows := ChunkRows(fileId, text, chunkId);
      && (|rows| == 0 <==> |text| == 0)
      && forall k :: 0 <= k < |rows| ==>
           && rows[k].documentId == fileId && rows[k].chunkIndex == k && rows[k].id == chunkId(k)
           && 0 < |rows[k].content| == Min(ChunkSize, |text| - k * Stride)
           && rows[k].content == text[k * Stride .. k * Stride + |rows[k].content|]
  {
    var rows := ChunkRows(fileId, text, chunkId);
    if |text| > 0 {
      ChunkCountExact(|text|, 0);
    }
    forall k | 0 <= k < |rows|
      ensures 0 < |rows[k].content| == Min(ChunkSize, |text| - k * Stride)
      ensures rows[k].content == text[k * Stride .. k * Stride + |rows[k].content|]
    {
      ChunkShape(text, k);
    }
  }

  /** `db.query(DocumentChunk).filter(DocumentChunk.document_id == file_id).all()`, in
      insertion order. */
  function ChunksOf(chunks: seq<DocumentChunk>, documentId: string): (r: seq<DocumentChunk>)
    ensures forall c :: c in r <==> c in chunks && c.documentId == documentId
    ensures |r| <= |chunks|
  {
    if |chunks| == 0 then []
    else
      var rest := ChunksOf(chunks[..|chunks| - 1], documentId);
      var last := chunks[|chunks| - 1];
      if last.documentId == documentId then rest + [last] else rest
  }

  /** The query finds nothing when no row carries the id. */
  lemma {:induction false} ChunksOfNone(chunks: seq<DocumentChunk>, documentId: string)
    requires forall c :: c in chunks ==> c.documentId != documentId
    ensures ChunksOf(chunks, documentId) == []
  {
    if |chunks| > 0 {
      var prefix := chunks[..|chunks| - 1];
      assert forall c :: c in prefix ==> c in chunks;
      assert chunks[|chunks| - 1] in chunks;
      ChunksOfNone(prefix, documentId);
    }
  }

  /** The query finds only the rows of this file when no older row carries its id. */
  lemma {:induction false} ChunksOfAppended(old_: seq<DocumentChunk>, rows: seq<DocumentChunk>, documentId: string)
    requires forall c :: c in old_ ==> c.documentId != documentId
    requires forall c :: c in rows ==> c.documentId == documentId
    ensures ChunksOf(old_ + rows, documentId) == rows
  {
    if |rows| == 0 {
      assert old_ + rows == old_;
      ChunksOfNone(old_, documentId);
    } else {
      var prefix := rows[..|rows| - 1];
      assert (old_ + rows)[..|old_ + rows| - 1] == old_ + prefix;
      assert rows[|rows| - 1] in rows;
      ChunksOfAppended(old_, prefix, documentId);
      assert prefix + [rows[|rows| - 1]] == rows;
    }
  }

  /** `zip(rows, embeddings)`: one embedding per row, as many as there are vectors. */
  function EmbeddingRows(userId: string, rows: seq<DocumentChunk>, count: nat, embeddingId: nat -> string)
    : (es: seq<Embedding>)
    ensures |es| == Min(|rows|, count)
    ensures forall k :: 0 <= k < |es| ==> es[k] == Embedding(embeddingId(k), userId, rows[k].id)
  {
    seq(Min(|rows|, count), k requires 0 <= k < Min(|rows|, count) => Embedding(embeddingId(k), userId, rows[k].id))
  }

  /** "Only PDF and DOC files allowed" (400). */
  datatype UploadError = FileTypeNotAllowed

  /** The `documents`, `document_chunks` and `embeddings` tables. */
  class DocumentStore {
    var documents: seq<Document>
    var chunks: seq<DocumentChunk>
    var embeddings: seq<Embedding>

    constructor ()
      ensures documents == [] && chunks == [] && embeddings == []
    {
      documents, chunks, embeddings := [], [], [];
    }

    /** `process_file`: a refused name stores nothing; otherwise one document row, then one
        chunk row per start of `range(0, len(text), 900)`, then one embedding per chunk row
        that the query returns; the answer is the number of chunks. */
    method ProcessFile(filename: string, content: string, userId: string, fileId: string,
                       extractPdf: string -> string, extractDoc: string -> string,
                       chunkId: nat -> string, embeddingId: nat -> string)
      returns (r: Result<nat, UploadError>)
      modifies this
      ensures r.Err? <==> !AllowedFile(filename)
      ensures r.Err? ==> documents == old(documents) && chunks == old(chunks) && embeddings == old(embeddings)
      ensures r.Ok? ==>
        var text := ExtractedText(filename, content, extractPdf, extractDoc);
        var rows := ChunkRows(fileId, text, chunkId);
        && r.value == ChunkCount(|text|)
        && documents == old(documents) + [Document(fileId, userId, filename, text)]
        && chunks == old(chunks) + rows
        && embeddings == old(embeddings) + EmbeddingRows(userId, ChunksOf(chunks, fileId), |rows|, embeddingId)
    {
      if !AllowedFile(filename) {
        return Err(FileTypeNotAllowed);
      }
      var text;
      if EndsWith(Lower(filename), ".pdf") {
        text := extractPdf(content);
      } else {
        text := extractDoc(content);
      }
      documents := documents + [Document(fileId, userId, filename, text)];
      var count := AddChunks(fileId, text, chunkId);
      AddEmbeddings(userId, fileId, count, embeddingId);
      r := Ok(count);
    }

    /** The chunking loop: one row per start 0, 900, 1800, … below the length. */
    method AddChunks(fileId: string, text: string, chunkId: nat -> string) returns (count: nat)
      modifies this
      ensures count == ChunkCount(|text|)
      ensures chunks == old(chunks) + ChunkRows(fileId, text, chunkId)
      ensures documents == old(documents) && embeddings == old(embeddings)
    {
      var rows: seq<DocumentChunk> := [];
      var i := 0;
      while i < |text|
        invariant i == |rows| * Stride
        invariant |rows| <= ChunkCount(|text|)
        invariant forall k :: 0 <= k < |rows| ==> rows[k] == ChunkRow(fileId, text, chunkId, k)
        invariant chunks == old(chunks) + rows
        invariant documents == old(documents) && embeddings == old(embeddings)
        decreases |text| - i
      {
        ChunkCountExact(|text|, |rows|);
        var chunkText := Slice(text, i);
        var chunk := DocumentChunk(chunkId(|rows|), fileId, chunkText, |rows|);
        chunks := chunks + [chunk];
        rows := rows + [chunk];
        i := i + Stride;
      }
      ChunkCountExact(|text|, |rows|);
      assert rows == ChunkRows(fileId, text, chunkId);
      count := |rows|;
    }

    /** The embedding loop over `zip(rows of the file, vectors)`. */
    method AddEmbeddings(userId: string, fileId: string, count: nat, embeddingId: nat -> string)
      modifies this
      ensures embeddings == old(embeddings) + EmbeddingRows(userId, ChunksOf(chunks, fileId), count, embeddingId)
      ensures documents == old(documents) && chunks == old(chunks)
    {
      var stored := ChunksOf(chunks, fileId);
      ghost var es := EmbeddingRows(userId, stored, count, embeddingId);
      var n := Min(|stored|, count);
      var k := 0;
      while k < n
        invariant 0 <= k <= n
        invariant embeddings == old(embeddings) + es[..k]
        invariant documents == old(documents) && chunks == old(chunks)
      {
        assert es[..k + 1] == es[..k] + [Embedding(embeddingId(k), userId, stored[k].id)];
        embeddings := embeddings + [Embedding(embeddingId(k), userId, stored[k].id)];
        k := k + 1;
      }
      assert es[..k] == es;
    }
  }

  /** A fresh file id and distinct, fresh chunk ids give every new chunk exactly one
      embedding, in chunk order, and keep `chunk_id` unique in the embeddings table. */
  lemma EmbeddingsFollowChunks(oldChunks: seq<DocumentChunk>, oldEmbeddings: seq<Embedding>, userId: string,
                               fileId: string, text: string, chunkId: nat -> string, embeddingId: nat -> string)
    requires forall c :: c in oldChunks ==> c.documentId != fileId
    requires OneEmbeddingPerChunk(oldEmbeddings)
    requires forall i, j :: 0 <= i < j < ChunkCount(|text|) ==> chunkId(i) != chunkId(j)
    requires forall e, k :: e in oldEmbeddings && 0 <= k < ChunkCount(|text|) ==> e.chunkId != chunkId(k)
    ensures var rows := ChunkRows(fileId, text, chunkId);
      var es := EmbeddingRows(userId, ChunksOf(oldChunks + rows, fileId), |rows|, embeddingId);
      && |es| == |rows|
      && (forall k :: 0 <= k < |es| ==> es[k].chunkId == rows[k].id && es[k].userId == userId)
      && OneEmbeddingPerChunk(oldEmbeddings + es)
  {
    var rows := ChunkRows(fileId, text, chunkId);
    ChunksOfAppended(oldChunks, rows, fileId);
    var es := EmbeddingRows(userId, rows, |rows|, embeddingId);
    var all := oldEmbeddings + es;
    forall i, j | 0 <= i < j < |all| ensures all[i].chunkId != all[j].chunkId {
      if j >= |oldEmbeddings| {
        assert all[j] == es[j - |oldEmbeddings|];
        if i < |oldEmbeddings| {
          assert all[i] in oldEmbeddings;
        }
      }
    }
  }
}
