/** The chunking and row pairing of `generateEmbeddings`
    (src/create-embedding.ts). The embedding call is opaque: its vectors are a
    parameter. */
module CreateEmbedding {
  import opened Wrappers
  import opened Strings

  /** `xs.filter((c) => c)`: the non-empty strings, in order. */
  function NonEmpty(xs: seq<string>): (r: seq<string>)
    ensures forall k :: 0 <= k < |r| ==> r[k] != [] && r[k] in xs
    ensures Concat(r) == Concat(xs)
    ensures |r| <= |xs|
  {
    if xs == [] then []
    else if xs[0] == [] then NonEmpty(xs[1..])
    else [xs[0]] + NonEmpty(xs[1..])
  }

  /** `text.trim().split(".").filter((c) => c)` */
  function Chunks(text: string): seq<string> {
    NonEmpty(Split(Trim(text), '.'))
  }

  /** No chunk is empty or holds a dot, each is a piece of the trimmed text
      cut at the dots, kept as it is (with its own spaces), and together in
      order they spell the trimmed text without its dots. */
  lemma ChunksSpellText(text: string)
    ensures forall k :: 0 <= k < |Chunks(text)| ==>
      Chunks(text)[k] != [] && '.' !in Chunks(text)[k] && Chunks(text)[k] in Split(Trim(text), '.')
    ensures Concat(Chunks(text)) == RemoveChar(Trim(text), '.')
  {
    SplitConcat(Trim(text), '.');
  }

  /** Pieces that spell nothing are all empty. */
  lemma {:induction false} ConcatEmpty(xs: seq<string>)
    requires Concat(xs) == []
    ensures NonEmpty(xs) == []
  {
    if xs != [] {
      assert Concat(xs) == xs[0] + Concat(xs[1..]);
      ConcatEmpty(xs[1..]);
    }
  }

  /** Text made only of dots inside its surrounding whitespace gives no chunks. */
  lemma OnlyDotsNoChunks(text: string)
    requires forall i :: 0 <= i < |Trim(text)| ==> Trim(text)[i] == '.'
    ensures Chunks(text) == []
  {
    var t := Trim(text);
    SplitConcat(t, '.');
    var r := RemoveChar(t, '.');
    RemoveAllDots(t);
    ConcatEmpty(Split(t, '.'));
  }

  /** Removing the dots from a string of dots leaves nothing. */
  lemma {:induction false} RemoveAllDots(s: string)
    requires forall i :: 0 <= i < |s| ==> s[i] == '.'
    ensures RemoveChar(s, '.') == []
  {
    if s != [] {
      assert forall i :: 0 <= i < |s[1..]| ==> s[1..][i] == s[i + 1];
      RemoveAllDots(s[1..]);
    }
  }

  /** An inserted row: its `content` is `undefined` (`None`) past the end of the
      chunks. */
  datatype Row<E> = Row(content: Option<string>, embedding: E)

  /** `embeddings.map((vec, i) => ({content: chunks[i], embedding: vec}))` */
  function Rows<E>(chunks: seq<string>, embeddings: seq<E>): (rows: seq<Row<E>>)
    ensures |rows| == |embeddings|
    ensures forall i :: 0 <= i < |rows| ==> rows[i].embedding == embeddings[i]
    ensures forall i :: 0 <= i < |rows| ==>
      rows[i].content == if i < |chunks| then Some(chunks[i]) else None
  {
    RowsFrom(chunks, embeddings, 0)
  }

  function RowsFrom<E>(chunks: seq<string>, embeddings: seq<E>, start: nat): (rows: seq<Row<E>>)
    ensures |rows| == |embeddings|
    ensures forall i :: 0 <= i < |rows| ==> rows[i].embedding == embeddings[i]
    ensures forall i :: 0 <= i < |rows| ==>
      rows[i].content == if start + i < |chunks| then Some(chunks[start + i]) else None
  {
    if embeddings == [] then []
    else
      var content := if start < |chunks| then Some(chunks[start]) else None;
      [Row(content, embeddings[0])] + RowsFrom(chunks, embeddings[1..], start + 1)
  }

  /** `generateEmbeddings(text)` given the vectors the embedding call returned
      for the chunks. */
  function GenerateEmbeddings<E>(text: string, embeddings: seq<E>): (rows: seq<Row<E>>)
    ensures |rows| == |embeddings|
    ensures |embeddings| == |Chunks(text)| ==>
      forall i :: 0 <= i < |rows| ==> rows[i] == Row(Some(Chunks(text)[i]), embeddings[i])
  {
    Rows(Chunks(text), embeddings)
  }
}
