/**
 * An abstract vector collection: an ordered sequence of documents and a
 * top-1 nearest-neighbour query under an uninterpreted, non-negative
 * distance between the query text and a stored document's text.
 */
module VectorStore {
  import opened Wrappers

  type Metadata = map<string, string>

  datatype Document = Document(id: string, text: string, metadata: Metadata)

  type NonNegReal = r: real | 0.0 <= r

  /** Embedding distance from a query text to a stored text; 0.0 means identical. */
  type Distance = (string, string) -> NonNegReal

  /** One row of a query result: the document and its distance to the query. */
  datatype Match = Match(doc: Document, distance: real)

  predicate UniqueIds(docs: seq<Document>)
  {
    forall i, j :: 0 <= i < j < |docs| ==> docs[i].id != docs[j].id
  }

  /** Top-1 query: the nearest stored document (the earliest one on a tie), or nothing when the store is empty. */
  function Nearest(docs: seq<Document>, query: string, dist: Distance): (m: Option<Match>)
    ensures m.None? <==> docs == []
    ensures m.Some? ==> m.value.doc in docs && m.value.distance == dist(query, m.value.doc.text)
    ensures m.Some? ==> forall d :: d in docs ==> m.value.distance <= dist(query, d.text)
    decreases |docs|
  {
    if docs == [] then None
    else
      var rest := Nearest(docs[1..], query, dist);
      var here := dist(query, docs[0].text);
      if rest.None? || here <= rest.value.distance then Some(Match(docs[0], here)) else rest
  }

  /** Why an `add` was refused. */
  datatype StoreError =
    | Unavailable(message: string)   // the backing store or the embedding function failed
    | LengthMismatch                 // ids, documents and metadatas differ in length
    | DuplicateId                    // an id repeats in the batch or is already stored

  /** What `str(e)` gives for a `StoreError`. */
  function ErrorText(e: StoreError): string
  {
    match e
    case Unavailable(m) => m
    case LengthMismatch => "Unequal lengths for fields: ids, documents, metadatas"
    case DuplicateId => "Expected IDs to be unique"
  }

  /** The documents an `add` of aligned `ids`, `texts` and `metas` appends, in batch order. */
  function Batch(ids: seq<string>, texts: seq<string>, metas: seq<Metadata>): seq<Document>
    requires |ids| == |texts| == |metas|
  {
    seq(|ids|, i requires 0 <= i < |ids| => Document(ids[i], texts[i], metas[i]))
  }

  /**
   * The policy of this model for `add`: refuse the whole batch (store unchanged) when the
   * store fails, the three lists are not aligned, or an id is repeated or already present.
   */
  function AddError(docs: seq<Document>, ids: seq<string>, texts: seq<string>, metas: seq<Metadata>,
                    fault: Option<string>): (r: Option<StoreError>)
    ensures r.None? <==>
              && fault.None?
              && |ids| == |texts| == |metas|
              && (forall i, j :: 0 <= i < j < |ids| ==> ids[i] != ids[j])
              && (forall d, i :: d in docs && 0 <= i < |ids| ==> d.id != ids[i])
  {
    if fault.Some? then Some(Unavailable(fault.value))
    else if !(|ids| == |texts| == |metas|) then Some(LengthMismatch)
    else if exists i, j :: 0 <= i < j < |ids| && ids[i] == ids[j] then Some(DuplicateId)
    else if exists d, i :: d in docs && 0 <= i < |ids| && d.id == ids[i] then Some(DuplicateId)
    else None
  }

  /** An accepted batch keeps every id unique. */
  lemma AddKeepsIdsUnique(docs: seq<Document>, ids: seq<string>, texts: seq<string>, metas: seq<Metadata>)
    requires UniqueIds(docs)
    requires AddError(docs, ids, texts, metas, None).None?
    ensures UniqueIds(docs + Batch(ids, texts, metas))
  {
  }

  /** A collection whose contents the program updates in place. */
  class Collection {
    var docs: seq<Document>

    ghost predicate Valid()
      reads this
    {
      UniqueIds(docs)
    }

    /** A newly created, empty collection. */
    constructor ()
      ensures Valid() && docs == []
    {
      docs := [];
    }

    /** `collection.add(ids=..., documents=..., metadatas=...)`; `fault` is a failure of the backing store. */
    method Add(ids: seq<string>, texts: seq<string>, metas: seq<Metadata>, fault: Option<string>)
      returns (err: Option<StoreError>)
      requires Valid()
      modifies this
      ensures Valid()
      ensures err == AddError(old(docs), ids, texts, metas, fault)
      ensures err.None? ==> docs == old(docs) + Batch(ids, texts, metas)
      ensures err.Some? ==> docs == old(docs)
    {
      err := AddError(docs, ids, texts, metas, fault);
      if err.None? {
        AddKeepsIdsUnique(docs, ids, texts, metas);
        docs := docs + Batch(ids, texts, metas);
      }
    }
  }
}
