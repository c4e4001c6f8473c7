/**
 * The in-memory document table used in tests: collection name -> document id
 * -> document. The specification functions work on the table as a value; the
 * class `MockDB` keeps the table in a field that its methods update in place.
 */
module MockStore {
  import opened Wrappers
  import opened Models

  type Collection = map<string, Document>
  type Tables = map<string, Collection>

  /** The document stored at (c, id), if any. */
  function Lookup(t: Tables, c: string, id: string): (r: Option<Document>)
    ensures r.Some? <==> c in t && id in t[c]
  {
    if c in t && id in t[c] then Some(t[c][id]) else None
  }

  /** The table after storing `d` at (c, id), creating the collection if needed. */
  function Put(t: Tables, c: string, id: string, d: Document): (r: Tables)
    ensures r.Keys == t.Keys + {c}
    ensures Lookup(r, c, id) == Some(d)
    ensures forall c', id' :: (c' != c || id' != id) ==> Lookup(r, c', id') == Lookup(t, c', id')
  {
    var col := if c in t then t[c] else map[];
    t[c := col[id := d]]
  }

  /** The table after removing (c, id); an absent collection or id changes nothing. */
  function Remove(t: Tables, c: string, id: string): (r: Tables)
    ensures r.Keys == t.Keys
    ensures Lookup(r, c, id).None?
    ensures forall c', id' :: (c' != c || id' != id) ==> Lookup(r, c', id') == Lookup(t, c', id')
  {
    if c in t then t[c := t[c] - {id}] else t
  }

  /** The documents of one collection, or none when it is absent. */
  function Contents(t: Tables, c: string): (r: Collection)
    ensures forall id :: id in r <==> Lookup(t, c, id).Some?
    ensures forall id :: id in r ==> Lookup(t, c, id) == Some(r[id])
  {
    if c in t then t[c] else map[]
  }

  lemma {:induction false} LookupAfterPut(t: Tables, c: string, id: string, d: Document)
    ensures Lookup(Put(t, c, id, d), c, id) == Some(d)
    ensures Contents(Put(t, c, id, d), c) == Contents(t, c)[id := d]
  {
    var r := Put(t, c, id, d);
    forall id' ensures id' in Contents(r, c) <==> id' in Contents(t, c)[id := d] {
      if id' != id {
        assert Lookup(r, c, id') == Lookup(t, c, id');
      }
    }
  }

  /** Deleting twice is deleting once. */
  lemma RemoveIdempotent(t: Tables, c: string, id: string)
    ensures Remove(Remove(t, c, id), c, id) == Remove(t, c, id)
  {
    if c in t {
      assert t[c] - {id} - {id} == t[c] - {id};
    }
  }

  /** Deleting a document that was just stored leaves the collection, possibly empty. */
  lemma RemoveAfterPut(t: Tables, c: string, id: string, d: Document)
    ensures c in Remove(Put(t, c, id, d), c, id)
    ensures Lookup(Remove(Put(t, c, id, d), c, id), c, id).None?
    ensures c !in t ==> Contents(Remove(Put(t, c, id, d), c, id), c) == map[]
  {
  }

  class MockDB {
    var collections: Tables
    var nextID: int

    /** A fresh table: no collections, and the id counter at 1. */
    constructor ()
      ensures collections == map[] && nextID == 1
    {
      collections := map[];
      nextID := 1;
    }

    method AddDocument(collectionName: string, docID: string, data: Document)
      modifies this
      ensures collections == Put(old(collections), collectionName, docID, data)
      ensures nextID == old(nextID)
    {
      if collectionName !in collections {
        collections := collections[collectionName := map[]];
      }
      collections := collections[collectionName := collections[collectionName][docID := data]];
    }

    /** The stored document and `true`, or an empty document and `false`. */
    method GetDocument(collectionName: string, docID: string) returns (doc: Document, exists_: bool)
      ensures exists_ <==> Lookup(collections, collectionName, docID).Some?
      ensures exists_ ==> doc == Lookup(collections, collectionName, docID).value
      ensures !exists_ ==> doc == map[]
    {
      if collectionName !in collections {
        return map[], false;
      }
      var col := collections[collectionName];
      if docID in col {
        doc, exists_ := col[docID], true;
      } else {
        doc, exists_ := map[], false;
      }
    }

    /**
     * A copy of one collection, built key by key. The copy is shallow: the
     * documents themselves are shared with the table. Documents are values
     * here, so that sharing is not represented.
     */
    method GetAllDocuments(collectionName: string) returns (result: Collection)
      ensures result.Keys == Contents(collections, collectionName).Keys
      ensures forall id :: id in result ==> Lookup(collections, collectionName, id) == Some(result[id])
    {
      if collectionName !in collections {
        return map[];
      }
      var col := collections[collectionName];
      result := map[];
      var pending := col.Keys;
      while pending != {}
        invariant pending <= col.Keys
        invariant result.Keys == col.Keys - pending
        invariant forall k :: k in result ==> result[k] == col[k]
        decreases pending
      {
        var k :| k in pending;
        result := result[k := col[k]];
        pending := pending - {k};
      }
    }

    method DeleteDocument(collectionName: string, docID: string)
      modifies this
      ensures collections == Remove(old(collections), collectionName, docID)
      ensures nextID == old(nextID)
    {
      if collectionName in collections {
        collections := collections[collectionName := collections[collectionName] - {docID}];
      }
    }
  }
}
