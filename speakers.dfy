/** Speaker listing (public) and speaker create, update and delete (admin). */
module Speakers {
  import opened Wrappers
  import opened Models
  import opened MockStore
  import opened Handlers

  const SpeakersCollection := "speakers"

  /** A yielded speaker document as listed: decoded, with the document id. */
  function SpeakerOf(s: Snapshot): (r: Option<Speaker>)
    ensures r.Some? ==> r.value.id == s.id && SpeakerFromDoc(s.data) == Some(r.value.(id := ""))
    ensures r.None? <==> SpeakerFromDoc(s.data).None?
  {
    match SpeakerFromDoc(s.data)
    case Some(sp) => Some(sp.(id := s.id))
    case None => None
  }

  /** The listing is always an array, empty rather than null when nothing decodes. */
  method GetSpeakers(steps: seq<Next>) returns (reply: Reply<seq<Speaker>>)
    ensures Fails(steps) ==> reply == Error(500, "Failed to fetch speakers")
    ensures !Fails(steps) ==> reply == Ok(200, Decoded(Items(steps), SpeakerOf))
  {
    var speakers: seq<Speaker> := [];
    var i := 0;
    while i < |steps|
      invariant 0 <= i <= |steps|
      invariant !Fails(steps[..i])
      invariant speakers == Decoded(Items(steps[..i]), SpeakerOf)
      decreases |steps| - i
    {
      assert steps[..i + 1] == steps[..i] + [steps[i]];
      match steps[i] {
        case IterErr =>
          reply := Error(500, "Failed to fetch speakers");
          return;
        case Got(doc) =>
          match SpeakerFromDoc(doc.data) {
            case None =>
            case Some(speaker) =>
              speakers := speakers + [speaker.(id := doc.id)];
          }
      }
      i := i + 1;
    }
    assert steps[..i] == steps;
    reply := Ok(200, speakers);
  }

  /**
   * `body` is the bound request (`None` when binding fails, with the
   * binder's message `bindText`); `newId` is the fresh, non-empty id the store
   * draws for the new document; `addFails` stands for an error from the store.
   */
  method CreateSpeaker(db: MockDB, body: Option<Speaker>, bindText: string, newId: string, addFails: bool)
    returns (reply: Reply<Speaker>)
    requires newId != "" && Lookup(db.collections, SpeakersCollection, newId).None?
    modifies db
    ensures body.Some? && !addFails ==>
              Contents(db.collections, SpeakersCollection).Keys == Contents(old(db.collections), SpeakersCollection).Keys + {newId}
    ensures body.None? ==> reply == Error(400, bindText) && db.collections == old(db.collections)
    ensures body.Some? && addFails ==>
              reply == Error(500, "Failed to create speaker") && db.collections == old(db.collections)
    ensures body.Some? && !addFails ==>
              && db.collections == Put(old(db.collections), SpeakersCollection, newId, SpeakerDoc(body.value))
              && reply == Ok(201, body.value.(id := newId))
    ensures db.nextID == old(db.nextID)
  {
    if body.None? {
      return Error(400, bindText);
    }
    var speaker := body.value;
    if addFails {
      return Error(500, "Failed to create speaker");
    }
    db.AddDocument(SpeakersCollection, newId, SpeakerDoc(speaker));
    reply := Ok(201, speaker.(id := newId));
  }

  /** Replaces the whole document at `id` (no merge); `err` is the store's failure, if any. */
  method UpdateSpeaker(db: MockDB, id: string, body: Option<Speaker>, bindText: string, err: Option<StoreError>)
    returns (reply: Reply<Speaker>)
    modifies db
    ensures body.None? ==> reply == Error(400, bindText) && db.collections == old(db.collections)
    ensures body.Some? && err.Some? ==>
              && reply == StoreErrorReply(err.value, "Speaker not found", "Failed to update speaker")
              && db.collections == old(db.collections)
    ensures body.Some? && err.None? ==>
              && db.collections == Put(old(db.collections), SpeakersCollection, id, SpeakerDoc(body.value))
              && reply == Ok(200, body.value.(id := id))
    ensures db.nextID == old(db.nextID)
  {
    if body.None? {
      return Error(400, bindText);
    }
    var updates := body.value;
    if err.Some? {
      return StoreErrorReply(err.value, "Speaker not found", "Failed to update speaker");
    }
    db.AddDocument(SpeakersCollection, id, SpeakerDoc(updates));
    reply := Ok(200, updates.(id := id));
  }

  method DeleteSpeaker(db: MockDB, id: string, err: Option<StoreError>) returns (reply: Reply<string>)
    modifies db
    ensures err.Some? ==>
              && reply == StoreErrorReply(err.value, "Speaker not found", "Failed to delete speaker")
              && db.collections == old(db.collections)
    ensures err.None? ==>
              && db.collections == Remove(old(db.collections), SpeakersCollection, id)
              && reply == Ok(200, "Speaker deleted successfully")
    ensures db.nextID == old(db.nextID)
  {
    if err.Some? {
      return StoreErrorReply(err.value, "Speaker not found", "Failed to delete speaker");
    }
    db.DeleteDocument(SpeakersCollection, id);
    reply := Ok(200, "Speaker deleted successfully");
  }

  /**
   * After an update, the stored speaker is exactly the request body: whatever
   * the old document held, a field the body leaves out reads back empty.
   */
  lemma UpdateReplacesWholeDocument(t: Tables, id: string, updates: Speaker)
    ensures var t' := Put(t, SpeakersCollection, id, SpeakerDoc(updates));
            && Lookup(t', SpeakersCollection, id).Some?
            && SpeakerFromDoc(Lookup(t', SpeakersCollection, id).value) == Some(updates.(id := ""))
  {
    SpeakerRoundTrip(updates);
  }

  /** A listed speaker carries the id of a yielded document that decodes to it. */
  lemma ListedSpeaker(snaps: seq<Snapshot>, sp: Speaker)
    ensures sp in Decoded(snaps, SpeakerOf) <==>
            exists i :: 0 <= i < |snaps| && snaps[i].id == sp.id && SpeakerFromDoc(snaps[i].data) == Some(sp.(id := ""))
  {
    DecodedMember(snaps, SpeakerOf, sp);
    if exists i :: 0 <= i < |snaps| && snaps[i].id == sp.id && SpeakerFromDoc(snaps[i].data) == Some(sp.(id := "")) {
      var i :| 0 <= i < |snaps| && snaps[i].id == sp.id && SpeakerFromDoc(snaps[i].data) == Some(sp.(id := ""));
      assert SpeakerOf(snaps[i]) == Some(sp);
    }
  }
}
