/** Session listing (public) and session create, update and delete (admin). */
module Sessions {
  import opened Wrappers
  import opened Models
  import opened MockStore
  import opened Handlers

  const SessionsCollection := "sessions"

  /** A yielded session document as listed: decoded, with the document id. */
  function SessionOf(s: Snapshot): (r: Option<Session>)
    ensures r.Some? ==> r.value.id == s.id && SessionFromDoc(s.data) == Some(r.value.(id := ""))
    ensures r.None? <==> SessionFromDoc(s.data).None?
  {
    match SessionFromDoc(s.data)
    case Some(session) => Some(session.(id := s.id))
    case None => None
  }

  /** The listing is always an array, empty rather than null when nothing decodes. */
  method GetSessions(steps: seq<Next>) returns (reply: Reply<seq<Session>>)
    ensures Fails(steps) ==> reply == Error(500, "Failed to fetch sessions")
    ensures !Fails(steps) ==> reply == Ok(200, Decoded(Items(steps), SessionOf))
  {
    var sessions: seq<Session> := [];
    var i := 0;
    while i < |steps|
      invariant 0 <= i <= |steps|
      invariant !Fails(steps[..i])
      invariant sessions == Decoded(Items(steps[..i]), SessionOf)
      decreases |steps| - i
    {
      assert steps[..i + 1] == steps[..i] + [steps[i]];
      match steps[i] {
        case IterErr =>
          reply := Error(500, "Failed to fetch sessions");
          return;
        case Got(doc) =>
          match SessionFromDoc(doc.data) {
            case None =>
            case Some(session) =>
              sessions := sessions + [session.(id := doc.id)];
          }
      }
      i := i + 1;
    }
    assert steps[..i] == steps;
    reply := Ok(200, sessions);
  }

  /**
   * `body` is the bound request (`None` when binding fails, with the
   * binder's message `bindText`); `newId` is the fresh, non-empty id the store
   * draws for the new document; `addFails` stands for an error from the store.
   */
  method CreateSession(db: MockDB, body: Option<Session>, bindText: string, newId: string, addFails: bool)
    returns (reply: Reply<Session>)
    requires newId != "" && Lookup(db.collections, SessionsCollection, newId).None?
    modifies db
    ensures body.Some? && !addFails ==>
              Contents(db.collections, SessionsCollection).Keys == Contents(old(db.collections), SessionsCollection).Keys + {newId}
    ensures body.None? ==> reply == Error(400, bindText) && db.collections == old(db.collections)
    ensures body.Some? && addFails ==>
              reply == Error(500, "Failed to create session") && db.collections == old(db.collections)
    ensures body.Some? && !addFails ==>
              && db.collections == Put(old(db.collections), SessionsCollection, newId, SessionDoc(body.value))
              && reply == Ok(201, body.value.(id := newId))
    ensures db.nextID == old(db.nextID)
  {
    if body.None? {
      return Error(400, bindText);
    }
    var session := body.value;
    if addFails {
      return Error(500, "Failed to create session");
    }
    db.AddDocument(SessionsCollection, newId, SessionDoc(session));
    reply := Ok(201, session.(id := newId));
  }

  /** Replaces the whole document at `id` (no merge); `err` is the store's failure, if any. */
  method UpdateSession(db: MockDB, id: string, body: Option<Session>, bindText: string, err: Option<StoreError>)
    returns (reply: Reply<Session>)
    modifies db
    ensures body.None? ==> reply == Error(400, bindText) && db.collections == old(db.collections)
    ensures body.Some? && err.Some? ==>
              && reply == StoreErrorReply(err.value, "Session not found", "Failed to update session")
              && db.collections == old(db.collections)
    ensures body.Some? && err.None? ==>
              && db.collections == Put(old(db.collections), SessionsCollection, id, SessionDoc(body.value))
              && reply == Ok(200, body.value.(id := id))
    ensures db.nextID == old(db.nextID)
  {
    if body.None? {
      return Error(400, bindText);
    }
    var updates := body.value;
    if err.Some? {
      return StoreErrorReply(err.value, "Session not found", "Failed to update session");
    }
    db.AddDocument(SessionsCollection, id, SessionDoc(updates));
    reply := Ok(200, updates.(id := id));
  }

  method DeleteSession(db: MockDB, id: string, err: Option<StoreError>) returns (reply: Reply<string>)
    modifies db
    ensures err.Some? ==>
              && reply == StoreErrorReply(err.value, "Session not found", "Failed to delete session")
              && db.collections == old(db.collections)
    ensures err.None? ==>
              && db.collections == Remove(old(db.collections), SessionsCollection, id)
              && reply == Ok(200, "Session deleted successfully")
    ensures db.nextID == old(db.nextID)
  {
    if err.Some? {
      return StoreErrorReply(err.value, "Session not found", "Failed to delete session");
    }
    db.DeleteDocument(SessionsCollection, id);
    reply := Ok(200, "Session deleted successfully");
  }

  /**
   * After an update, the stored session is exactly the request body: whatever
   * the old document held, a field the body leaves out reads back empty.
   */
  lemma UpdateReplacesWholeDocument(t: Tables, id: string, updates: Session)
    ensures var t' := Put(t, SessionsCollection, id, SessionDoc(updates));
            && Lookup(t', SessionsCollection, id).Some?
            && SessionFromDoc(Lookup(t', SessionsCollection, id).value) == Some(updates.(id := ""))
  {
    SessionRoundTrip(updates);
  }

  /** A listed session carries the id of a yielded document that decodes to it. */
  lemma ListedSession(snaps: seq<Snapshot>, session: Session)
    ensures session in Decoded(snaps, SessionOf) <==>
            exists i :: 0 <= i < |snaps| && snaps[i].id == session.id && SessionFromDoc(snaps[i].data) == Some(session.(id := ""))
  {
    DecodedMember(snaps, SessionOf, session);
    if exists i :: 0 <= i < |snaps| && snaps[i].id == session.id && SessionFromDoc(snaps[i].data) == Some(session.(id := "")) {
      var i :| 0 <= i < |snaps| && snaps[i].id == session.id && SessionFromDoc(snaps[i].data) == Some(session.(id := ""));
      assert SessionOf(snaps[i]) == Some(session);
    }
  }
}
