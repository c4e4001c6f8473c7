/** Public self-registration and the registration counter. */
module Registrations {
  import opened Wrappers
  import opened Models
  import opened MockStore
  import opened Handlers
  import Admin

  /** The bound request body; a key missing from the JSON leaves its field empty. */
  datatype RegisterRequest = RegisterRequest(name: string, email: string, designation: string)

  /**
   * The binding rules: the body is a JSON object, every field is required
   * (non-empty), and the email passes the binder's email syntax check
   * `isEmail`, which is not modelled.
   */
  predicate Binds(body: Option<RegisterRequest>, isEmail: string -> bool)
    ensures body.None? ==> !Binds(body, isEmail)
    ensures body.Some? && (body.value.name == "" || body.value.email == "" || body.value.designation == "") ==>
              !Binds(body, isEmail)
    ensures body.Some? && !isEmail(body.value.email) ==> !Binds(body, isEmail)
  {
    && body.Some?
    && body.value.name != ""
    && body.value.email != "" && isEmail(body.value.email)
    && body.value.designation != ""
  }

  /** The record `Register` stores: the request fields verbatim, stamped with the request time. */
  function NewRegistration(req: RegisterRequest, now: int): (r: Registration)
    ensures r.name == req.name && r.email == req.email && r.designation == req.designation
    ensures r.createdAt == now && r.id == ""
  {
    Registration("", req.name, req.email, req.designation, now)
  }

  /**
   * `bindText` is the binder's error message, echoed in a 400 reply; `now` is
   * the request time; `newId` is the fresh, non-empty id the store draws for the new document; and
   * `addFails` stands for an error from the store.
   */
  method Register(db: MockDB, body: Option<RegisterRequest>, bindText: string, isEmail: string -> bool,
                  now: int, newId: string, addFails: bool) returns (reply: Reply<Registration>)
    requires newId != "" && Lookup(db.collections, Admin.RegistrationsCollection, newId).None?
    modifies db
    ensures Binds(body, isEmail) && !addFails ==>
              Contents(db.collections, Admin.RegistrationsCollection).Keys
              == Contents(old(db.collections), Admin.RegistrationsCollection).Keys + {newId}
    ensures !Binds(body, isEmail) ==> reply == Error(400, bindText) && db.collections == old(db.collections)
    ensures Binds(body, isEmail) && addFails ==>
              reply == Error(500, "Failed to create registration") && db.collections == old(db.collections)
    ensures Binds(body, isEmail) && !addFails ==>
              var reg := NewRegistration(body.value, now);
              && db.collections == Put(old(db.collections), Admin.RegistrationsCollection, newId, RegistrationDoc(reg))
              && reply == Ok(201, reg.(id := newId))
    ensures db.nextID == old(db.nextID)
  {
    if !Binds(body, isEmail) {
      return Error(400, bindText);
    }
    var reg := NewRegistration(body.value, now);
    if addFails {
      return Error(500, "Failed to create registration");
    }
    db.AddDocument(Admin.RegistrationsCollection, newId, RegistrationDoc(reg));
    reply := Ok(201, reg.(id := newId));
  }

  /** The new registration can be read back, with the same fields, from its new id. */
  lemma RegisteredIsStored(t: Tables, req: RegisterRequest, now: int, newId: string)
    ensures var t' := Put(t, Admin.RegistrationsCollection, newId, RegistrationDoc(NewRegistration(req, now)));
            && Lookup(t', Admin.RegistrationsCollection, newId).Some?
            && RegistrationFromDoc(Lookup(t', Admin.RegistrationsCollection, newId).value)
               == Some(Registration("", req.name, req.email, req.designation, now))
  {
    RegistrationRoundTrip(NewRegistration(req, now));
  }

  /** Counts every yielded document, whether or not it decodes. */
  method GetRegistrationCount(steps: seq<Next>) returns (reply: Reply<int>)
    ensures Fails(steps) ==> reply == Error(500, "Failed to count registrations")
    ensures !Fails(steps) ==> reply == Ok(200, |Items(steps)|)
  {
    var count := 0;
    var i := 0;
    while i < |steps|
      invariant 0 <= i <= |steps|
      invariant !Fails(steps[..i])
      invariant count == |Items(steps[..i])|
      decreases |steps| - i
    {
      assert steps[..i + 1] == steps[..i] + [steps[i]];
      assert steps[..i + 1][..i] == steps[..i];
      if steps[i].IterErr? {
        return Error(500, "Failed to count registrations");
      }
      count := count + 1;
      i := i + 1;
    }
    assert steps[..i] == steps;
    reply := Ok(200, count);
  }

  /**
   * The count is never below the histogram's total: it includes documents
   * that do not decode, which the histogram skips.
   */
  lemma CountBoundsBreakdown(steps: seq<Next>, bs: seq<DesignationBreakdown>)
    requires !Fails(steps)
    requires Admin.IsBreakdownOf(bs, Admin.Tally(Items(steps)))
    ensures Admin.SumCounts(bs) <= |Items(steps)| == |steps|
  {
    Admin.BreakdownMatchesAttendees(bs, Items(steps));
  }
}
