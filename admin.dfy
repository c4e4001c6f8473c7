/**
 * The admin handlers: password login that issues a signed token, the
 * attendee list, a single attendee, and the designation histogram.
 */
module Admin {
  import opened Wrappers
  import opened Models
  import opened MockStore
  import opened Handlers

  const RegistrationsCollection := "registrations"

  // ---------------------------------------------------------------------
  // Login

  /** The claims of an issued token. */
  datatype Claims = Claims(admin: bool, exp: int)

  /**
   * A signed token (HS256), kept opaque: it is determined by its claims and
   * the signing key, and nothing else about its encoding is modelled.
   */
  datatype Token = Token(claims: Claims, key: string)

  /** Tokens live for 24 hours, in seconds. */
  const TokenLifetime := 24 * 3600

  /**
   * `body` is the decoded request: `None` when it is not a JSON object with a
   * string password, otherwise the password, empty when the key is missing.
   * `now` is the Unix time in seconds; `signingFails` stands for an error
   * from the signing library.
   */
  function AdminLogin(body: Option<string>, adminPassword: string, now: int, signingFails: bool): (reply: Reply<Token>)
    ensures body.None? || body.value == "" ==> reply == Error(400, "Password is required")
    ensures body.Some? && body.value != "" && body.value != adminPassword ==> reply == Error(401, "Invalid password")
    ensures reply.Ok? <==> body == Some(adminPassword) && adminPassword != "" && !signingFails
    ensures reply.Ok? ==> reply.status == 200 && reply.value == Token(Claims(true, now + 86400), adminPassword)
    ensures body == Some(adminPassword) && adminPassword != "" && signingFails ==>
              reply == Error(500, "Failed to generate token")
  {
    if body.None? || body.value == "" then Error(400, "Password is required")
    else if body.value != adminPassword then Error(401, "Invalid password")
    else
      var claims := Claims(true, now + TokenLifetime);
      if signingFails then Error(500, "Failed to generate token")
      else Ok(200, Token(claims, adminPassword))
  }

  /** A token is issued only for the configured password, and only when that is set. */
  lemma TokenOnlyForConfiguredPassword(body: Option<string>, adminPassword: string, now: int, signingFails: bool)
    requires AdminLogin(body, adminPassword, now, signingFails).Ok?
    ensures adminPassword != "" && body == Some(adminPassword)
    ensures AdminLogin(body, adminPassword, now, signingFails).value.claims.exp - now == TokenLifetime
  {
  }

  // ---------------------------------------------------------------------
  // Attendees

  /** A yielded registration document as listed: decoded, with the document id. */
  function AttendeeOf(s: Snapshot): (r: Option<Registration>)
    ensures r.Some? ==> r.value.id == s.id && RegistrationFromDoc(s.data) == Some(r.value.(id := ""))
    ensures r.None? <==> RegistrationFromDoc(s.data).None?
  {
    match RegistrationFromDoc(s.data)
    case Some(reg) => Some(reg.(id := s.id))
    case None => None
  }

  function Attendees(snaps: seq<Snapshot>): seq<Registration> {
    Decoded(snaps, AttendeeOf)
  }

  /**
   * The attendee list. The body is `None` (JSON null) when no document
   * decodes, because the Go slice is then never allocated.
   */
  method GetAttendees(steps: seq<Next>) returns (reply: Reply<Option<seq<Registration>>>)
    ensures Fails(steps) ==> reply == Error(500, "Failed to fetch attendees")
    ensures !Fails(steps) ==> reply.Ok? && reply.status == 200
    ensures !Fails(steps) ==> reply.value == if Attendees(Items(steps)) == [] then None else Some(Attendees(Items(steps)))
  {
    var attendees: seq<Registration> := [];
    var i := 0;
    while i < |steps|
      invariant 0 <= i <= |steps|
      invariant !Fails(steps[..i])
      invariant attendees == Attendees(Items(steps[..i]))
      decreases |steps| - i
    {
      assert steps[..i + 1] == steps[..i] + [steps[i]];
      match steps[i] {
        case IterErr =>
          reply := Error(500, "Failed to fetch attendees");
          return;
        case Got(doc) =>
          match RegistrationFromDoc(doc.data) {
            case None =>
            case Some(reg) =>
              attendees := attendees + [reg.(id := doc.id)];
          }
      }
      i := i + 1;
    }
    assert steps[..i] == steps;
    reply := Ok(200, if attendees == [] then None else Some(attendees));
  }

  /** A listed attendee carries the id of a yielded document that decodes to it. */
  lemma ListedAttendee(snaps: seq<Snapshot>, r: Registration)
    ensures r in Attendees(snaps) <==>
            exists i :: 0 <= i < |snaps| && snaps[i].id == r.id && RegistrationFromDoc(snaps[i].data) == Some(r.(id := ""))
  {
    DecodedMember(snaps, AttendeeOf, r);
    if exists i :: 0 <= i < |snaps| && snaps[i].id == r.id && RegistrationFromDoc(snaps[i].data) == Some(r.(id := "")) {
      var i :| 0 <= i < |snaps| && snaps[i].id == r.id && RegistrationFromDoc(snaps[i].data) == Some(r.(id := ""));
      assert AttendeeOf(snaps[i]) == Some(r);
    }
  }

  /** One attendee by path id; a document that does not decode is a server error. */
  method GetAttendee(db: MockDB, id: string, err: Option<StoreError>) returns (reply: Reply<Registration>)
    ensures err.Some? ==> reply == StoreErrorReply(err.value, "Attendee not found", "Failed to fetch attendee")
    ensures err.None? && Lookup(db.collections, RegistrationsCollection, id).None? ==>
              reply == Error(404, "Attendee not found")
    ensures err.None? && Lookup(db.collections, RegistrationsCollection, id).Some? ==>
              var doc := Lookup(db.collections, RegistrationsCollection, id).value;
              match RegistrationFromDoc(doc)
              case None => reply == Error(500, "Failed to parse attendee data")
              case Some(reg) => reply == Ok(200, reg.(id := id))
  {
    if err.Some? {
      return StoreErrorReply(err.value, "Attendee not found", "Failed to fetch attendee");
    }
    var doc, found := db.GetDocument(RegistrationsCollection, id);
    if !found {
      return StoreErrorReply(NotFound, "Attendee not found", "Failed to fetch attendee");
    }
    match RegistrationFromDoc(doc)
    case None =>
      reply := Error(500, "Failed to parse attendee data");
    case Some(reg) =>
      reply := Ok(200, reg.(id := id));
  }

  // ---------------------------------------------------------------------
  // Designation breakdown

  /** The designations of `regs`, with multiplicity. */
  function Designations(regs: seq<Registration>): (m: multiset<string>)
    ensures |m| == |regs|
    ensures forall d :: d in m <==> exists i :: 0 <= i < |regs| && regs[i].designation == d
  {
    if regs == [] then multiset{}
    else
      var init := regs[..|regs| - 1];
      var m := Designations(init) + multiset{regs[|regs| - 1].designation};
      assert forall i :: 0 <= i < |init| ==> init[i] == regs[i];
      m
  }

  /** How many decodable registrations carry each designation. */
  function Tally(snaps: seq<Snapshot>): multiset<string> {
    Designations(Attendees(snaps))
  }

  /** `bs` lists each designation of `m` exactly once, with its multiplicity as count. */
  ghost predicate IsBreakdownOf(bs: seq<DesignationBreakdown>, m: multiset<string>) {
    && (forall i, j :: 0 <= i < j < |bs| ==> bs[i].designation != bs[j].designation)
    && (forall i :: 0 <= i < |bs| ==> bs[i].designation in m && bs[i].count == m[bs[i].designation])
    && (forall d :: d in m ==> exists i :: 0 <= i < |bs| && bs[i].designation == d)
  }

  function SumCounts(bs: seq<DesignationBreakdown>): int {
    if bs == [] then 0 else bs[0].count + SumCounts(bs[1..])
  }

  /** `counts` holds exactly the designations of `m`, each with its multiplicity. */
  ghost predicate CountsOf(counts: map<string, int>, m: multiset<string>) {
    (forall d :: d in counts <==> d in m) && (forall d :: d in counts ==> counts[d] == m[d])
  }

  /**
   * The histogram. The order of its entries is the unspecified order of a Go
   * map; here any order may be chosen. The body is `None` (JSON null) when no
   * document decodes.
   */
  method GetDesignationBreakdown(steps: seq<Next>) returns (reply: Reply<Option<seq<DesignationBreakdown>>>)
    ensures Fails(steps) ==> reply == Error(500, "Failed to fetch registrations")
    ensures !Fails(steps) ==> reply.Ok? && reply.status == 200
    ensures !Fails(steps) ==> (reply.value.None? <==> Tally(Items(steps)) == multiset{})
    ensures !Fails(steps) && reply.value.Some? ==> IsBreakdownOf(reply.value.value, Tally(Items(steps)))
  {
    var counts: map<string, int> := map[];
    var i := 0;
    while i < |steps|
      invariant 0 <= i <= |steps|
      invariant !Fails(steps[..i])
      invariant CountsOf(counts, Tally(Items(steps[..i])))
      decreases |steps| - i
    {
      assert !Fails(steps[..i + 1]) <== steps[i].Got? by {
        assert steps[..i + 1] == steps[..i] + [steps[i]];
      }
      match steps[i] {
        case IterErr =>
          reply := Error(500, "Failed to fetch registrations");
          return;
        case Got(doc) =>
          TallyStep(steps, i);
          match RegistrationFromDoc(doc.data) {
            case None =>
            case Some(reg) =>
              CountsOfAdd(counts, Tally(Items(steps[..i])), reg.designation);
              counts := counts[reg.designation := (if reg.designation in counts then counts[reg.designation] else 0) + 1];
          }
      }
      i := i + 1;
    }
    assert steps[..i] == steps;
    var breakdown := Entries(counts);
    reply := Ok(200, if breakdown == [] then None else Some(breakdown));
    EntriesAreBreakdown(counts, Tally(Items(steps)), breakdown);
  }

  /** `bs` lists every key of `counts` once, with its count. */
  ghost predicate ListsCounts(bs: seq<DesignationBreakdown>, counts: map<string, int>) {
    && (forall i, j :: 0 <= i < j < |bs| ==> bs[i].designation != bs[j].designation)
    && (forall i :: 0 <= i < |bs| ==> bs[i].designation in counts && bs[i].count == counts[bs[i].designation])
    && (forall d :: d in counts ==> exists i :: 0 <= i < |bs| && bs[i].designation == d)
  }

  /** The second loop of the histogram: one entry per map key, in an unspecified order. */
  method Entries(counts: map<string, int>) returns (bs: seq<DesignationBreakdown>)
    ensures ListsCounts(bs, counts)
  {
    bs := [];
    var pending := counts.Keys;
    while pending != {}
      invariant pending <= counts.Keys
      invariant forall i, j :: 0 <= i < j < |bs| ==> bs[i].designation != bs[j].designation
      invariant forall i :: 0 <= i < |bs| ==>
                  bs[i].designation in counts.Keys - pending && bs[i].count == counts[bs[i].designation]
      invariant forall d :: d in counts.Keys - pending ==> exists i :: 0 <= i < |bs| && bs[i].designation == d
      decreases pending
    {
      var d :| d in pending;
      ghost var before, wasPending := bs, pending;
      bs := bs + [DesignationBreakdown(d, counts[d])];
      pending := pending - {d};
      forall x | x in counts.Keys - pending ensures exists i :: 0 <= i < |bs| && bs[i].designation == x {
        if x == d {
          assert bs[|bs| - 1].designation == x;
        } else {
          assert x in counts.Keys - wasPending;
          var i :| 0 <= i < |before| && before[i].designation == x;
          assert bs[i] == before[i];
        }
      }
    }
    assert counts.Keys - pending == counts.Keys;
  }

  lemma EntriesAreBreakdown(counts: map<string, int>, m: multiset<string>, bs: seq<DesignationBreakdown>)
    requires CountsOf(counts, m) && ListsCounts(bs, counts)
    ensures IsBreakdownOf(bs, m)
    ensures bs == [] <==> m == multiset{}
  {
    if bs != [] {
      assert bs[0].designation in m;
    }
    if m != multiset{} {
      var d :| d in m;
      assert d in counts;
      var i :| 0 <= i < |bs| && bs[i].designation == d;
    }
  }

  /** One more yielded document adds its designation to the tally, if it decodes. */
  lemma TallyStep(steps: seq<Next>, i: int)
    requires 0 <= i < |steps| && steps[i].Got?
    ensures Tally(Items(steps[..i + 1])) ==
            Tally(Items(steps[..i])) + match RegistrationFromDoc(steps[i].snapshot.data)
                                       case Some(reg) => multiset{reg.designation}
                                       case None => multiset{}
  {
    var prefix := steps[..i + 1];
    assert prefix[..i] == steps[..i];
    var before := Attendees(Items(steps[..i]));
    assert Items(prefix) == Items(steps[..i]) + [steps[i].snapshot];
    var after := Attendees(Items(prefix));
    match RegistrationFromDoc(steps[i].snapshot.data)
    case None =>
      assert after == before;
    case Some(reg) =>
      assert after == before + [reg.(id := steps[i].snapshot.id)];
      assert after[..|before|] == before;
  }

  lemma CountsOfAdd(counts: map<string, int>, m: multiset<string>, d: string)
    requires CountsOf(counts, m)
    ensures CountsOf(counts[d := (if d in counts then counts[d] else 0) + 1], m + multiset{d})
  {
  }

  /** Removing every copy of `d` from `m` removes `m[d]` elements. */
  lemma {:induction false} MultisetSplit(m: multiset<string>, d: string)
    ensures |m| == m[d] + |m[d := 0]|
    decreases m[d]
  {
    if m[d] == 0 {
      assert m[d := 0] == m;
    } else {
      var rest := m - multiset{d};
      assert m == rest + multiset{d};
      assert rest[d := 0] == m[d := 0];
      MultisetSplit(rest, d);
    }
  }

  /** The breakdown's counts add up to the number of decodable registrations. */
  lemma {:induction false} BreakdownSum(bs: seq<DesignationBreakdown>, m: multiset<string>)
    requires IsBreakdownOf(bs, m)
    ensures SumCounts(bs) == |m|
  {
    if bs == [] {
      assert forall d :: m[d] == 0;
      assert m == multiset{};
    } else {
      var d := bs[0].designation;
      var m' := m[d := 0];
      var rest := bs[1..];
      forall x | x in m' ensures exists i :: 0 <= i < |rest| && rest[i].designation == x {
        var i :| 0 <= i < |bs| && bs[i].designation == x;
        assert i != 0;
        assert rest[i - 1].designation == x;
      }
      forall i | 0 <= i < |rest| ensures rest[i].designation in m' && rest[i].count == m'[rest[i].designation] {
        assert rest[i] == bs[i + 1];
      }
      assert IsBreakdownOf(rest, m');
      BreakdownSum(rest, m');
      MultisetSplit(m, d);
    }
  }

  /**
   * Every decodable registration is counted under exactly one designation:
   * the histogram's counts sum to the length of the attendee list.
   */
  lemma BreakdownMatchesAttendees(bs: seq<DesignationBreakdown>, snaps: seq<Snapshot>)
    requires IsBreakdownOf(bs, Tally(snaps))
    ensures SumCounts(bs) == |Attendees(snaps)| <= |snaps|
  {
    BreakdownSum(bs, Tally(snaps));
  }
}
