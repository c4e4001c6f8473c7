/**
 * The record types every handler uses, and how each is written to a stored
 * document and to a JSON response body.
 *
 * A stored document and a JSON object are both modelled as a map from field
 * key to a field value. The record's `id` is never written to the store and
 * never read back from it (the struct tag `firestore:"-"`), but it is part of
 * the JSON form. A speaker's image, LinkedIn and Twitter URLs are left out of
 * both forms when they are empty (`omitempty`).
 */
module Models {
  import opened Wrappers

  /** A field value as the document store and the JSON encoder see it. */
  datatype Value = Str(s: string) | Time(instant: int) | Strs(items: seq<string>) | Num(n: int) | Null

  type Document = map<string, Value>

  /** Go's zero `time.Time` (0001-01-01T00:00:00Z) in Unix seconds. */
  const ZeroTime := -62135596800

  datatype Registration = Registration(id: string, name: string, email: string, designation: string, createdAt: int)

  datatype Speaker = Speaker(id: string, name: string, bio: string, imageUrl: string, linkedinUrl: string, twitterUrl: string)

  datatype Session = Session(id: string, title: string, description: string, time: string, duration: string, speakerIds: seq<string>)

  /** A computed view: it has a JSON form and is never stored. */
  datatype DesignationBreakdown = DesignationBreakdown(designation: string, count: int)

  // ---------------------------------------------------------------------
  // Writing records

  /** The single-entry map for an `omitempty` string field, or nothing. */
  function OmitEmpty(key: string, s: string): (d: Document)
    ensures key in d <==> s != ""
    ensures d.Keys <= {key}
    ensures key in d ==> d[key] == Str(s)
  {
    if s == "" then map[] else map[key := Str(s)]
  }

  /** Every field but the id is written under its key, even when empty. */
  function RegistrationDoc(r: Registration): (d: Document)
    ensures "id" !in d
    ensures d.Keys == {"name", "email", "designation", "createdAt"}
    ensures d["name"] == Str(r.name) && d["email"] == Str(r.email)
    ensures d["designation"] == Str(r.designation) && d["createdAt"] == Time(r.createdAt)
  {
    map["name" := Str(r.name), "email" := Str(r.email), "designation" := Str(r.designation),
        "createdAt" := Time(r.createdAt)]
  }

  function RegistrationJson(r: Registration): (j: Document)
    ensures j == RegistrationDoc(r)["id" := Str(r.id)]
  {
    map["id" := Str(r.id), "name" := Str(r.name), "email" := Str(r.email),
        "designation" := Str(r.designation), "createdAt" := Time(r.createdAt)]
  }

  /** The three optional URLs of a speaker, each omitted when empty. */
  function SpeakerLinks(s: Speaker): (d: Document)
    ensures "imageUrl" in d <==> s.imageUrl != ""
    ensures "linkedinUrl" in d <==> s.linkedinUrl != ""
    ensures "twitterUrl" in d <==> s.twitterUrl != ""
    ensures d.Keys <= {"imageUrl", "linkedinUrl", "twitterUrl"}
  {
    OmitEmpty("imageUrl", s.imageUrl) + OmitEmpty("linkedinUrl", s.linkedinUrl)
      + OmitEmpty("twitterUrl", s.twitterUrl)
  }

  function SpeakerDoc(s: Speaker): (d: Document)
    ensures "id" !in d
    ensures "name" in d && "bio" in d
    ensures d.Keys == {"name", "bio"} + SpeakerLinks(s).Keys
    ensures d["name"] == Str(s.name) && d["bio"] == Str(s.bio)
    ensures forall k :: k in SpeakerLinks(s) ==> d[k] == SpeakerLinks(s)[k]
    ensures "imageUrl" in d <==> s.imageUrl != ""
    ensures "linkedinUrl" in d <==> s.linkedinUrl != ""
    ensures "twitterUrl" in d <==> s.twitterUrl != ""
  {
    map["name" := Str(s.name), "bio" := Str(s.bio)] + SpeakerLinks(s)
  }

  function SpeakerJson(s: Speaker): (j: Document)
    ensures j == SpeakerDoc(s)["id" := Str(s.id)]
  {
    map["id" := Str(s.id), "name" := Str(s.name), "bio" := Str(s.bio)] + SpeakerLinks(s)
  }

  /** Every field but the id is written under its key, even when empty. */
  function SessionDoc(s: Session): (d: Document)
    ensures "id" !in d
    ensures d.Keys == {"title", "description", "time", "duration", "speakerIds"}
    ensures d["title"] == Str(s.title) && d["description"] == Str(s.description)
    ensures d["time"] == Str(s.time) && d["duration"] == Str(s.duration)
    ensures d["speakerIds"] == Strs(s.speakerIds)
  {
    map["title" := Str(s.title), "description" := Str(s.description), "time" := Str(s.time),
        "duration" := Str(s.duration), "speakerIds" := Strs(s.speakerIds)]
  }

  function SessionJson(s: Session): (j: Document)
    ensures j == SessionDoc(s)["id" := Str(s.id)]
  {
    map["id" := Str(s.id), "title" := Str(s.title), "description" := Str(s.description),
        "time" := Str(s.time), "duration" := Str(s.duration), "speakerIds" := Strs(s.speakerIds)]
  }

  function BreakdownJson(b: DesignationBreakdown): (j: Document)
    ensures j.Keys == {"designation", "count"}
    ensures j["designation"] == Str(b.designation) && j["count"] == Num(b.count)
  {
    map["designation" := Str(b.designation), "count" := Num(b.count)]
  }

  // ---------------------------------------------------------------------
  // Reading records back (the store's `DataTo`): a missing or null field
  // gives the zero value, a field of the wrong kind is a decode failure,
  // and keys the record does not name are ignored.

  function StringField(d: Document, key: string): (r: Option<string>)
    ensures key !in d ==> r == Some("")
  {
    if key !in d then Some("")
    else match d[key]
      case Str(s) => Some(s)
      case Null => Some("")
      case _ => None
  }

  function TimeField(d: Document, key: string): (r: Option<int>)
    ensures key !in d ==> r == Some(ZeroTime)
  {
    if key !in d then Some(ZeroTime)
    else match d[key]
      case Time(t) => Some(t)
      case Null => Some(ZeroTime)
      case _ => None
  }

  function StringsField(d: Document, key: string): (r: Option<seq<string>>)
    ensures key !in d ==> r == Some([])
  {
    if key !in d then Some([])
    else match d[key]
      case Strs(xs) => Some(xs)
      case Null => Some([])
      case _ => None
  }

  function RegistrationFromDoc(d: Document): (r: Option<Registration>)
    ensures r.Some? ==> r.value.id == ""
  {
    var name :- StringField(d, "name");
    var email :- StringField(d, "email");
    var designation :- StringField(d, "designation");
    var createdAt :- TimeField(d, "createdAt");
    Some(Registration("", name, email, designation, createdAt))
  }

  function SpeakerFromDoc(d: Document): (r: Option<Speaker>)
    ensures r.Some? ==> r.value.id == ""
  {
    var name :- StringField(d, "name");
    var bio :- StringField(d, "bio");
    var imageUrl :- StringField(d, "imageUrl");
    var linkedinUrl :- StringField(d, "linkedinUrl");
    var twitterUrl :- StringField(d, "twitterUrl");
    Some(Speaker("", name, bio, imageUrl, linkedinUrl, twitterUrl))
  }

  function SessionFromDoc(d: Document): (r: Option<Session>)
    ensures r.Some? ==> r.value.id == ""
  {
    var title :- StringField(d, "title");
    var description :- StringField(d, "description");
    var time :- StringField(d, "time");
    var duration :- StringField(d, "duration");
    var speakerIds :- StringsField(d, "speakerIds");
    Some(Session("", title, description, time, duration, speakerIds))
  }

  // ---------------------------------------------------------------------
  // Round trips: storing a record and reading it back loses only its id.

  lemma RegistrationRoundTrip(r: Registration)
    ensures RegistrationFromDoc(RegistrationDoc(r)) == Some(r.(id := ""))
  {
  }

  lemma SpeakerRoundTrip(s: Speaker)
    ensures SpeakerFromDoc(SpeakerDoc(s)) == Some(s.(id := ""))
  {
  }

  lemma SessionRoundTrip(s: Session)
    ensures SessionFromDoc(SessionDoc(s)) == Some(s.(id := ""))
  {
  }

  /**
   * ASCII upper case folded to lower case. The store client's own folding
   * goes further (it also equates the long s with 's' and the Kelvin sign
   * with 'k'); only the ASCII part is modelled.
   */
  function LowerChar(c: char): (r: char)
    ensures 'A' <= c <= 'Z' ==> r == c - 'A' + 'a'
    ensures !('A' <= c <= 'Z') ==> r == c
  {
    if 'A' <= c <= 'Z' then c - 'A' + 'a' else c
  }

  /** The two keys are equal up to ASCII case. */
  predicate EqualFold(a: string, b: string) {
    |a| == |b| && forall i :: 0 <= i < |a| ==> LowerChar(a[i]) == LowerChar(b[i])
  }

  /**
   * A stored `id` key, or any other key that is not a registration field
   * name even up to case, is ignored.
   */
  lemma RegistrationIgnoresOtherKeys(d: Document, k: string, v: Value)
    requires !EqualFold(k, "name") && !EqualFold(k, "email")
    requires !EqualFold(k, "designation") && !EqualFold(k, "createdAt")
    ensures RegistrationFromDoc(d[k := v]) == RegistrationFromDoc(d)
  {
    assert StringField(d[k := v], "name") == StringField(d, "name");
    assert StringField(d[k := v], "email") == StringField(d, "email");
    assert StringField(d[k := v], "designation") == StringField(d, "designation");
    assert TimeField(d[k := v], "createdAt") == TimeField(d, "createdAt");
  }
}
