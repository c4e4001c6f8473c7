/**
 * The public sessions page joins the fetched sessions with the fetched
 * speakers: each session lists the speakers whose id appears in its
 * `speakerIds`.
 */
module SessionsSpeakers {
  import opened Wrappers

  /** A speaker as the front end receives it; the id and the links may be absent. */
  datatype SpeakerView = SpeakerView(
    id: Option<string>,
    name: string,
    bio: string,
    imageUrl: Option<string>,
    linkedinUrl: Option<string>,
    twitterUrl: Option<string>)

  datatype SessionView = SessionView(
    id: Option<string>,
    title: string,
    description: string,
    time: string,
    duration: string,
    speakerIds: Option<seq<string>>)

  /** The ids a session names; a null list names none. */
  function IdsOf(session: SessionView): (ids: seq<string>)
    ensures session.speakerIds.Some? ==> ids == session.speakerIds.value
    ensures session.speakerIds.None? ==> ids == []
  {
    match session.speakerIds
    case Some(ids) => ids
    case None => []
  }

  /** A session with every field kept, plus its speakers. */
  datatype SessionWithSpeakers = SessionWithSpeakers(session: SessionView, speakers: seq<SpeakerView>)

  /** The key a speaker is matched on: its id, or `""` when it has none. */
  function KeyOf(sp: SpeakerView): (k: string)
    ensures sp.id.Some? ==> k == sp.id.value
    ensures sp.id.None? ==> k == ""
  {
    match sp.id
    case Some(id) => id
    case None => ""
  }

  /** The speakers, in list order, whose key is among `ids`. */
  function SpeakersFor(ids: seq<string>, speakers: seq<SpeakerView>): (r: seq<SpeakerView>)
    ensures |r| <= |speakers|
    ensures forall sp :: sp in r ==> sp in speakers && KeyOf(sp) in ids
  {
    if speakers == [] then []
    else if KeyOf(speakers[0]) in ids then [speakers[0]] + SpeakersFor(ids, speakers[1..])
    else SpeakersFor(ids, speakers[1..])
  }

  /** Some session arrived with a null `speakerIds`. */
  predicate HasNullIds(sessions: seq<SessionView>) {
    exists i :: 0 <= i < |sessions| && sessions[i].speakerIds.None?
  }

  /**
   * One entry per session, in session order. The membership test runs only
   * when there are speakers to filter; then a session with a null
   * `speakerIds` throws, and the whole join fails (`None`).
   */
  function WithSpeakers(sessions: seq<SessionView>, speakers: seq<SpeakerView>): (r: Option<seq<SessionWithSpeakers>>)
    ensures r.None? <==> speakers != [] && HasNullIds(sessions)
    ensures r.Some? ==> |r.value| == |sessions|
    ensures r.Some? ==> forall i :: 0 <= i < |sessions| ==>
              r.value[i].session == sessions[i] && r.value[i].speakers == SpeakersFor(IdsOf(sessions[i]), speakers)
  {
    if sessions == [] then Some([])
    else if sessions[0].speakerIds.None? && speakers != [] then None
    else
      assert HasNullIds(sessions) <==> sessions[0].speakerIds.None? || HasNullIds(sessions[1..]) by {
        if HasNullIds(sessions) {
          var i :| 0 <= i < |sessions| && sessions[i].speakerIds.None?;
          if i > 0 {
            assert sessions[1..][i - 1] == sessions[i];
          }
        }
        if HasNullIds(sessions[1..]) {
          var i :| 0 <= i < |sessions[1..]| && sessions[1..][i].speakerIds.None?;
          assert sessions[i + 1] == sessions[1..][i];
        }
      }
      match WithSpeakers(sessions[1..], speakers)
      case None => None
      case Some(rest) => Some([SessionWithSpeakers(sessions[0], SpeakersFor(IdsOf(sessions[0]), speakers))] + rest)
  }

  /** What the sessions page shows once loading ends. */
  datatype Page = Sessions(entries: seq<SessionWithSpeakers>) | LoadFailed(message: string)

  /**
   * The page after fetching both lists (`None` for a failed request): any
   * failure, in either request or in the join, shows the error text instead.
   */
  function PageOf(sessions: Option<seq<SessionView>>, speakers: Option<seq<SpeakerView>>): (p: Page)
    ensures p.LoadFailed? ==> p.message == "Failed to load sessions and speakers"
    ensures p.Sessions? <==>
              sessions.Some? && speakers.Some? && !(speakers.value != [] && HasNullIds(sessions.value))
    ensures p.Sessions? ==> |p.entries| == |sessions.value|
    ensures p.Sessions? ==> WithSpeakers(sessions.value, speakers.value) == Some(p.entries)
  {
    if sessions.None? || speakers.None? then LoadFailed("Failed to load sessions and speakers")
    else match WithSpeakers(sessions.value, speakers.value)
      case None => LoadFailed("Failed to load sessions and speakers")
      case Some(entries) => Sessions(entries)
  }

  /** With no speakers fetched, a null `speakerIds` is harmless: the session lists no one. */
  lemma NullIdsHarmlessWithoutSpeakers(sessions: seq<SessionView>)
    ensures WithSpeakers(sessions, []).Some?
    ensures forall i :: 0 <= i < |sessions| ==> WithSpeakers(sessions, []).value[i].speakers == []
  {
  }

  /** One session with a null `speakerIds` blanks the whole page once any speaker exists. */
  lemma NullIdsFailPage(sessions: seq<SessionView>, speakers: seq<SpeakerView>, i: int)
    requires 0 <= i < |sessions| && sessions[i].speakerIds.None? && speakers != []
    ensures PageOf(Some(sessions), Some(speakers)) == LoadFailed("Failed to load sessions and speakers")
  {
    assert HasNullIds(sessions);
  }

  /** A session lists exactly the fetched speakers whose key it names. */
  lemma {:induction false} SpeakersForMember(ids: seq<string>, speakers: seq<SpeakerView>, sp: SpeakerView)
    ensures sp in SpeakersFor(ids, speakers) <==> sp in speakers && KeyOf(sp) in ids
  {
    if speakers != [] {
      SpeakersForMember(ids, speakers[1..], sp);
      assert speakers == [speakers[0]] + speakers[1..];
    }
  }

  /** The join keeps the speaker list's order: filtering distributes over concatenation. */
  lemma {:induction false} SpeakersForAppend(ids: seq<string>, a: seq<SpeakerView>, b: seq<SpeakerView>)
    ensures SpeakersFor(ids, a + b) == SpeakersFor(ids, a) + SpeakersFor(ids, b)
  {
    if a != [] {
      assert (a + b)[0] == a[0];
      assert (a + b)[1..] == a[1..] + b;
      SpeakersForAppend(ids, a[1..], b);
    } else {
      assert a + b == b;
    }
  }

  /** No speaker is listed more often than it was fetched, however often its id is named. */
  lemma {:induction false} SpeakersForNoDuplicates(ids: seq<string>, speakers: seq<SpeakerView>)
    ensures multiset(SpeakersFor(ids, speakers)) <= multiset(speakers)
  {
    if speakers != [] {
      SpeakersForNoDuplicates(ids, speakers[1..]);
      assert speakers == [speakers[0]] + speakers[1..];
    }
  }

  /**
   * Only the set of ids matters: repeating an id or reordering `speakerIds`
   * changes nothing.
   */
  lemma {:induction false} SpeakersForIdSet(ids1: seq<string>, ids2: seq<string>, speakers: seq<SpeakerView>)
    requires forall id :: id in ids1 <==> id in ids2
    ensures SpeakersFor(ids1, speakers) == SpeakersFor(ids2, speakers)
  {
    if speakers != [] {
      SpeakersForIdSet(ids1, ids2, speakers[1..]);
    }
  }

  /** An id that no fetched speaker has is dropped without trace. */
  lemma {:induction false} UnmatchedIdDropped(ids: seq<string>, missing: string, speakers: seq<SpeakerView>)
    requires forall sp :: sp in speakers ==> KeyOf(sp) != missing
    ensures SpeakersFor(ids + [missing], speakers) == SpeakersFor(ids, speakers)
  {
    if speakers != [] {
      assert speakers[0] in speakers;
      assert KeyOf(speakers[0]) in ids + [missing] <==> KeyOf(speakers[0]) in ids;
      UnmatchedIdDropped(ids, missing, speakers[1..]);
    }
  }

  /** A speaker without an id is listed by any session that names the empty id. */
  lemma SpeakerWithoutId(ids: seq<string>, sp: SpeakerView, speakers: seq<SpeakerView>)
    requires sp.id.None? && sp in speakers
    ensures sp in SpeakersFor(ids, speakers) <==> "" in ids
  {
    SpeakersForMember(ids, speakers, sp);
  }
}
