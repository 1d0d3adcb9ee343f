/** The public listings: sessions joined with their speakers at read time,
    and speakers. */
module Sessions {
  import opened Common
  import opened Models
  import opened Http
  import opened Store

  /** The speaker a session refers to, when the reference is not empty and
      names a stored speaker that decodes; that speaker carries the
      referenced id. */
  function ResolveSpeaker(speakers: map<Id, Doc<Speaker>>, speakerId: Id): (s: Option<Speaker>)
    ensures s.Some? <==> speakerId != "" && speakerId in speakers && speakers[speakerId].Decoded?
    ensures s.Some? ==> s.value == speakers[speakerId].value.(id := speakerId)
  {
    if speakerId != "" && speakerId in speakers && speakers[speakerId].Decoded? then
      Some(speakers[speakerId].value.(id := speakerId))
    else None
  }

  /** `list` has one entry per entry of `es`, in order: the session with its
      key as id, joined with the speaker it resolves to, if any. */
  predicate ListsSessions(list: seq<SessionWithSpeaker>, es: seq<(Id, Session)>, speakers: map<Id, Doc<Speaker>>) {
    && |list| == |es|
    && forall j :: 0 <= j < |es| ==>
         list[j] == SessionWithSpeaker(es[j].1.(id := es[j].0), ResolveSpeaker(speakers, es[j].1.speakerId))
  }

  /** Listing one more decodable session extends the listing by its join. */
  lemma ListsSessionsStep(list: seq<SessionWithSpeaker>, es: seq<(Id, Session)>, speakers: map<Id, Doc<Speaker>>,
                          k: Id, s: Session)
    requires ListsSessions(list, es, speakers)
    ensures ListsSessions(list + [SessionWithSpeaker(s.(id := k), ResolveSpeaker(speakers, s.speakerId))], es + [(k, s)], speakers)
  {
  }

  /** What GET /api/sessions answers: 500 when the read of the sessions
      fails, and otherwise 200 with every decodable session read, in order,
      joined with its speaker. */
  predicate SessionsListed(resp: Response, keys: Fetch<seq<Id>>, docs: map<Id, Doc<Session>>, speakers: map<Id, Doc<Speaker>>) {
    && (keys.FetchFailed? ==> resp == Error(StatusInternalServerError, "Failed to fetch sessions"))
    && (keys.Fetched? ==>
          && InCollection(keys.value, docs)
          && resp.status == StatusOK && resp.body.Some? && resp.body.value.SessionList?
          && ListsSessions(resp.body.value.sessions, Entries(keys.value, docs), speakers))
  }

  /** GET /api/sessions. Only the read of the sessions can fail the listing;
      a speaker reference that does not resolve leaves that entry without a
      speaker. */
  method GetSessions(sessions: Collection<Session>, speakers: Collection<Speaker>, keys: Fetch<seq<Id>>)
      returns (resp: Response)
    requires keys.Fetched? ==> InCollection(keys.value, sessions.docs)
    ensures SessionsListed(resp, keys, sessions.docs, speakers.docs)
  {
    if keys.FetchFailed? {
      return Error(StatusInternalServerError, "Failed to fetch sessions");
    }
    var ks := keys.value;
    var list: seq<SessionWithSpeaker> := [];
    for i := 0 to |ks|
      invariant InCollection(ks[..i], sessions.docs)
      invariant ListsSessions(list, Entries(ks[..i], sessions.docs), speakers.docs)
    {
      EntriesStep(ks, sessions.docs, i);
      match sessions.docs[ks[i]]
      case Decoded(s) =>
        var session := s.(id := ks[i]);
        var entry := SessionWithSpeaker(session, None);
        if session.speakerId != "" && session.speakerId in speakers.docs {
          match speakers.docs[session.speakerId]
          case Decoded(sp) =>
            entry := entry.(speaker := Some(sp.(id := session.speakerId)));
          case Undecodable =>
        }
        assert entry == SessionWithSpeaker(s.(id := ks[i]), ResolveSpeaker(speakers.docs, s.speakerId));
        ListsSessionsStep(list, Entries(ks[..i], sessions.docs), speakers.docs, ks[i], s);
        list := list + [entry];
      case Undecodable =>
    }
    assert ks[..|ks|] == ks;
    resp := Response(StatusOK, Some(SessionList(list)));
  }

  /** Over a full enumeration, every decodable session is listed, with its
      key as id and the speaker joined in exactly when the reference resolves. */
  lemma SessionListingComplete(keys: seq<Id>, docs: map<Id, Doc<Session>>, speakers: map<Id, Doc<Speaker>>,
                               list: seq<SessionWithSpeaker>, k: Id)
    requires Enumerates(keys, docs)
    requires ListsSessions(list, Entries(keys, docs), speakers)
    requires k in docs && docs[k].Decoded?
    ensures exists j :: 0 <= j < |list| &&
              list[j] == SessionWithSpeaker(docs[k].value.(id := k), ResolveSpeaker(speakers, docs[k].value.speakerId))
  {
    EntriesComplete(keys, docs, k);
  }

  /** Over a full enumeration, no session is listed twice. */
  lemma SessionListingDistinct(keys: seq<Id>, docs: map<Id, Doc<Session>>, speakers: map<Id, Doc<Speaker>>,
                               list: seq<SessionWithSpeaker>)
    requires Enumerates(keys, docs)
    requires ListsSessions(list, Entries(keys, docs), speakers)
    ensures forall i, j :: 0 <= i < j < |list| ==> list[i].session.id != list[j].session.id
  {
    EntriesDistinct(keys, docs);
    var ek := EntryKeys(Entries(keys, docs));
    assert forall j :: 0 <= j < |list| ==> list[j].session.id == ek[j];
  }

  /** `list` is the decoded speakers of `es`, in order, each carrying its key as id. */
  predicate ListsSpeakers(list: seq<Speaker>, es: seq<(Id, Speaker)>) {
    |list| == |es| && forall j :: 0 <= j < |es| ==> list[j] == es[j].1.(id := es[j].0)
  }

  lemma ListsSpeakersStep(list: seq<Speaker>, es: seq<(Id, Speaker)>, k: Id, s: Speaker)
    requires ListsSpeakers(list, es)
    ensures ListsSpeakers(list + [s.(id := k)], es + [(k, s)])
  {
  }

  /** What GET /api/speakers answers: 500 when the read fails, and
      otherwise 200 with every decodable speaker read, in order. */
  predicate SpeakersListed(resp: Response, keys: Fetch<seq<Id>>, docs: map<Id, Doc<Speaker>>) {
    && (keys.FetchFailed? ==> resp == Error(StatusInternalServerError, "Failed to fetch speakers"))
    && (keys.Fetched? ==>
          && InCollection(keys.value, docs)
          && resp.status == StatusOK && resp.body.Some? && resp.body.value.SpeakerList?
          && ListsSpeakers(resp.body.value.speakers, Entries(keys.value, docs)))
  }

  /** GET /api/speakers. */
  method GetSpeakers(speakers: Collection<Speaker>, keys: Fetch<seq<Id>>) returns (resp: Response)
    requires keys.Fetched? ==> InCollection(keys.value, speakers.docs)
    ensures SpeakersListed(resp, keys, speakers.docs)
  {
    if keys.FetchFailed? {
      return Error(StatusInternalServerError, "Failed to fetch speakers");
    }
    var ks := keys.value;
    var list: seq<Speaker> := [];
    for i := 0 to |ks|
      invariant InCollection(ks[..i], speakers.docs)
      invariant ListsSpeakers(list, Entries(ks[..i], speakers.docs))
    {
      EntriesStep(ks, speakers.docs, i);
      match speakers.docs[ks[i]]
      case Decoded(s) =>
        ListsSpeakersStep(list, Entries(ks[..i], speakers.docs), ks[i], s);
        list := list + [s.(id := ks[i])];
      case Undecodable =>
    }
    assert ks[..|ks|] == ks;
    resp := Response(StatusOK, Some(SpeakerList(list)));
  }
}
