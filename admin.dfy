/** The admin data operations: the attendee listing, the designation
    histogram, and the speaker and session upserts. All of them sit behind
    the admin gate (see Routing). */
module Admin {
  import opened Common
  import opened Models
  import opened Http
  import opened Store

  /** `list` is the decoded attendees of `es`, in order, each carrying the key it is stored under. */
  predicate ListsAttendees(list: seq<Attendee>, es: seq<(Id, Attendee)>) {
    |list| == |es| && forall j :: 0 <= j < |es| ==> list[j] == es[j].1.(id := es[j].0)
  }

  /** What GET /api/admin/attendees answers: 500 when the read fails, and
      otherwise 200 with the decodable attendees read, in order. */
  predicate AttendeesListed(resp: Response, keys: Fetch<seq<Id>>, docs: map<Id, Doc<Attendee>>) {
    && (keys.FetchFailed? ==> resp == Error(StatusInternalServerError, "Failed to fetch attendees"))
    && (keys.Fetched? ==>
          && InCollection(keys.value, docs)
          && resp.status == StatusOK && resp.body.Some? && resp.body.value.AttendeeList?
          && ListsAttendees(resp.body.value.attendees, Entries(keys.value, docs)))
  }

  lemma ListsAttendeesStep(list: seq<Attendee>, es: seq<(Id, Attendee)>, k: Id, a: Attendee)
    requires ListsAttendees(list, es)
    ensures ListsAttendees(list + [a.(id := k)], es + [(k, a)])
  {
  }

  /** GET /api/admin/attendees: the stored attendees in iteration order;
      documents that do not decode are skipped. */
  method GetAttendees(attendees: Collection<Attendee>, keys: Fetch<seq<Id>>) returns (resp: Response)
    requires keys.Fetched? ==> InCollection(keys.value, attendees.docs)
    ensures AttendeesListed(resp, keys, attendees.docs)
  {
    if keys.FetchFailed? {
      return Error(StatusInternalServerError, "Failed to fetch attendees");
    }
    var ks := keys.value;
    var list: seq<Attendee> := [];
    for i := 0 to |ks|
      invariant InCollection(ks[..i], attendees.docs)
      invariant ListsAttendees(list, Entries(ks[..i], attendees.docs))
    {
      EntriesStep(ks, attendees.docs, i);
      match attendees.docs[ks[i]]
      case Decoded(a) =>
        ListsAttendeesStep(list, Entries(ks[..i], attendees.docs), ks[i], a);
        list := list + [a.(id := ks[i])];
      case Undecodable =>
    }
    assert ks[..|ks|] == ks;
    assert ListsAttendees(list, Entries(ks, attendees.docs));
    resp := Response(StatusOK, Some(AttendeeList(list)));
  }

  /** The designations of the entries, in order. */
  function Designations(es: seq<(Id, Attendee)>): (ds: seq<string>)
    ensures |ds| == |es|
    ensures forall j :: 0 <= j < |es| ==> ds[j] == es[j].1.designation
  {
    if es == [] then [] else Designations(es[..|es| - 1]) + [es[|es| - 1].1.designation]
  }

  /** One more occurrence of `d`. */
  function Bump(counts: map<string, nat>, d: string): (bumped: map<string, nat>)
    ensures bumped.Keys == counts.Keys + {d}
    ensures bumped[d] == (if d in counts then counts[d] else 0) + 1
    ensures forall e :: e in counts && e != d ==> bumped[e] == counts[e]
  {
    counts[d := (if d in counts then counts[d] else 0) + 1]
  }

  /** The histogram of a sequence of designations: each one that occurs,
      with the number of its occurrences. */
  function Tally(ds: seq<string>): map<string, nat> {
    if ds == [] then map[] else Bump(Tally(ds[..|ds| - 1]), ds[|ds| - 1])
  }

  /** The histogram has exactly the designations that occur, each with the
      number of its occurrences. */
  lemma {:induction false} TallyCounts(ds: seq<string>)
    ensures forall d :: d in Tally(ds) <==> d in ds
    ensures forall d :: d in Tally(ds) ==> Tally(ds)[d] == multiset(ds)[d]
  {
    if ds != [] {
      var init, last := ds[..|ds| - 1], ds[|ds| - 1];
      assert ds == init + [last];
      TallyCounts(init);
    }
  }

  lemma DesignationsStep(es: seq<(Id, Attendee)>, e: (Id, Attendee))
    ensures Designations(es + [e]) == Designations(es) + [e.1.designation]
  {
    assert (es + [e])[..|es|] == es;
  }

  /** Tallying one more entry counts its designation once more. */
  lemma TallyStep(es: seq<(Id, Attendee)>, e: (Id, Attendee))
    ensures var counts := Tally(Designations(es)); var d := e.1.designation;
            Tally(Designations(es + [e])) == Bump(counts, d)
  {
    var ds := Designations(es);
    DesignationsStep(es, e);
    assert (ds + [e.1.designation])[..|ds|] == ds;
  }

  /** The sum of the counts of a histogram. */
  ghost function Total(counts: map<string, nat>): nat
    decreases |counts|
  {
    if counts == map[] then 0
    else
      var d :| d in counts;
      assert |counts - {d}| < |counts| by { assert (counts - {d}).Keys == counts.Keys - {d}; }
      counts[d] + Total(counts - {d})
  }

  /** The total can be split at any key. */
  lemma {:induction false} TotalSplit(counts: map<string, nat>, d: string)
    requires d in counts
    ensures Total(counts) == counts[d] + Total(counts - {d})
    decreases |counts|
  {
    var e :| e in counts && Total(counts) == counts[e] + Total(counts - {e});
    if e != d {
      assert (counts - {e}).Keys == counts.Keys - {e};
      assert (counts - {d}).Keys == counts.Keys - {d};
      TotalSplit(counts - {e}, d);
      TotalSplit(counts - {d}, e);
      assert counts - {e} - {d} == counts - {d} - {e};
    }
  }

  /** Counting one more occurrence adds one to the total. */
  lemma TotalIncrement(counts: map<string, nat>, d: string)
    ensures Total(Bump(counts, d)) == Total(counts) + 1
  {
    var bumped := Bump(counts, d);
    TotalSplit(bumped, d);
    assert bumped - {d} == counts - {d};
    if d in counts {
      TotalSplit(counts, d);
    } else {
      assert counts - {d} == counts;
    }
  }

  /** The counts of a histogram add up to the length of what was tallied. */
  lemma {:induction false} TallyTotal(ds: seq<string>)
    ensures Total(Tally(ds)) == |ds|
  {
    if ds != [] {
      TallyTotal(ds[..|ds| - 1]);
      TotalIncrement(Tally(ds[..|ds| - 1]), ds[|ds| - 1]);
    }
  }

  /** Reading one more key tallies its document when it decodes. */
  lemma TallyEntriesStep(ks: seq<Id>, docs: map<Id, Doc<Attendee>>, i: nat)
    requires InCollection(ks, docs) && i < |ks|
    ensures InCollection(ks[..i], docs) && InCollection(ks[..i + 1], docs)
    ensures var counts := Tally(Designations(Entries(ks[..i], docs)));
            Tally(Designations(Entries(ks[..i + 1], docs))) ==
              match docs[ks[i]]
              case Decoded(a) => Bump(counts, a.designation)
              case Undecodable => counts
  {
    EntriesStep(ks, docs, i);
    if docs[ks[i]].Decoded? {
      TallyStep(Entries(ks[..i], docs), (ks[i], docs[ks[i]].value));
    }
  }

  /** What GET /api/admin/stats answers: 500 when the read fails, and
      otherwise 200 with the histogram of the decodable attendees read. */
  predicate StatsAnswered(resp: Response, keys: Fetch<seq<Id>>, docs: map<Id, Doc<Attendee>>) {
    && (keys.FetchFailed? ==> resp == Error(StatusInternalServerError, "Failed to fetch stats"))
    && (keys.Fetched? ==>
          && InCollection(keys.value, docs)
          && resp == Response(StatusOK, Some(StatsBody(Tally(Designations(Entries(keys.value, docs)))))))
  }

  /** GET /api/admin/stats: the histogram of the designations of the
      decodable attendees. */
  method GetStats(attendees: Collection<Attendee>, keys: Fetch<seq<Id>>) returns (resp: Response)
    requires keys.Fetched? ==> InCollection(keys.value, attendees.docs)
    ensures StatsAnswered(resp, keys, attendees.docs)
  {
    if keys.FetchFailed? {
      return Error(StatusInternalServerError, "Failed to fetch stats");
    }
    var ks := keys.value;
    var counts: map<string, nat> := map[];
    for i := 0 to |ks|
      invariant InCollection(ks[..i], attendees.docs)
      invariant counts == Tally(Designations(Entries(ks[..i], attendees.docs)))
    {
      TallyEntriesStep(ks, attendees.docs, i);
      match attendees.docs[ks[i]]
      case Decoded(a) =>
        counts := Bump(counts, a.designation);
      case Undecodable =>
    }
    assert ks[..|ks|] == ks;
    resp := Response(StatusOK, Some(StatsBody(counts)));
  }

  /** The decodable attendees among `keys` with designation `d`. */
  ghost function Carrying(docs: map<Id, Doc<Attendee>>, keys: seq<Id>, d: string): set<Id> {
    set k | k in docs && k in keys && docs[k].Decoded? && docs[k].value.designation == d
  }

  lemma CarryingStep(docs: map<Id, Doc<Attendee>>, init: seq<Id>, last: Id, d: string)
    requires last !in init
    ensures |Carrying(docs, init + [last], d)| ==
              |Carrying(docs, init, d)| + (if last in docs && docs[last].Decoded? && docs[last].value.designation == d then 1 else 0)
  {
    if last in docs && docs[last].Decoded? && docs[last].value.designation == d {
      assert Carrying(docs, init + [last], d) == Carrying(docs, init, d) + {last};
    } else {
      assert Carrying(docs, init + [last], d) == Carrying(docs, init, d);
    }
  }

  /** Over a full enumeration, the keys read add nothing to the condition. */
  lemma CarryingAll(keys: seq<Id>, docs: map<Id, Doc<Attendee>>, d: string)
    requires Enumerates(keys, docs)
    ensures Carrying(docs, keys, d) == set k | k in docs && docs[k].Decoded? && docs[k].value.designation == d
  {
  }

  /** Reading one more key counts its designation once more when its
      document decodes. */
  lemma OccurrenceStep(keys: seq<Id>, docs: map<Id, Doc<Attendee>>, d: string)
    requires InCollection(keys, docs) && keys != []
    ensures InCollection(keys[..|keys| - 1], docs)
    ensures var last := keys[|keys| - 1];
            multiset(Designations(Entries(keys, docs)))[d] ==
              multiset(Designations(Entries(keys[..|keys| - 1], docs)))[d]
              + (if docs[last].Decoded? && docs[last].value.designation == d then 1 else 0)
  {
    var init, last := keys[..|keys| - 1], keys[|keys| - 1];
    assert InCollection(init, docs);
    var prev := Entries(init, docs);
    if docs[last].Decoded? {
      assert Entries(keys, docs) == prev + [(last, docs[last].value)];
      DesignationsStep(prev, (last, docs[last].value));
      assert multiset(Designations(Entries(keys, docs))) == multiset(Designations(prev)) + multiset{docs[last].value.designation};
    } else {
      assert Entries(keys, docs) == prev;
    }
  }

  /** Reading keys without repeats, a designation occurs among the entries
      once for each decodable document among those keys that carries it. */
  lemma {:induction false} DesignationCount(keys: seq<Id>, docs: map<Id, Doc<Attendee>>, d: string)
    requires InCollection(keys, docs) && Distinct(keys)
    ensures multiset(Designations(Entries(keys, docs)))[d] == |Carrying(docs, keys, d)|
  {
    if keys == [] {
      assert Carrying(docs, keys, d) == {};
    } else {
      var init, last := keys[..|keys| - 1], keys[|keys| - 1];
      SplitLast(keys, docs);
      DesignationCount(init, docs, d);
      CarryingStep(docs, init, last, d);
      OccurrenceStep(keys, docs, d);
    }
  }

  /** Over a full enumeration, a designation occurs among the entries
      exactly when some decodable attendee carries it. */
  lemma DesignationOccurs(keys: seq<Id>, docs: map<Id, Doc<Attendee>>, d: string)
    requires Enumerates(keys, docs)
    ensures d in Designations(Entries(keys, docs)) <==>
              exists k :: k in docs && docs[k].Decoded? && docs[k].value.designation == d
  {
    var es := Entries(keys, docs);
    var ds := Designations(es);
    if d in ds {
      var j :| 0 <= j < |ds| && ds[j] == d;
      assert docs[es[j].0] == Decoded(es[j].1);
    }
    if exists k :: k in docs && docs[k].Decoded? && docs[k].value.designation == d {
      var k :| k in docs && docs[k].Decoded? && docs[k].value.designation == d;
      EntriesComplete(keys, docs, k);
      var j :| 0 <= j < |es| && es[j] == (k, docs[k].value);
      assert ds[j] == d;
    }
  }

  /** The histogram of an enumeration of the attendee collection: its
      designations are exactly those of the decodable attendees, each count
      is the number of decodable attendees with that designation, and the
      counts add up to the number of decodable attendees. */
  lemma StatsSummary(keys: seq<Id>, docs: map<Id, Doc<Attendee>>)
    requires Enumerates(keys, docs)
    ensures var counts := Tally(Designations(Entries(keys, docs)));
            && Total(counts) == |set k | k in docs && docs[k].Decoded?|
            && (forall d :: d in counts <==> exists k :: k in docs && docs[k].Decoded? && docs[k].value.designation == d)
            && forall d :: d in counts ==>
                 counts[d] == |set k | k in docs && docs[k].Decoded? && docs[k].value.designation == d|
  {
    var ds := Designations(Entries(keys, docs));
    var counts := Tally(ds);
    TallyTotal(ds);
    TallyCounts(ds);
    EntriesCount(keys, docs);
    assert (set k | k in docs && k in keys && docs[k].Decoded?) == (set k | k in docs && docs[k].Decoded?);
    forall d
      ensures d in counts <==> exists k :: k in docs && docs[k].Decoded? && docs[k].value.designation == d
    {
      DesignationOccurs(keys, docs, d);
    }
    forall d | d in counts
      ensures counts[d] == |set k | k in docs && docs[k].Decoded? && docs[k].value.designation == d|
    {
      DesignationCount(keys, docs, d);
      CarryingAll(keys, docs, d);
    }
  }

  datatype SpeakerRequest = SpeakerRequest(id: Id, name: string, bio: string, photoURL: string)

  /** What POST /api/admin/speakers leaves behind: 400 for an undecodable
      body or an empty name, 500 for a failed write, and otherwise the
      speaker written under its key and echoed with 200; any answer but 200
      leaves the collection as it was. */
  predicate SpeakerUpserted(before: map<Id, Doc<Speaker>>, after: map<Id, Doc<Speaker>>, resp: Response,
                            body: Option<SpeakerRequest>, writeFails: bool, newId: Id) {
    && (body.None? ==> resp == Error(StatusBadRequest, "Invalid request body"))
    && (body.Some? && body.value.name == "" ==> resp == Error(StatusBadRequest, "Name is required"))
    && ((body.Some? && body.value.name != "" && writeFails) ==>
          resp == Error(StatusInternalServerError, if body.value.id != "" then "Failed to update speaker" else "Failed to create speaker"))
    && ((body.Some? && body.value.name != "" && !writeFails) ==>
          var req := body.value;
          var key := if req.id != "" then req.id else newId;
          && after == before[key := Decoded(Speaker("", req.name, req.bio, req.photoURL))]
          && resp == Response(StatusOK, Some(SpeakerBody(Speaker(key, req.name, req.bio, req.photoURL)))))
    && (resp.status != StatusOK ==> after == before)
  }

  /** POST /api/admin/speakers: store the speaker under the request's id, or
      under a fresh id when the request has none, and echo it with its id.
      `newId` is the id the database assigns on insertion; `writeFails`
      says whether the write fails. */
  method AddUpdateSpeaker(speakers: Collection<Speaker>, body: Option<SpeakerRequest>, writeFails: bool, newId: Id)
      returns (resp: Response)
    requires newId != "" && newId !in speakers.docs
    modifies speakers
    ensures SpeakerUpserted(old(speakers.docs), speakers.docs, resp, body, writeFails, newId)
    ensures resp.status == StatusOK && body.value.id == "" ==> |speakers.docs| == |old(speakers.docs)| + 1
  {
    if body.None? {
      return Error(StatusBadRequest, "Invalid request body");
    }
    var req := body.value;
    if req.name == "" {
      return Error(StatusBadRequest, "Name is required");
    }
    var speaker := Speaker("", req.name, req.bio, req.photoURL);
    if req.id != "" {
      if writeFails {
        return Error(StatusInternalServerError, "Failed to update speaker");
      }
      speakers.docs := speakers.docs[req.id := Decoded(speaker)];
      speaker := speaker.(id := req.id);
    } else {
      if writeFails {
        return Error(StatusInternalServerError, "Failed to create speaker");
      }
      speakers.docs := speakers.docs[newId := Decoded(speaker)];
      speaker := speaker.(id := newId);
    }
    resp := Response(StatusOK, Some(SpeakerBody(speaker)));
  }

  datatype SessionRequest = SessionRequest(id: Id, title: string, description: string, time: string, speakerId: Id)

  /** What POST /api/admin/sessions leaves behind, as for speakers. */
  predicate SessionUpserted(before: map<Id, Doc<Session>>, after: map<Id, Doc<Session>>, resp: Response,
                            body: Option<SessionRequest>, writeFails: bool, newId: Id) {
    && (body.None? ==> resp == Error(StatusBadRequest, "Invalid request body"))
    && (body.Some? && body.value.title == "" ==> resp == Error(StatusBadRequest, "Title is required"))
    && ((body.Some? && body.value.title != "" && writeFails) ==>
          resp == Error(StatusInternalServerError, if body.value.id != "" then "Failed to update session" else "Failed to create session"))
    && ((body.Some? && body.value.title != "" && !writeFails) ==>
          var req := body.value;
          var key := if req.id != "" then req.id else newId;
          && after == before[key := Decoded(Session("", req.title, req.description, req.time, req.speakerId))]
          && resp == Response(StatusOK, Some(SessionBody(Session(key, req.title, req.description, req.time, req.speakerId)))))
    && (resp.status != StatusOK ==> after == before)
  }

  /** POST /api/admin/sessions: as AddUpdateSpeaker, for sessions; the
      speaker reference is stored as given, without checking it resolves. */
  method AddUpdateSession(sessions: Collection<Session>, body: Option<SessionRequest>, writeFails: bool, newId: Id)
      returns (resp: Response)
    requires newId != "" && newId !in sessions.docs
    modifies sessions
    ensures SessionUpserted(old(sessions.docs), sessions.docs, resp, body, writeFails, newId)
    ensures resp.status == StatusOK && body.value.id == "" ==> |sessions.docs| == |old(sessions.docs)| + 1
  {
    if body.None? {
      return Error(StatusBadRequest, "Invalid request body");
    }
    var req := body.value;
    if req.title == "" {
      return Error(StatusBadRequest, "Title is required");
    }
    var session := Session("", req.title, req.description, req.time, req.speakerId);
    if req.id != "" {
      if writeFails {
        return Error(StatusInternalServerError, "Failed to update session");
      }
      sessions.docs := sessions.docs[req.id := Decoded(session)];
      session := session.(id := req.id);
    } else {
      if writeFails {
        return Error(StatusInternalServerError, "Failed to create session");
      }
      sessions.docs := sessions.docs[newId := Decoded(session)];
      session := session.(id := newId);
    }
    resp := Response(StatusOK, Some(SessionBody(session)));
  }
}
