/** Attendee registration and the public attendee count. */
module Registration {
  import opened Common
  import opened Models
  import opened Http
  import opened Store

  /** Some decodable attendee already has exactly this email. */
  predicate EmailRegistered(docs: map<Id, Doc<Attendee>>, email: string) {
    exists k :: k in docs && docs[k].Decoded? && docs[k].value.email == email
  }

  /** No two decodable attendees share an email. */
  predicate UniqueEmails(docs: map<Id, Doc<Attendee>>) {
    forall k1, k2 ::
      (k1 in docs && k2 in docs && k1 != k2 && docs[k1].Decoded? && docs[k2].Decoded?) ==> docs[k1].value.email != docs[k2].value.email
  }

  predicate MissingField(req: RegisterRequest) {
    req.fullName == "" || req.email == "" || req.designation == ""
  }

  /** What the handler does before writing: answer at once, or insert this attendee. */
  datatype Decision = Answer(response: Response) | Insert(attendee: Attendee)

  /** The checks of the handler exactly as the code makes them. The email
      lookup's outcome is `lookupFails` (the query errs) or, when it
      answers, whether the email is registered; a failed lookup is read
      like an empty answer, so the insertion goes ahead. */
  function DecideAsWritten(httpMethod: string, body: Option<RegisterRequest>, docs: map<Id, Doc<Attendee>>,
                           lookupFails: bool, now: Time): (d: Decision)
    ensures httpMethod == MethodOptions ==> d == Answer(Preflight)
    ensures httpMethod != MethodOptions && httpMethod != MethodPost ==> d == Answer(Error(StatusMethodNotAllowed, "Method not allowed"))
    ensures httpMethod == MethodPost && body.None? ==> d == Answer(Error(StatusBadRequest, "Invalid request body"))
    ensures httpMethod == MethodPost && body.Some? && MissingField(body.value) ==> d == Answer(Error(StatusBadRequest, "Missing required fields"))
    ensures (httpMethod == MethodPost && body.Some? && !MissingField(body.value) && !lookupFails && EmailRegistered(docs, body.value.email))
              ==> d == Answer(Error(StatusConflict, "Email already registered"))
    ensures d.Insert? <==> (httpMethod == MethodPost && body.Some? && !MissingField(body.value)
                            && (lookupFails || !EmailRegistered(docs, body.value.email)))
    ensures d.Insert? ==> d.attendee == Attendee("", body.value.fullName, body.value.email, body.value.designation, now)
  {
    if httpMethod == MethodOptions then Answer(Preflight)
    else if httpMethod != MethodPost then Answer(Error(StatusMethodNotAllowed, "Method not allowed"))
    else if body.None? then Answer(Error(StatusBadRequest, "Invalid request body"))
    else if MissingField(body.value) then Answer(Error(StatusBadRequest, "Missing required fields"))
    else if !lookupFails && EmailRegistered(docs, body.value.email) then
      Answer(Error(StatusConflict, "Email already registered"))
    else Insert(Attendee("", body.value.fullName, body.value.email, body.value.designation, now))
  }

  /** As written, a failed lookup lets a second attendee with the same email in. */
  lemma AsWrittenAdmitsDuplicate()
    ensures var docs := map["a" := Decoded(Attendee("", "Ann", "ann@example.com", "Developer", 0))];
            var d := DecideAsWritten(MethodPost, Some(RegisterRequest("Bob", "ann@example.com", "Designer")), docs, true, 1);
            && UniqueEmails(docs)
            && d.Insert?
            && !UniqueEmails(docs["b" := Decoded(d.attendee)])
  {
    var docs := map["a" := Decoded(Attendee("", "Ann", "ann@example.com", "Developer", 0))];
    var d := DecideAsWritten(MethodPost, Some(RegisterRequest("Bob", "ann@example.com", "Designer")), docs, true, 1);
    var after := docs["b" := Decoded(d.attendee)];
    assert after["a"].value.email == after["b"].value.email;
  }

  /** The checks of the handler as evidently intended: a failed email lookup
      is answered as a server error, as the handler's failed insertion is.
      The source has no message for this case; "Failed to check email" is
      the model's. */
  function Decide(httpMethod: string, body: Option<RegisterRequest>, docs: map<Id, Doc<Attendee>>,
                  lookupFails: bool, now: Time): (d: Decision)
    ensures httpMethod == MethodOptions ==> d == Answer(Preflight)
    ensures httpMethod != MethodOptions && httpMethod != MethodPost ==> d == Answer(Error(StatusMethodNotAllowed, "Method not allowed"))
    ensures httpMethod == MethodPost && body.None? ==> d == Answer(Error(StatusBadRequest, "Invalid request body"))
    ensures httpMethod == MethodPost && body.Some? && MissingField(body.value) ==> d == Answer(Error(StatusBadRequest, "Missing required fields"))
    ensures (httpMethod == MethodPost && body.Some? && !MissingField(body.value) && lookupFails)
              ==> d == Answer(Error(StatusInternalServerError, "Failed to check email"))
    ensures (httpMethod == MethodPost && body.Some? && !MissingField(body.value) && !lookupFails && EmailRegistered(docs, body.value.email))
              ==> d == Answer(Error(StatusConflict, "Email already registered"))
    ensures d.Insert? <==> (httpMethod == MethodPost && body.Some? && !MissingField(body.value)
                            && !lookupFails && !EmailRegistered(docs, body.value.email))
    ensures d.Insert? ==> d.attendee == Attendee("", body.value.fullName, body.value.email, body.value.designation, now)
  {
    if httpMethod == MethodOptions then Answer(Preflight)
    else if httpMethod != MethodPost then Answer(Error(StatusMethodNotAllowed, "Method not allowed"))
    else if body.None? then Answer(Error(StatusBadRequest, "Invalid request body"))
    else if MissingField(body.value) then Answer(Error(StatusBadRequest, "Missing required fields"))
    else if lookupFails then Answer(Error(StatusInternalServerError, "Failed to check email"))
    else if EmailRegistered(docs, body.value.email) then Answer(Error(StatusConflict, "Email already registered"))
    else Insert(Attendee("", body.value.fullName, body.value.email, body.value.designation, now))
  }

  /** Once an email is registered, registering it again is refused as long
      as the lookup answers. */
  lemma SecondRegistrationConflicts(before: map<Id, Doc<Attendee>>, after: map<Id, Doc<Attendee>>, resp: Response,
                                    first: RegisterRequest, lookupFails: bool, writeFails: bool, now: Time, newId: Id,
                                    second: RegisterRequest, later: Time)
    requires Registered(before, after, resp, MethodPost, Some(first), lookupFails, writeFails, now, newId)
    requires resp.status == StatusCreated
    requires second.email == first.email && !MissingField(second)
    ensures DecideAsWritten(MethodPost, Some(second), after, false, later) == Answer(Error(StatusConflict, "Email already registered"))
  {
    assert after[newId] == Decoded(DecideAsWritten(MethodPost, Some(first), before, lookupFails, now).attendee);
  }

  /** Where the lookup answers, the corrected checks agree with the code. */
  lemma DecideAgreesWhenLookupAnswers(httpMethod: string, body: Option<RegisterRequest>, docs: map<Id, Doc<Attendee>>, now: Time)
    ensures Decide(httpMethod, body, docs, false, now) == DecideAsWritten(httpMethod, body, docs, false, now)
  {
  }

  /** Inserting what the corrected checks admit under a fresh key keeps
      emails unique, whether or not the lookup fails. */
  lemma InsertKeepsEmailsUnique(httpMethod: string, body: Option<RegisterRequest>, docs: map<Id, Doc<Attendee>>,
                                lookupFails: bool, now: Time, newId: Id)
    requires UniqueEmails(docs) && newId !in docs
    requires Decide(httpMethod, body, docs, lookupFails, now).Insert?
    ensures UniqueEmails(docs[newId := Decoded(Decide(httpMethod, body, docs, lookupFails, now).attendee)])
  {
  }

  /** What POST /api/register leaves behind, as written: the answer of the
      checks with the collection unchanged, a failed insertion as 500 with
      the collection unchanged, or the attendee added under `newId` with 201. */
  predicate Registered(before: map<Id, Doc<Attendee>>, after: map<Id, Doc<Attendee>>, resp: Response,
                       httpMethod: string, body: Option<RegisterRequest>, lookupFails: bool, writeFails: bool,
                       now: Time, newId: Id) {
    match DecideAsWritten(httpMethod, body, before, lookupFails, now)
    case Answer(r) => resp == r && after == before
    case Insert(a) =>
      if writeFails then
        resp == Error(StatusInternalServerError, "Failed to register attendee") && after == before
      else
        && resp == Response(StatusCreated, Some(Message("Registration successful")))
        && after == before[newId := Decoded(a)]
  }

  /** POST /api/register, as written. `lookupFails` and `writeFails` say
      whether the email lookup and the insertion fail; `newId` is the id the
      database assigns to the new document. Unique emails stay unique
      whenever the lookup answers; when it fails, they need not (see
      `AsWrittenAdmitsDuplicate`). */
  method RegisterAttendee(attendees: Collection<Attendee>, httpMethod: string, body: Option<RegisterRequest>,
                          lookupFails: bool, writeFails: bool, now: Time, newId: Id) returns (resp: Response)
    requires newId != "" && newId !in attendees.docs
    modifies attendees
    ensures Registered(old(attendees.docs), attendees.docs, resp, httpMethod, body, lookupFails, writeFails, now, newId)
    ensures resp.status == StatusCreated ==> |attendees.docs| == |old(attendees.docs)| + 1
    ensures UniqueEmails(old(attendees.docs)) && !lookupFails ==> UniqueEmails(attendees.docs)
  {
    var d := DecideAsWritten(httpMethod, body, attendees.docs, lookupFails, now);
    match d
    case Answer(r) =>
      resp := r;
    case Insert(a) =>
      if writeFails {
        resp := Error(StatusInternalServerError, "Failed to register attendee");
      } else {
        if UniqueEmails(attendees.docs) && !lookupFails {
          DecideAgreesWhenLookupAnswers(httpMethod, body, attendees.docs, now);
          InsertKeepsEmailsUnique(httpMethod, body, attendees.docs, false, now, newId);
        }
        attendees.docs := attendees.docs[newId := Decoded(a)];
        resp := Response(StatusCreated, Some(Message("Registration successful")));
      }
  }

  /** What GET /api/attendees/count answers: the number of documents the
      iterator yields, decodable or not, or 500 when the read fails. */
  predicate Counted(resp: Response, keys: Fetch<seq<Id>>) {
    && (keys.FetchFailed? ==> resp == Error(StatusInternalServerError, "Failed to count attendees"))
    && (keys.Fetched? ==> resp == Response(StatusOK, Some(CountBody(|keys.value|))))
  }

  /** GET /api/attendees/count. */
  method GetAttendeeCount(attendees: Collection<Attendee>, keys: Fetch<seq<Id>>) returns (resp: Response)
    ensures Counted(resp, keys)
    ensures keys.Fetched? && Enumerates(keys.value, attendees.docs) ==> resp == Response(StatusOK, Some(CountBody(|attendees.docs|)))
  {
    if keys.FetchFailed? {
      return Error(StatusInternalServerError, "Failed to count attendees");
    }
    var count := 0;
    var i := 0;
    while i < |keys.value|
      invariant 0 <= i <= |keys.value|
      invariant count == i
    {
      count := count + 1;
      i := i + 1;
    }
    if Enumerates(keys.value, attendees.docs) {
      EnumerationSize(keys.value, attendees.docs);
    }
    resp := Response(StatusOK, Some(CountBody(count)));
  }

  /** A successful registration makes the count one larger. */
  lemma CountGrowsByOne(before: map<Id, Doc<Attendee>>, after: map<Id, Doc<Attendee>>, k1: seq<Id>, k2: seq<Id>, newId: Id, a: Attendee)
    requires newId !in before && after == before[newId := Decoded(a)]
    requires Enumerates(k1, before) && Enumerates(k2, after)
    ensures |k2| == |k1| + 1
  {
    EnumerationSize(k1, before);
    EnumerationSize(k2, after);
  }
}
