/** Responses: a status code and an optional body. */
module Http {
  import opened Common
  import opened Models

  datatype Body =
    | ErrorText(text: string)                  // plain-text body written by http.Error
    | Message(message: string)                 // a JSON object {"message": ...}
    | TokenBody(token: string)
    | CountBody(count: nat)
    | StatsBody(counts: map<string, nat>)
    | AttendeeList(attendees: seq<Attendee>)
    | SpeakerList(speakers: seq<Speaker>)
    | SessionList(sessions: seq<SessionWithSpeaker>)
    | TodoList(todos: seq<Todo>)
    | SpeakerBody(speaker: Speaker)
    | SessionBody(session: Session)
    | TodoBody(todo: Todo)
    | FileBody(file: string)                   // a static file, by its path under the static root

  datatype Response = Response(status: int, body: Option<Body>)

  /** An error response with its message. */
  function Error(status: int, text: string): Response {
    Response(status, Some(ErrorText(text)))
  }

  /** The answer to a cross-origin preflight: success and no body. */
  const Preflight: Response := Response(StatusOK, None)
}
