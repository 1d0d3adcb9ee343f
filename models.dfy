/** The stored entities and the way a stored document reads back. */
module Models {
  import opened Common

  datatype Attendee = Attendee(id: Id, fullName: string, email: string, designation: string, createdAt: Time)

  /** The registration payload. */
  datatype RegisterRequest = RegisterRequest(fullName: string, email: string, designation: string)

  datatype Speaker = Speaker(id: Id, name: string, bio: string, photoURL: string)

  /** A session; its time is an opaque string and speakerId may be empty. */
  datatype Session = Session(id: Id, title: string, description: string, time: string, speakerId: Id)

  /** The read-time join of a session with its speaker, when one resolves. */
  datatype SessionWithSpeaker = SessionWithSpeaker(session: Session, speaker: Option<Speaker>)

  datatype Todo = Todo(id: Id, title: string, description: string, completed: bool, createdAt: Time, updatedAt: Time)

  /** A stored document as the decoder into the record type sees it: either
      it decodes to a record, or decoding fails (the handlers skip or reject it). */
  datatype Doc<T> = Decoded(value: T) | Undecodable
}
