/** The conversation session kept across the script's reruns: the selected
    assistant, the thread the conversation lives on and the local transcript.
    Every remote result the script waits for (the assistant listing, the new
    thread id, the run id and terminal status, the thread's messages) is an
    input of the methods below. */
module ChatSession {
  import opened Wrappers
  import opened Service

  /** One transcript entry. */
  datatype Message = Message(role: Role, content: string)

  /** The error notices the script can show. `Unexpected` stands for every
      exception the script's catch-all handler reports; the wording of the
      notices is not modelled. */
  datatype Notice =
    | MissingKey
    | RunNotCompleted(status: string)
    | NoResponse
    | Unexpected

  /** The outcome of the remote calls made for one submission: either one of
      them raised, or the run was created with `runId`, polled to the
      terminal `status`, and the thread then listed `listed` (only read when
      the status is completed). */
  datatype RunOutcome =
    | Raised
    | Finished(runId: string, status: string, listed: seq<ThreadMessage>)

  /** The result of the assistant listing call. */
  datatype Listing = Listed(assistants: seq<AssistantRef>) | ListFailed

  /** The assistant's answer to a finished run, or the notice shown instead. */
  function Reply(runId: string, status: string, listed: seq<ThreadMessage>): (r: Result<string, Notice>)
    ensures (r.Err? && r.error.RunNotCompleted?) <==> status != Completed
    ensures status != Completed ==> r == Err(RunNotCompleted(status))
    ensures r == Err(NoResponse) <==>
              status == Completed && forall i :: 0 <= i < |listed| ==> !IsReplyTo(listed[i], runId)
    ensures status == Completed && (exists i :: LastReplyAt(listed, runId, i) && !AllText(listed[i].content)) ==>
              r == Err(Unexpected)
    ensures r.Ok? <==> status == Completed && exists i :: LastReplyAt(listed, runId, i) && AllText(listed[i].content)
    ensures r.Ok? ==> exists i :: LastReplyAt(listed, runId, i) && AllText(listed[i].content) && r.value == Join(listed[i].content)
  {
    if status != Completed then Err(RunNotCompleted(status))
    else match LatestReply(listed, runId)
      case None => Err(NoResponse)
      case Some(latest) =>
        if AllText(latest.content) then Ok(Join(latest.content)) else Err(Unexpected)
  }

  /** Each assistant entry of a transcript directly follows a user entry: a
      reply is only ever recorded right after the message it answers. */
  predicate WellFormed(transcript: seq<Message>)
  {
    forall i :: 0 <= i < |transcript| && transcript[i].role == Assistant ==>
      0 < i && transcript[i - 1].role == User
  }

  class Session {
    /** The assistant the thread and transcript belong to; None before the first selection. */
    var assistantId: Option<string>
    /** The remote thread of the conversation; None while none has been created. */
    var threadId: Option<string>
    /** The transcript shown to the user, oldest entry first. */
    var messages: seq<Message>

    ghost predicate Valid()
      reads this
    {
      && WellFormed(messages)
      && (assistantId.None? ==> threadId.None?)
      && (messages != [] ==> threadId.Some?)
    }

    /** The session before the script first stores anything in it. */
    constructor ()
      ensures Valid()
      ensures assistantId.None? && threadId.None? && messages == []
    {
      assistantId, threadId, messages := None, None, [];
    }

    /** Records the assistant chosen in the selection widget. A first choice,
        or a choice different from the stored one, starts over: the thread
        is forgotten and the transcript emptied. Choosing the stored
        assistant again changes nothing. */
    method Select(id: string)
      requires Valid()
      modifies this
      ensures Valid()
      ensures assistantId == Some(id)
      ensures old(assistantId) != Some(id) ==> threadId.None? && messages == []
      ensures old(assistantId) == Some(id) ==> threadId == old(threadId) && messages == old(messages)
    {
      if assistantId.None? {
        assistantId := Some(id);
        threadId := None;
        messages := [];
      } else if assistantId.value != id {
        assistantId := Some(id);
        threadId := None;
        messages := [];
      }
    }

    /** Creates the conversation's thread when there is none. `created` is
        what the creation call returns: the new thread's id, or None when it
        raises. An existing thread is kept and no creation is asked for, so
        a second call after a successful one changes nothing. */
    method EnsureThread(created: Option<string>) returns (ok: bool)
      requires Valid() && assistantId.Some?
      modifies this
      ensures Valid()
      ensures assistantId == old(assistantId) && messages == old(messages)
      ensures old(threadId).Some? ==> ok && threadId == old(threadId)
      ensures old(threadId).None? ==> ok == created.Some? && threadId == created
      ensures ok <==> threadId.Some?
    {
      if threadId.None? {
        if created.None? {
          return false;
        }
        threadId := created;
      }
      ok := true;
    }

    /** Handles the text submitted in the chat input. Empty input does
        nothing. Otherwise the user's entry is recorded first; the
        assistant's entry follows only when the run completed and the thread
        holds a reply to it, and in every other case a notice is returned and
        the user's entry stays the last one. */
    method Submit(text: string, outcome: RunOutcome) returns (notice: Option<Notice>)
      requires Valid() && threadId.Some?
      modifies this
      ensures Valid()
      ensures assistantId == old(assistantId) && threadId == old(threadId)
      ensures text == "" ==> messages == old(messages) && notice.None?
      ensures text != "" && outcome.Raised? ==>
                messages == old(messages) + [Message(User, text)] && notice == Some(Unexpected)
      ensures text != "" && outcome.Finished? ==>
                match Reply(outcome.runId, outcome.status, outcome.listed)
                case Ok(response) =>
                  messages == old(messages) + [Message(User, text), Message(Assistant, response)] && notice.None?
                case Err(e) =>
                  messages == old(messages) + [Message(User, text)] && notice == Some(e)
    {
      if text == "" {
        return None;
      }
      messages := messages + [Message(User, text)];
      match outcome
      case Raised =>
        notice := Some(Unexpected);
      case Finished(runId, status, listed) =>
        match Reply(runId, status, listed)
        case Ok(response) =>
          messages := messages + [Message(Assistant, response)];
          notice := None;
        case Err(e) =>
          notice := Some(e);
    }
  }

  /** One execution of the script from the top, against the stored session:
      with the credential present and a non-empty listing, the assistant at
      `choice` is selected, a thread is ensured with `created`, and `input`
      is submitted with `outcome`. A missing credential, a failed or empty
      listing, or a failed thread creation end the execution with a notice. */
  method Rerun(s: Session, keyPresent: bool, listing: Listing, choice: nat,
               created: Option<string>, input: string, outcome: RunOutcome)
    returns (notice: Option<Notice>)
    requires s.Valid()
    requires listing.Listed? && listing.assistants != [] ==> choice < |listing.assistants|
    modifies s
    ensures s.Valid()
    ensures !keyPresent ==> notice == Some(MissingKey)
    ensures !keyPresent || listing.ListFailed? || listing.assistants == [] ==>
              s.assistantId == old(s.assistantId) && s.threadId == old(s.threadId) && s.messages == old(s.messages)
    ensures keyPresent && (listing.ListFailed? || listing.assistants == []) ==> notice == Some(Unexpected)
    ensures keyPresent && listing.Listed? && listing.assistants != [] ==>
              var id := listing.assistants[choice].id;
              var kept := if old(s.assistantId) == Some(id) then old(s.messages) else [];
              && s.assistantId == Some(id)
              && (old(s.assistantId) == Some(id) && old(s.threadId).Some? ==> s.threadId == old(s.threadId))
              && (old(s.assistantId) != Some(id) || old(s.threadId).None? ==> s.threadId == created)
              && (s.threadId.None? ==> s.messages == kept && notice == Some(Unexpected))
              && (s.threadId.Some? && input == "" ==> s.messages == kept && notice.None?)
              && (s.threadId.Some? && input != "" && outcome.Raised? ==>
                    s.messages == kept + [Message(User, input)] && notice == Some(Unexpected))
              && (s.threadId.Some? && input != "" && outcome.Finished? ==>
                    match Reply(outcome.runId, outcome.status, outcome.listed)
                    case Ok(response) =>
                      s.messages == kept + [Message(User, input), Message(Assistant, response)] && notice.None?
                    case Err(e) =>
                      s.messages == kept + [Message(User, input)] && notice == Some(e))
  {
    if !keyPresent {
      return Some(MissingKey);
    }
    if listing.ListFailed? || listing.assistants == [] {
      return Some(Unexpected);
    }
    var ids := Ids(listing.assistants);
    var id := ids[choice];
    s.Select(id);
    var ok := s.EnsureThread(created);
    if !ok {
      return Some(Unexpected);
    }
    notice := s.Submit(input, outcome);
  }
}
