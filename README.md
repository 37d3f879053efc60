# Chat session of the assistant front-end, in Dafny

`app.py` is a Streamlit script that lets a user pick one of the assistants
configured on the OpenAI Assistants service and chat with it. Streamlit runs
the script from the top on every interaction; what survives between runs is a
session record with three fields: the selected assistant id, the id of the
remote conversation thread, and the transcript shown to the user. This project
models that session and the script's logic around it:

- `Service` (service.dfy): the records the service returns (assistants, thread
  messages with their role, run id and content blocks) and the pure
  expressions the script evaluates on them: the name and id lists built from
  the listing, the filter that keeps the assistant's messages of one run, the
  choice of the last of them, and the join of its text blocks.
- `ChatSession` (session.dfy): the transcript entry, the notices the script
  shows, the decision that turns a finished run into a reply or a notice, the
  `Session` class whose three fields the methods update in place (`Select`,
  `EnsureThread`, `Submit`), and `Rerun`, one execution of the script against
  a stored session.
- `Scenarios` (scenarios.dfy): example conversations checked against the
  contracts only (choosing the second of two assistants, a thread check made
  twice, switching assistants, a completed run, a failed run, a completed run
  with no reply, a reply holding a non-text block, a missing credential, a
  failed listing, an empty listing, two blocks joined).
- `Wrappers` (wrappers.dfy): `Option` and `Result`.

The session's invariant (`Session.Valid`) says that a thread exists only once
an assistant is selected, that a non-empty transcript always has a thread, and
that every assistant entry directly follows a user entry. Every method keeps
it.

Every remote call becomes an input: the assistant listing (`Listing`), the id
a thread creation returns (`created`, None when the call raises), and for a
submission the run id, its terminal status after polling and the thread's
message listing (`RunOutcome`, `Raised` when any of those calls raises).
Whether the credential is set is the boolean `keyPresent`.

How the model reads the code where it is easy to misread:

- The code has one catch-all handler. A failed listing, an empty listing (the
  selection widget then yields no index and indexing the id list raises), a
  failed thread creation, a failed remote call during a submission, and a
  reply holding a non-text content block all end in the same generic notice,
  `Unexpected`. There is no separate "service unavailable" kind.
- Lines 48-49 (creating an absent transcript) never change anything: lines
  32-41 always store a transcript before them. An absent transcript and an
  empty one are the same value in the model.
- An absent thread id and a thread id of None are the same value in the
  model, as the test at line 43 treats them alike.
- The reply taken is the last matching message in the order the service lists
  them, as the code does; which message that is in time depends on the
  service's listing order, which is not part of this model.

## Model

| member | source | states |
|---|---|---|
| `Service.Names` | app.py:20 | the name list has one entry per listed assistant, the i-th being the i-th assistant's name |
| `Service.Ids` | app.py:21 | the id list has one entry per listed assistant, the i-th being the i-th assistant's id |
| `Service.SelectionAgrees` | app.py:20-29 | the two lists have equal length, and the id taken at the chosen position of the name list belongs to the assistant whose name was shown there |
| `Service.RepliesTo` | app.py:90-93 | the filtered list holds exactly the listed messages meeting `IsReplyTo` (written by the assistant and tagged with the run id), and is no longer than the listing |
| `Service.RepliesToAppend` | app.py:90-93 | the filter keeps the listing order: filtering a concatenation gives the filtered parts in order |
| `Service.RepliesToSnoc` | app.py:90-93 | one more listed message adds itself to the filtered list exactly when it is a reply to the run |
| `Service.NoRepliesIffNoMatch` | app.py:90-94 | the filtered list is empty exactly when no listed message is an assistant message of this run |
| `Service.LastOfRepliesIsLastMatch` | app.py:90-95 | the last element of a non-empty filtered list is the listed message at the last position holding an assistant message of this run |
| `Service.LatestReply` | app.py:94-95 | no reply is picked exactly when no listed message is an assistant message of this run; otherwise the reply picked is the listed message at the last position holding one |
| `Service.LastReplyUnique` | app.py:95 | at most one position is the last one holding a reply to the run, so the pick is determined |
| `Service.Join` | app.py:96 | the joined text's length is the sum of the block lengths |
| `Service.JoinAppend` | app.py:96 | joining distributes over concatenation of the block lists |
| `Service.JoinBlockAt` | app.py:96 | every block's text appears unchanged in the joined text, at the offset given by the lengths of the blocks before it |
| `ChatSession.Reply` | app.py:87-110 | the status notice is given exactly when the status is not completed, and names that status; the no-response notice is given exactly when the run completed with no assistant message of the run; a last matching message holding a non-text block gives the generic notice of the catch-all handler; a reply is returned exactly when the run completed and the last matching message is all text, and it is that message's joined text |
| `ChatSession.Session.constructor` | app.py:32 | before the first run the session holds no assistant, no thread and an empty transcript |
| `ChatSession.Session.Select` | app.py:32-41 | the chosen id is stored; on the first choice or a different one the thread is dropped and the transcript emptied; the same choice leaves thread and transcript as they were |
| `ChatSession.Session.EnsureThread` | app.py:43-46 | an existing thread is kept; an absent one is replaced by the created id, or stays absent with a failure when creation raises; assistant and transcript are untouched |
| `ChatSession.Session.Submit` | app.py:59-107 | empty input changes nothing; otherwise the user entry is appended first, then the assistant entry only when the run completed with a reply, else exactly the one user entry is added and the notice returned; earlier entries stay as they were and the transcript stays well formed |
| `ChatSession.Rerun` | app.py:11-112 | a missing credential, a failed or empty listing leave the session unchanged with a notice; otherwise the chosen id is selected, the thread kept or created, and the transcript is the kept (or emptied) one followed by exactly the entries the submission adds |

## Left out

- Streamlit rendering: page configuration, title, chat bubbles, markdown,
  spinner and the selection widget itself. The widget's chosen position is an
  input of `Rerun`; that it lies within the listing is its precondition.
- The remote calls (listing assistants, creating a thread, posting the user
  message, creating and polling a run, listing messages) are results passed
  in, not calls; the blocking wait of the poll is not modelled, only the
  terminal status it returns. Only the first page of the assistant listing is
  read by the code, and the model takes the listing as given.
- Reading the credential from the environment is reduced to `keyPresent`,
  whether the variable holds a non-empty value.
- The text of the notices and of the caught exception is not modelled; the
  notices are the abstract kinds of `ChatSession.Notice`.
- `ChatSession.Rerun` does not separate which remote call during a submission
  raised: posting the message, creating or polling the run, and listing the
  messages all map to `Raised`, with the same effect on the session.
