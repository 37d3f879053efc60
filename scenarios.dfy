/** Client checks: the example conversations of the session, derived from the
    contracts of the session's methods alone. */
module Scenarios {
  import opened Wrappers
  import opened Service
  import opened ChatSession

  /** Listing two assistants and choosing the second position selects its id. */
  method SelectSecondOfTwo() {
    var s := new Session();
    var listing := Listed([AssistantRef("a1", "Helper"), AssistantRef("a2", "Coder")]);
    var notice := Rerun(s, true, listing, 1, Some("t1"), "", Raised);
    assert s.assistantId == Some("a2");
    assert s.threadId == Some("t1");
    assert s.messages == [] && notice.None?;
  }

  /** A second thread check after a successful one keeps the first thread. */
  method EnsureThreadTwice() {
    var s := new Session();
    s.Select("a1");
    var ok := s.EnsureThread(Some("t1"));
    assert ok && s.threadId == Some("t1");
    ok := s.EnsureThread(Some("t2"));
    assert ok && s.threadId == Some("t1");
  }

  /** Switching to another assistant drops the thread and the transcript. */
  method SwitchResets() {
    var s := new Session();
    s.Select("a1");
    var ok := s.EnsureThread(Some("t1"));
    var notice := s.Submit("Hi", Raised);
    assert s.messages == [Message(User, "Hi")];
    s.Select("a1");
    assert s.messages == [Message(User, "Hi")] && s.threadId == Some("t1");
    s.Select("a2");
    assert s.messages == [] && s.threadId.None?;
  }

  /** A completed run with one reply made of one text block. */
  method CompletedExchange() {
    var s := new Session();
    s.Select("a1");
    var ok := s.EnsureThread(Some("t1"));
    var listed := [ThreadMessage(User, None, [TextBlock("Hi")]),
                   ThreadMessage(Assistant, Some("r1"), [TextBlock("Hello!")])];
    assert RepliesTo(listed, "r1") == [listed[1]];
    assert Join(listed[1].content) == "Hello!";
    var notice := s.Submit("Hi", Finished("r1", Completed, listed));
    assert s.messages == [Message(User, "Hi"), Message(Assistant, "Hello!")];
    assert notice.None?;
  }

  /** A failed run keeps only the user's entry and reports the status. */
  method FailedRun() {
    var s := new Session();
    s.Select("a1");
    var ok := s.EnsureThread(Some("t1"));
    var notice := s.Submit("Hi", Finished("r1", "failed", []));
    assert s.messages == [Message(User, "Hi")];
    assert notice == Some(RunNotCompleted("failed"));
  }

  /** A completed run whose only assistant message belongs to another run. */
  method CompletedWithoutReply() {
    var s := new Session();
    s.Select("a1");
    var ok := s.EnsureThread(Some("t1"));
    var listed := [ThreadMessage(Assistant, Some("r0"), [TextBlock("old")])];
    var notice := s.Submit("Hi", Finished("r1", Completed, listed));
    assert s.messages == [Message(User, "Hi")];
    assert notice == Some(NoResponse);
  }

  /** A completed run whose reply holds a non-text block: reading its text
      fails, the generic notice is shown and only the user's entry stays. */
  method ReplyWithNonTextBlock() {
    var s := new Session();
    s.Select("a1");
    var ok := s.EnsureThread(Some("t1"));
    var listed := [ThreadMessage(Assistant, Some("r1"), [TextBlock("See:"), OtherBlock])];
    assert LastReplyAt(listed, "r1", 0);
    assert !AllText(listed[0].content) by { assert !listed[0].content[1].TextBlock?; }
    var notice := s.Submit("Hi", Finished("r1", Completed, listed));
    assert s.messages == [Message(User, "Hi")];
    assert notice == Some(Unexpected);
  }

  /** Without the credential nothing is listed and the session stays as it was. */
  method NoCredential() {
    var s := new Session();
    s.Select("a1");
    var ok := s.EnsureThread(Some("t1"));
    var notice := Rerun(s, false, Listed([AssistantRef("a2", "Coder")]), 0, Some("t2"), "Hi", Raised);
    assert notice == Some(MissingKey);
    assert s.assistantId == Some("a1") && s.threadId == Some("t1") && s.messages == [];
  }

  /** A failed listing shows the generic notice and leaves the session as it was. */
  method ListingFails() {
    var s := new Session();
    var notice := Rerun(s, true, ListFailed, 0, Some("t1"), "Hi", Raised);
    assert notice == Some(Unexpected);
    assert s.assistantId.None? && s.threadId.None? && s.messages == [];
  }

  /** An empty listing gives the widget no position to choose: the generic
      notice, and the session as it was. */
  method EmptyListing() {
    var s := new Session();
    s.Select("a1");
    var notice := Rerun(s, true, Listed([]), 0, Some("t1"), "Hi", Raised);
    assert notice == Some(Unexpected);
    assert s.assistantId == Some("a1") && s.threadId.None? && s.messages == [];
  }

  /** Two text blocks are joined with no separator. */
  method JoinTwoBlocks() {
    var blocks := [TextBlock("Hello, "), TextBlock("world!")];
    assert blocks[1..][1..] == [];
    assert Join(blocks) == "Hello, world!";
  }
}
