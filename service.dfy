/** The records the remote assistant service hands back to the script, and the
    pure expressions the script evaluates over them: the name and id lists
    built from the assistant listing, the filter that keeps the assistant's
    replies to one run, the pick of the last such reply and the join of its
    text blocks. The remote calls themselves are not modelled: their results
    are the inputs of these functions. */
module Service {
  import opened Wrappers

  /** One configured assistant as the listing call returns it. */
  datatype AssistantRef = AssistantRef(id: string, name: string)

  /** The author of a message, both on the remote thread and in the transcript. */
  datatype Role = User | Assistant

  /** One block of a thread message's content. Only a text block has the
      `text.value` the script reads; any other kind of block (an image, say)
      makes that read fail. */
  datatype ContentBlock = TextBlock(value: string) | OtherBlock

  /** A message as the thread's message listing returns it. A message that no
      run produced (the user's own) has no run id. */
  datatype ThreadMessage = ThreadMessage(role: Role, runId: Option<string>, content: seq<ContentBlock>)

  /** The terminal run status that lets the script look for a reply. */
  const Completed: string := "completed"

  /** The display names of the listed assistants, in listing order. */
  function Names(assistants: seq<AssistantRef>): (names: seq<string>)
    ensures |names| == |assistants|
    ensures forall i :: 0 <= i < |assistants| ==> names[i] == assistants[i].name
  {
    if assistants == [] then [] else [assistants[0].name] + Names(assistants[1..])
  }

  /** The ids of the listed assistants, in listing order. */
  function Ids(assistants: seq<AssistantRef>): (ids: seq<string>)
    ensures |ids| == |assistants|
    ensures forall i :: 0 <= i < |assistants| ==> ids[i] == assistants[i].id
  {
    if assistants == [] then [] else [assistants[0].id] + Ids(assistants[1..])
  }

  /** The selection widget offers the positions of the name list; the id taken
      at the chosen position belongs to the assistant whose name was shown
      there. */
  lemma SelectionAgrees(assistants: seq<AssistantRef>, index: nat)
    requires index < |Names(assistants)|
    ensures |Ids(assistants)| == |Names(assistants)|
    ensures index < |Ids(assistants)|
    ensures AssistantRef(Ids(assistants)[index], Names(assistants)[index]) == assistants[index]
  {
  }

  /** A message written by the assistant during the run `runId`. */
  predicate IsReplyTo(m: ThreadMessage, runId: string)
  {
    m.role == Assistant && m.runId == Some(runId)
  }

  /** The listed messages that are replies to the run `runId`, in listing order. */
  function RepliesTo(listed: seq<ThreadMessage>, runId: string): (replies: seq<ThreadMessage>)
    ensures |replies| <= |listed|
    ensures forall m :: m in replies <==> m in listed && IsReplyTo(m, runId)
  {
    if listed == [] then []
    else (if IsReplyTo(listed[0], runId) then [listed[0]] else []) + RepliesTo(listed[1..], runId)
  }

  /** Filtering keeps the listing order: the replies found in a concatenation
      are those of the first part followed by those of the second. */
  lemma {:induction false} RepliesToAppend(a: seq<ThreadMessage>, b: seq<ThreadMessage>, runId: string)
    ensures RepliesTo(a + b, runId) == RepliesTo(a, runId) + RepliesTo(b, runId)
  {
    if a == [] {
      assert a + b == b;
    } else {
      assert (a + b)[0] == a[0];
      assert (a + b)[1..] == a[1..] + b;
      RepliesToAppend(a[1..], b, runId);
    }
  }

  /** Position `i` of the listing holds a reply to the run and no later position does. */
  predicate LastReplyAt(listed: seq<ThreadMessage>, runId: string, i: int)
  {
    && 0 <= i < |listed|
    && IsReplyTo(listed[i], runId)
    && forall j :: i < j < |listed| ==> !IsReplyTo(listed[j], runId)
  }

  /** Adding one message at the end of a listing adds it to the replies
      exactly when it is a reply to the run. */
  lemma RepliesToSnoc(init: seq<ThreadMessage>, x: ThreadMessage, runId: string)
    ensures RepliesTo(init + [x], runId) == RepliesTo(init, runId) + (if IsReplyTo(x, runId) then [x] else [])
  {
    RepliesToAppend(init, [x], runId);
    assert [x][1..] == [];
  }

  /** The last of the replies is the listed message at the last position that
      holds a reply to the run. */
  lemma {:induction false} LastOfRepliesIsLastMatch(listed: seq<ThreadMessage>, runId: string)
    requires RepliesTo(listed, runId) != []
    ensures exists i :: LastReplyAt(listed, runId, i) && listed[i] == Last(RepliesTo(listed, runId))
  {
    var n := |listed| - 1;
    var init, x := listed[..n], listed[n];
    assert listed == init + [x];
    RepliesToSnoc(init, x, runId);
    if IsReplyTo(x, runId) {
      assert LastReplyAt(listed, runId, n);
    } else {
      LastOfRepliesIsLastMatch(init, runId);
      var i :| LastReplyAt(init, runId, i) && init[i] == Last(RepliesTo(init, runId));
      assert listed[i] == init[i];
      assert LastReplyAt(listed, runId, i);
    }
  }

  /** The replies are empty exactly when no position of the listing holds a reply. */
  lemma NoRepliesIffNoMatch(listed: seq<ThreadMessage>, runId: string)
    ensures RepliesTo(listed, runId) == [] <==> forall i :: 0 <= i < |listed| ==> !IsReplyTo(listed[i], runId)
  {
    if RepliesTo(listed, runId) != [] {
      var m := RepliesTo(listed, runId)[0];
      assert m in RepliesTo(listed, runId);
      var i :| 0 <= i < |listed| && listed[i] == m;
      assert IsReplyTo(listed[i], runId);
    } else {
      forall i | 0 <= i < |listed|
        ensures !IsReplyTo(listed[i], runId)
      {
        assert listed[i] in listed;
      }
    }
  }

  /** The last element of a non-empty sequence. */
  function Last<T>(s: seq<T>): T
    requires s != []
  {
    s[|s| - 1]
  }

  /** The last reply to the run, when there is one: none exactly when no
      listed message is a reply to the run, and otherwise the listed message
      at the last position holding a reply. */
  function LatestReply(listed: seq<ThreadMessage>, runId: string): (latest: Option<ThreadMessage>)
    ensures latest.None? <==> forall i :: 0 <= i < |listed| ==> !IsReplyTo(listed[i], runId)
    ensures latest.Some? ==> exists i :: LastReplyAt(listed, runId, i) && listed[i] == latest.value
  {
    var replies := RepliesTo(listed, runId);
    NoRepliesIffNoMatch(listed, runId);
    if replies == [] then None
    else
      LastOfRepliesIsLastMatch(listed, runId);
      Some(Last(replies))
  }

  /** At most one position is the last one holding a reply to the run, so the
      reply picked is determined by the listing. */
  lemma LastReplyUnique(listed: seq<ThreadMessage>, runId: string)
    ensures forall i, j :: LastReplyAt(listed, runId, i) && LastReplyAt(listed, runId, j) ==> i == j
  {
  }

  /** Every block of the content is a text block. */
  predicate AllText(blocks: seq<ContentBlock>)
  {
    forall i :: 0 <= i < |blocks| ==> blocks[i].TextBlock?
  }

  /** The summed length of the texts of the blocks. */
  function TotalLength(blocks: seq<ContentBlock>): nat
    requires AllText(blocks)
  {
    if blocks == [] then 0 else |blocks[0].value| + TotalLength(blocks[1..])
  }

  /** The texts of the blocks joined in order with no separator. */
  function Join(blocks: seq<ContentBlock>): (text: string)
    requires AllText(blocks)
    ensures |text| == TotalLength(blocks)
  {
    if blocks == [] then "" else blocks[0].value + Join(blocks[1..])
  }

  /** Joining distributes over concatenating the block lists. */
  lemma {:induction false} JoinAppend(a: seq<ContentBlock>, b: seq<ContentBlock>)
    requires AllText(a) && AllText(b)
    ensures AllText(a + b)
    ensures Join(a + b) == Join(a) + Join(b)
  {
    assert AllText(a + b) by {
      forall i | 0 <= i < |a + b|
        ensures (a + b)[i].TextBlock?
      {
        if i < |a| { assert (a + b)[i] == a[i]; } else { assert (a + b)[i] == b[i - |a|]; }
      }
    }
    if a == [] {
      assert a + b == b;
    } else {
      assert (a + b)[0] == a[0];
      assert (a + b)[1..] == a[1..] + b;
      JoinAppend(a[1..], b);
    }
  }

  /** Where the text of block `k` starts in the joined text. */
  function Offset(blocks: seq<ContentBlock>, k: nat): nat
    requires AllText(blocks) && k <= |blocks|
  {
    TotalLength(blocks[..k])
  }

  /** The joined text holds every block's text, unchanged, at the offset given
      by the lengths of the blocks before it. */
  lemma JoinBlockAt(blocks: seq<ContentBlock>, k: nat)
    requires AllText(blocks) && k < |blocks|
    ensures Offset(blocks, k) + |blocks[k].value| <= |Join(blocks)|
    ensures Join(blocks)[Offset(blocks, k)..Offset(blocks, k) + |blocks[k].value|] == blocks[k].value
  {
    var before, here, after := blocks[..k], [blocks[k]], blocks[k + 1..];
    assert blocks == before + here + after;
    assert AllText(before) && AllText(here) && AllText(after);
    JoinAppend(before, here);
    JoinAppend(before + here, after);
    assert here[1..] == [];
    assert Join(here) == blocks[k].value;
  }
}
