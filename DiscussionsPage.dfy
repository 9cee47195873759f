/**
 * The course discussion page (components/DiscussionsPage.tsx): starting a
 * thread, replying in the open thread, upvoting a reply and marking a reply
 * accepted. Every handler rebuilds the list or the open thread from the old
 * one. `Date.now()` and the current time are the parameter `now`, used both
 * as the new item's id and as its creation time.
 */
module DiscussionsPage {
  import opened Wrappers
  import DiscussionFeed

  /** A reply in the open thread. */
  datatype Reply = Reply(
    id: int,
    author: DiscussionFeed.Author,
    content: string,
    isVerified: bool,
    isAccepted: bool,
    upvotes: int,
    userUpvoted: bool,
    createdAt: int)

  /** The open thread with its replies. */
  datatype ThreadData = ThreadData(
    id: int,
    title: string,
    content: string,
    author: DiscussionFeed.Author,
    isPinned: bool,
    views: int,
    replies: seq<Reply>,
    createdAt: int)

  /** `currentUserId || 999`: a missing or zero user id becomes 999. */
  function AuthorId(currentUserId: Option<int>): (r: int)
    ensures currentUserId.Some? && currentUserId.value != 0 ==> r == currentUserId.value
    ensures currentUserId.None? || currentUserId.value == 0 ==> r == 999
  {
    if currentUserId.Some? && currentUserId.value != 0 then currentUserId.value else 999
  }

  /** The author of what the user posts: the id above and the name `You`. */
  function Me(currentUserId: Option<int>): DiscussionFeed.Author
  {
    DiscussionFeed.Author(AuthorId(currentUserId), "You", None, None)
  }

  /**
   * `handleCreateThread`: the new thread, unpinned and with nothing counted
   * yet, by the current user, goes before the others, which keep their order.
   */
  function CreateThread(threads: seq<DiscussionFeed.Thread>, title: string, now: int, currentUserId: Option<int>): (r: seq<DiscussionFeed.Thread>)
    ensures |r| == |threads| + 1 && r[1..] == threads
    ensures r[0].title == title && r[0].createdAt == now && !r[0].isPinned
    ensures r[0].replyCount == 0 && r[0].voteCount == 0 && r[0].views == 0
    ensures r[0].author.id == AuthorId(currentUserId)
  {
    var r := [DiscussionFeed.Thread(now, title, Me(currentUserId), false, 0, 0, 0, now)] + threads;
    assert r[1..] == threads;
    r
  }

  /** A new thread is the newest: it heads the list sorted by recency when no other thread is newer. */
  lemma CreatedThreadHeadsRecent(threads: seq<DiscussionFeed.Thread>, title: string, now: int, currentUserId: Option<int>)
    requires forall i :: 0 <= i < |threads| ==> threads[i].createdAt <= now
    ensures var r := CreateThread(threads, title, now, currentUserId);
      DiscussionFeed.SortThreads(DiscussionFeed.Recent, r)[0] == r[0]
  {
    var r := CreateThread(threads, title, now, currentUserId);
    assert r[1..] == threads;
    var s := DiscussionFeed.SortThreads(DiscussionFeed.Recent, threads);
    forall i | 0 <= i < |s| ensures s[i].createdAt <= now {
      assert s[i] in multiset(threads);
      var k :| 0 <= k < |threads| && threads[k] == s[i];
    }
    InsertFirst(r[0], s);
  }

  /** Inserting a thread no other thread is newer than puts it first. */
  lemma InsertFirst(x: DiscussionFeed.Thread, s: seq<DiscussionFeed.Thread>)
    requires forall i :: 0 <= i < |s| ==> s[i].createdAt <= x.createdAt
    ensures DiscussionFeed.Insert(DiscussionFeed.Recent, x, s)[0] == x
  {
  }

  /** The reply `handleReply` posts: not verified, not accepted, no upvotes. */
  function NewReply(content: string, now: int, currentUserId: Option<int>): Reply
  {
    Reply(now, Me(currentUserId), content, false, false, 0, false, now)
  }

  /** `handleReply`: nothing without an open thread; otherwise the reply is added after the others. */
  function AddReply(selected: Option<ThreadData>, content: string, now: int, currentUserId: Option<int>): (r: Option<ThreadData>)
    ensures selected.None? <==> r.None?
  {
    match selected
    case None => None
    case Some(t) => Some(t.(replies := t.replies + [NewReply(content, now, currentUserId)]))
  }

  /** A reply adds exactly one reply, at the end, unverified, unaccepted and without upvotes; the rest of the thread stays. */
  lemma AddReplyMeaning(t: ThreadData, content: string, now: int, currentUserId: Option<int>)
    ensures var r := AddReply(Some(t), content, now, currentUserId).value;
      && |r.replies| == |t.replies| + 1 && r.replies[..|t.replies|] == t.replies
      && var last := r.replies[|t.replies|];
      && last.content == content && !last.isVerified && !last.isAccepted && last.upvotes == 0 && !last.userUpvoted
      && r.(replies := t.replies) == t
  {
    var r := AddReply(Some(t), content, now, currentUserId).value;
    assert r.replies[..|t.replies|] == t.replies;
  }

  /** The replies after upvoting `replyId`: each reply with that id gains a vote and is marked as upvoted by the user. */
  function UpvoteReplies(replies: seq<Reply>, replyId: int): (r: seq<Reply>)
    ensures |r| == |replies|
  {
    seq(|replies|, i requires 0 <= i < |replies| =>
      if replies[i].id == replyId then replies[i].(upvotes := replies[i].upvotes + 1, userUpvoted := true) else replies[i])
  }

  /** `handleUpvote`. */
  function Upvote(selected: Option<ThreadData>, replyId: int): (r: Option<ThreadData>)
    ensures selected.None? <==> r.None?
    ensures r.Some? ==> r.value.replies == UpvoteReplies(selected.value.replies, replyId)
  {
    match selected
    case None => None
    case Some(t) => Some(t.(replies := UpvoteReplies(t.replies, replyId)))
  }

  /** The upvotes of all replies together. */
  function TotalUpvotes(replies: seq<Reply>): int
  {
    if replies == [] then 0 else TotalUpvotes(replies[..|replies| - 1]) + replies[|replies| - 1].upvotes
  }

  /** How many replies carry an id. */
  function CountId(replies: seq<Reply>, replyId: int): (n: nat)
    ensures n <= |replies|
  {
    if replies == [] then 0 else CountId(replies[..|replies| - 1], replyId) + (if replies[|replies| - 1].id == replyId then 1 else 0)
  }

  /** Only replies with the id change, each by one vote and the upvoted mark. */
  lemma UpvoteMeaning(replies: seq<Reply>, replyId: int)
    ensures var r := UpvoteReplies(replies, replyId);
      forall i :: 0 <= i < |r| ==>
        if replies[i].id == replyId then
          r[i].upvotes == replies[i].upvotes + 1 && r[i].userUpvoted && r[i].(upvotes := replies[i].upvotes, userUpvoted := replies[i].userUpvoted) == replies[i]
        else r[i] == replies[i]
  {
  }

  /** An upvote adds one vote to the thread's total per reply with the id. */
  lemma {:induction false} UpvoteTotal(replies: seq<Reply>, replyId: int)
    ensures TotalUpvotes(UpvoteReplies(replies, replyId)) == TotalUpvotes(replies) + CountId(replies, replyId)
  {
    if replies != [] {
      var init := replies[..|replies| - 1];
      UpvoteTotal(init, replyId);
      assert UpvoteReplies(replies, replyId)[..|replies| - 1] == UpvoteReplies(init, replyId);
    }
  }

  /** Upvoting the same reply again counts again: nothing stops a repeat vote. */
  lemma UpvoteRepeats(replies: seq<Reply>, replyId: int, i: nat)
    requires i < |replies| && replies[i].id == replyId
    ensures UpvoteReplies(UpvoteReplies(replies, replyId), replyId)[i].upvotes == replies[i].upvotes + 2
  {
  }

  /** The replies after accepting `replyId`: each reply with that id is accepted; no other flag moves. */
  function AcceptReplies(replies: seq<Reply>, replyId: int): (r: seq<Reply>)
    ensures |r| == |replies|
  {
    seq(|replies|, i requires 0 <= i < |replies| =>
      if replies[i].id == replyId then replies[i].(isAccepted := true) else replies[i])
  }

  /** `handleMarkAccepted`. */
  function MarkAccepted(selected: Option<ThreadData>, replyId: int): (r: Option<ThreadData>)
    ensures selected.None? <==> r.None?
    ensures r.Some? ==> r.value.replies == AcceptReplies(selected.value.replies, replyId)
  {
    match selected
    case None => None
    case Some(t) => Some(t.(replies := AcceptReplies(t.replies, replyId)))
  }

  /**
   * After accepting, exactly the replies with the id are newly accepted:
   * a reply is accepted afterwards when it was before or carries the id,
   * so an earlier accepted answer stays accepted; accepting twice is
   * accepting once.
   */
  lemma MarkAcceptedMeaning(replies: seq<Reply>, replyId: int)
    ensures var r := AcceptReplies(replies, replyId);
      && (forall i :: 0 <= i < |r| ==> (r[i].isAccepted <==> replies[i].isAccepted || replies[i].id == replyId))
      && (forall i :: 0 <= i < |r| ==> r[i].(isAccepted := replies[i].isAccepted) == replies[i])
      && AcceptReplies(r, replyId) == r
  {
  }

  /** Replying, upvoting and accepting change nothing while no thread is open. */
  lemma NoThreadNoChange(content: string, now: int, currentUserId: Option<int>, replyId: int)
    ensures AddReply(None, content, now, currentUserId).None?
    ensures Upvote(None, replyId).None? && MarkAccepted(None, replyId).None?
  {
  }
}
