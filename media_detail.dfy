/** The media detail page: a list of comments, each with its replies, and a reply box that
    opens under one comment at a time. */
module MediaDetail {
  import opened JsValues

  datatype Comment = Comment(id: string, username: string, text: string, replies: seq<string>)

  /** `comment` with `reply` added after its existing replies. */
  function AddReply(comment: Comment, reply: string): (c: Comment)
    ensures c.id == comment.id && c.username == comment.username && c.text == comment.text
    ensures |c.replies| == |comment.replies| + 1
    ensures c.replies[..|comment.replies|] == comment.replies && c.replies[|comment.replies|] == reply
  {
    comment.(replies := comment.replies + [reply])
  }

  /** The comment list after replying `reply` to `commentId`: every comment with that id gets
      the reply appended, every other comment is unchanged, and the order is kept. */
  function WithReply(comments: seq<Comment>, commentId: string, reply: string): (r: seq<Comment>)
    ensures |r| == |comments|
    ensures forall i :: 0 <= i < |r| && comments[i].id == commentId ==> r[i] == AddReply(comments[i], reply)
    ensures forall i :: 0 <= i < |r| && comments[i].id != commentId ==> r[i] == comments[i]
  {
    if comments == [] then []
    else
      var head := if comments[0].id == commentId then AddReply(comments[0], reply) else comments[0];
      [head] + WithReply(comments[1..], commentId, reply)
  }

  /** A reply never rewrites the thread: the existing replies of every comment stay a prefix,
      and a comment's author, text and id are untouched. */
  lemma WithReplyKeepsThreads(comments: seq<Comment>, commentId: string, reply: string, i: int)
    requires 0 <= i < |comments|
    ensures comments[i].replies <= WithReply(comments, commentId, reply)[i].replies
    ensures WithReply(comments, commentId, reply)[i].(replies := comments[i].replies) == comments[i]
    ensures |WithReply(comments, commentId, reply)[i].replies|
         == |comments[i].replies| + (if comments[i].id == commentId then 1 else 0)
  {
  }

  /** A reply to an id no comment has leaves the list as it was. */
  lemma {:induction false} ReplyToUnknownId(comments: seq<Comment>, commentId: string, reply: string)
    requires forall c :: c in comments ==> c.id != commentId
    ensures WithReply(comments, commentId, reply) == comments
  {
    if comments != [] {
      ReplyToUnknownId(comments[1..], commentId, reply);
    }
  }

  /** The state of the detail page's comment section. */
  class MediaDetailPage {
    var comments: seq<Comment>
    var replyText: string
    var activeCommentId: Option<string>

    constructor ()
      ensures comments == [] && replyText == "" && activeCommentId == None
    {
      comments := [];
      replyText := "";
      activeCommentId := None;
    }

    /** The reply input is shown under `comment` exactly when it is the active one. */
    predicate ShowsReplyInput(comment: Comment)
      reads this
      ensures ShowsReplyInput(comment) ==> activeCommentId.Some? && activeCommentId.value == comment.id
      ensures activeCommentId == None ==> !ShowsReplyInput(comment)
    {
      activeCommentId == Some(comment.id)
    }

    /** Clicking "Reply" under a comment makes it the active one. */
    method OpenReply(commentId: string)
      modifies this`activeCommentId
      ensures activeCommentId == Some(commentId)
    {
      activeCommentId := Some(commentId);
    }

    /** Typing in the reply input. */
    method EditReply(text: string)
      modifies this`replyText
      ensures replyText == text
    {
      replyText := text;
    }

    /** `handleReply(commentId)`: a blank reply changes nothing; otherwise the reply as typed
        (not trimmed) is appended to the comments with that id, the input is cleared and no
        comment stays active, whether or not any comment matched. */
    method HandleReply(commentId: string)
      modifies this
      ensures IsBlank(old(replyText)) ==>
        comments == old(comments) && replyText == old(replyText) && activeCommentId == old(activeCommentId)
      ensures !IsBlank(old(replyText)) ==>
        comments == WithReply(old(comments), commentId, old(replyText)) && replyText == "" && activeCommentId == None
    {
      TrimEmptyIffBlank(replyText);
      if Trim(replyText) == "" {
        return;
      }
      comments := WithReply(comments, commentId, replyText);
      replyText := "";
      activeCommentId := None;
    }
  }

  /** Opening the reply box under one comment, typing and submitting: the reply lands under
      that comment, and afterwards no comment shows the input. */
  method ReplyScenario(first: Comment, second: Comment, text: string)
    returns (after: seq<Comment>, inputShown: bool)
    requires first.id != second.id && !IsBlank(text)
    ensures after == [AddReply(first, text), second]
    ensures !inputShown
  {
    var page := new MediaDetailPage();
    // stands for the comments the page's mock-data effect loads, itself not modelled
    page.comments := [first, second];
    page.OpenReply(second.id);
    assert page.ShowsReplyInput(second) && !page.ShowsReplyInput(first);
    page.OpenReply(first.id);
    page.EditReply(text);
    page.HandleReply(first.id);
    after := page.comments;
    inputShown := page.ShowsReplyInput(first) || page.ShowsReplyInput(second);
  }
}
