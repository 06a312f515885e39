/** The social feed screen: its records (feed/FeedView.kt), the per-item updates of
    its view-model (feed/FeedViewModel.kt), the category colour rule and the comment
    box's submit guard. */
module Feed {
  import opened Wrappers
  import opened Text

  datatype Comment = Comment(id: string, authorName: string, text: string, timestamp: string)

  datatype FeedItem = FeedItem(
    id: string,
    authorName: string,
    authorAvatar: string,
    timestamp: string,
    category: string,
    title: string,
    description: string,
    imageUrl: string,
    likeCount: int,
    isLiked: bool,
    comments: seq<Comment>,
    showCommentSection: bool := false)

  datatype FeedState = FeedState(feedItems: seq<FeedItem> := [], isLoading: bool := false)

  /** An ARGB colour as the `Color(0xAARRGGBB)` literal writes it. */
  type Argb = int

  /** The badge colour of a post's category, chosen on its lower-cased name. */
  function CategoryColor(category: string): (c: Argb)
    ensures Lower(category) == "climate" ==> c == 0xFF2563EB
    ensures Lower(category) == "renewable" ==> c == 0xFF10B981
    ensures Lower(category) == "conservation" ==> c == 0xFF8B5CF6
    ensures Lower(category) == "recycling" ==> c == 0xFFF59E0B
    ensures Lower(category) == "wildlife" ==> c == 0xFFEC4899
    ensures Lower(category) !in {"climate", "renewable", "conservation", "recycling", "wildlife"}
      ==> c == 0xFF6B7280
  {
    match Lower(category)
    case "climate" => 0xFF2563EB
    case "renewable" => 0xFF10B981
    case "conservation" => 0xFF8B5CF6
    case "recycling" => 0xFFF59E0B
    case "wildlife" => 0xFFEC4899
    case _ => 0xFF6B7280
  }

  /** The colour depends on the category only up to letter case. */
  lemma CategoryColorIgnoresCase(category: string)
    ensures CategoryColor(Lower(category)) == CategoryColor(category)
  {
    LowerIdempotent(category);
  }

  /** A capitalised category, as the mock feed writes it, gets its colour. */
  lemma CategoryColorCapitalised()
    ensures CategoryColor("Wildlife") == 0xFFEC4899
  {
    var l := Lower("Wildlife");
    assert forall i :: 0 <= i < 8 ==> l[i] == LowerChar("Wildlife"[i]);
    assert l == "wildlife";
  }

  // ---------------------------------------------------------------------------
  // Likes

  /** Likes minus "liked by me": the count of likes from other users, which
      toggling the like never changes. */
  function OthersLikes(item: FeedItem): int {
    item.likeCount - (if item.isLiked then 1 else 0)
  }

  /** `item` and `other` agree on every field except the like flag and count. */
  predicate SameExceptLike(item: FeedItem, other: FeedItem) {
    item.(isLiked := other.isLiked, likeCount := other.likeCount) == other
  }

  /** One item with its like toggled. */
  function LikeToggled(item: FeedItem): (r: FeedItem)
    ensures r.isLiked == !item.isLiked
    ensures r.likeCount == (if item.isLiked then item.likeCount - 1 else item.likeCount + 1)
    ensures OthersLikes(r) == OthersLikes(item)
    ensures SameExceptLike(item, r)
  {
    item.(isLiked := !item.isLiked,
          likeCount := if item.isLiked then item.likeCount - 1 else item.likeCount + 1)
  }

  /** `feedItems.map { if (it.id == id) toggled else it }` for the like button. */
  function WithLikeToggled(items: seq<FeedItem>, id: string): (r: seq<FeedItem>)
    ensures |r| == |items|
    ensures forall i :: 0 <= i < |items| ==> r[i].id == items[i].id
    ensures forall i :: 0 <= i < |items| && items[i].id != id ==> r[i] == items[i]
    ensures forall i :: 0 <= i < |items| && items[i].id == id ==>
      r[i].isLiked == !items[i].isLiked && OthersLikes(r[i]) == OthersLikes(items[i])
      && SameExceptLike(items[i], r[i])
  {
    if items == [] then []
    else [if items[0].id == id then LikeToggled(items[0]) else items[0]] + WithLikeToggled(items[1..], id)
  }

  /** Liking and unliking the same post restores the feed exactly. */
  lemma {:induction false} ToggleLikeTwice(items: seq<FeedItem>, id: string)
    ensures WithLikeToggled(WithLikeToggled(items, id), id) == items
  {
    if items != [] {
      ToggleLikeTwice(items[1..], id);
      assert WithLikeToggled(items, id)[1..] == WithLikeToggled(items[1..], id);
    }
  }

  /** The like count is unbounded below: a liked post whose count is already zero
      goes to -1 when unliked. */
  lemma LikeCountCanGoNegative(item: FeedItem)
    requires item.isLiked && item.likeCount == 0
    ensures WithLikeToggled([item], item.id)[0].likeCount == -1
  {
  }

  // ---------------------------------------------------------------------------
  // Comment section visibility

  /** `feedItems.map { ... }` flipping `showCommentSection` of the matching items. */
  function WithCommentSectionToggled(items: seq<FeedItem>, id: string): (r: seq<FeedItem>)
    ensures |r| == |items|
    ensures forall i :: 0 <= i < |items| && items[i].id != id ==> r[i] == items[i]
    ensures forall i :: 0 <= i < |items| && items[i].id == id ==>
      r[i].showCommentSection == !items[i].showCommentSection
      && r[i].(showCommentSection := items[i].showCommentSection) == items[i]
  {
    if items == [] then []
    else
      [if items[0].id == id then items[0].(showCommentSection := !items[0].showCommentSection) else items[0]]
      + WithCommentSectionToggled(items[1..], id)
  }

  /** Opening and closing the same comment section restores the feed. */
  lemma {:induction false} ToggleCommentSectionTwice(items: seq<FeedItem>, id: string)
    ensures WithCommentSectionToggled(WithCommentSectionToggled(items, id), id) == items
  {
    if items != [] {
      ToggleCommentSectionTwice(items[1..], id);
      assert WithCommentSectionToggled(items, id)[1..] == WithCommentSectionToggled(items[1..], id);
    }
  }

  // ---------------------------------------------------------------------------
  // Comments

  /** The comment the current user posts; `commentId` stands for a random UUID. */
  function NewComment(commentId: string, text: string): Comment {
    Comment(commentId, "You", text, "Just now")
  }

  /** `feedItems.map { ... }` appending the user's comment to the matching items. The
      source draws a fresh UUID inside the `map`, once per matching item: `commentIds[i]`
      is the one drawn for position `i`, used only when that item matches. */
  function WithCommentAdded(items: seq<FeedItem>, id: string, commentIds: seq<string>, text: string): (r: seq<FeedItem>)
    requires |commentIds| == |items|
    ensures |r| == |items|
    ensures forall i :: 0 <= i < |items| && items[i].id != id ==> r[i] == items[i]
    ensures forall i :: 0 <= i < |items| && items[i].id == id ==>
      |r[i].comments| == |items[i].comments| + 1
      && r[i].comments[..|items[i].comments|] == items[i].comments
      && r[i].comments[|items[i].comments|] == Comment(commentIds[i], "You", text, "Just now")
      && r[i].(comments := items[i].comments) == items[i]
  {
    if items == [] then []
    else
      [if items[0].id == id then items[0].(comments := items[0].comments + [NewComment(commentIds[0], text)]) else items[0]]
      + WithCommentAdded(items[1..], id, commentIds[1..], text)
  }

  /** Two posts sharing an id each get their own comment, told apart by its id when the
      drawn ids differ. */
  lemma SharedIdGetsDistinctComments(items: seq<FeedItem>, id: string, commentIds: seq<string>, text: string, i: nat, j: nat)
    requires |commentIds| == |items| && i < j < |items|
    requires items[i].id == id && items[j].id == id && commentIds[i] != commentIds[j]
    ensures var r := WithCommentAdded(items, id, commentIds, text);
      r[i].comments[|r[i].comments| - 1] != r[j].comments[|r[j].comments| - 1]
  {
  }

  /** Commenting on a post that is not in the feed leaves the feed as it was. */
  lemma AddCommentUnknownId(items: seq<FeedItem>, id: string, commentIds: seq<string>, text: string)
    requires |commentIds| == |items|
    requires forall i :: 0 <= i < |items| ==> items[i].id != id
    ensures WithCommentAdded(items, id, commentIds, text) == items
  {
  }

  /** Nothing rejects a blank comment at this level: it is appended like any other. */
  lemma AddCommentAcceptsBlank(item: FeedItem, commentId: string)
    ensures WithCommentAdded([item], item.id, [commentId], "")[0].comments == item.comments + [Comment(commentId, "You", "", "Just now")]
  {
  }

  // ---------------------------------------------------------------------------
  // The view-model

  class FeedViewModel {
    var state: FeedState

    /** The state before the mock feed is loaded. */
    constructor ()
      ensures state == FeedState()
      ensures state.feedItems == [] && !state.isLoading
    {
      state := FeedState();
    }

    method ToggleLike(feedItemId: string)
      modifies this
      ensures state == old(state).(feedItems := WithLikeToggled(old(state).feedItems, feedItemId))
    {
      state := state.(feedItems := WithLikeToggled(state.feedItems, feedItemId));
    }

    method ToggleCommentSection(feedItemId: string)
      modifies this
      ensures state == old(state).(feedItems := WithCommentSectionToggled(old(state).feedItems, feedItemId))
    {
      state := state.(feedItems := WithCommentSectionToggled(state.feedItems, feedItemId));
    }

    /** `commentIds` stands for the fresh UUIDs the source draws, one per feed item. */
    method AddComment(feedItemId: string, commentText: string, commentIds: seq<string>)
      requires |commentIds| == |state.feedItems|
      modifies this
      ensures state == old(state).(feedItems := WithCommentAdded(old(state).feedItems, feedItemId, commentIds, commentText))
    {
      state := state.(feedItems := WithCommentAdded(state.feedItems, feedItemId, commentIds, commentText));
    }
  }

  /** The text field under an open comment section and its send button. */
  class CommentBox {
    var commentText: string

    constructor ()
      ensures commentText == ""
    {
      commentText := "";
    }

    method OnTextChanged(text: string)
      modifies this
      ensures commentText == text
    {
      commentText := text;
    }

    /** Pressing send: a non-blank text is handed to `onCommentSubmit` and the field
        is emptied; a blank text is neither sent nor cleared. */
    method OnSendClick() returns (submitted: Option<string>)
      modifies this
      ensures IsBlank(old(commentText)) ==> submitted.None? && commentText == old(commentText)
      ensures !IsBlank(old(commentText)) ==> submitted == Some(old(commentText)) && commentText == ""
    {
      if !IsBlank(commentText) {
        submitted := Some(commentText);
        commentText := "";
      } else {
        submitted := None;
      }
    }
  }

  /** A comment typed into the box and sent reaches the feed only when it is not blank,
      and then it is the last comment of the post it was typed under. */
  method SubmitThroughBox(vm: FeedViewModel, box: CommentBox, feedItemId: string, commentIds: seq<string>)
    returns (sent: bool)
    requires |commentIds| == |vm.state.feedItems|
    modifies vm, box
    ensures sent <==> !IsBlank(old(box.commentText))
    ensures !sent ==> vm.state == old(vm.state)
    ensures sent ==> vm.state.feedItems == WithCommentAdded(old(vm.state.feedItems), feedItemId, commentIds, old(box.commentText))
    ensures sent ==> box.commentText == ""
  {
    var submitted := box.OnSendClick();
    sent := submitted.Some?;
    if submitted.Some? {
      vm.AddComment(feedItemId, submitted.value, commentIds);
    }
  }
}
