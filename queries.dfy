/**
 * The two post readers: wp.getPost answers one post through `prepare_post`,
 * wp.getPosts asks `wp_get_recent_posts` for a filtered listing and answers
 * the posts of it the actor may edit.
 */
module Queries {
  import opened Wrappers
  import opened Php
  import opened World
  import opened Calls
  import opened Projection

  const InvalidPost := "Invalid post ID."
  const CannotEdit := "Sorry, you cannot edit this post."
  const InvalidType := "The post type specified is not valid"
  const TypeDenied := "Sorry, you are not allowed to edit posts in this post type"

  /**
   * `current_user_can($post_type->cap->edit_posts, $id)`: the post's type must
   * be registered (an unknown type has no capability to grant) and the actor
   * must hold its edit_posts capability for `id`.
   */
  predicate Editable(site: Site, actor: Actor, post: PostView, id: int) {
    var t := TypeOf(site, VStr(post.postType));
    t.Some? && CanOn(actor, t.value.cap.editPosts, id)
  }

  // ---------------------------------------------------------------------------
  // wp.getPost

  /** wp.getPost: the post must exist and the actor must be able to edit it. */
  function GetPostOutcome(site: Site, actor: Actor, postArg: Value, fieldsArg: Value): Response {
    var id := IntVal(postArg);
    match PostAt(site, id)
    case None => Fail(Fault(404, InvalidPost))
    case Some(post) =>
      var t := TypeOf(site, VStr(post.postType));
      if t.None? || !CanOn(actor, t.value.cap.editPosts, id) then Fail(Fault(401, CannotEdit))
      else Ok(PostStruct(Projected(post, FieldsOrDefault(fieldsArg))))
  }

  /** wp.getPost. */
  method GetPost(site: Site, actor: Actor, postArg: Value, fieldsArg: Value) returns (response: Response)
    ensures response == GetPostOutcome(site, actor, postArg, fieldsArg)
  {
    var fields := FieldsOrDefault(fieldsArg);
    var id := IntVal(postArg);
    var post := PostAt(site, id);
    if post.None? {
      return Fail(Fault(404, InvalidPost));
    }
    var t := TypeOf(site, VStr(post.value.postType));
    if t.None? || !CanOn(actor, t.value.cap.editPosts, id) {
      return Fail(Fault(401, CannotEdit));
    }
    var reply := PreparePost(post.value, fields);
    return Ok(PostStruct(reply));
  }

  // ---------------------------------------------------------------------------
  // wp.getPosts

  /**
   * The post type filter: a named type must be registered and the actor must
   * hold its edit_posts capability; the answer is the query's 'post_type'.
   */
  function TypeFilter(site: Site, actor: Actor, filter: Struct): Checked<Option<Value>> {
    if !IsSet(filter, "post_type") then Success(None)
    else
      match TypeOf(site, Get(filter, "post_type"))
      case None => Refused(403, InvalidType)
      case Some(t) => if !Can(actor, t.cap.editPosts) then Refused(401, TypeDenied) else Success(Some(Get(filter, "post_type")))
  }

  /** Each other filter entry that is set, with 'numberposts' and 'offset' through `absint`. */
  function PostsQueryOf(postType: Option<Value>, filter: Struct): PostsQuery {
    PostsQuery(
      postType,
      if IsSet(filter, "post_status") then Some(Get(filter, "post_status")) else None,
      if IsSet(filter, "numberposts") then Some(AbsInt(Get(filter, "numberposts"))) else None,
      if IsSet(filter, "offset") then Some(AbsInt(Get(filter, "offset"))) else None,
      if IsSet(filter, "orderby") then Some(Get(filter, "orderby")) else None,
      if IsSet(filter, "orderby") && IsSet(filter, "order") then Some(Get(filter, "order")) else None)
  }

  /** The listed posts the actor may edit, each checked against its own 'ID', in listing order. */
  function Kept(site: Site, actor: Actor, posts: seq<PostView>): (r: seq<PostView>)
    ensures |r| <= |posts|
  {
    if posts == [] then []
    else
      var last := posts[|posts| - 1];
      var rest := Kept(site, actor, posts[..|posts| - 1]);
      if Editable(site, actor, last, last.id) then rest + [last] else rest
  }

  /** The `prepare_post` struct of each post, in order. */
  function Prepared(posts: seq<PostView>, fields: Value): (r: seq<Value>)
    ensures |r| == |posts|
    ensures forall i :: 0 <= i < |posts| ==> r[i] == PostStruct(Projected(posts[i], fields))
  {
    if posts == [] then []
    else Prepared(posts[..|posts| - 1], fields) + [PostStruct(Projected(posts[|posts| - 1], fields))]
  }

  /** What wp.getPosts answers for a listing. */
  function Listed(site: Site, actor: Actor, posts: seq<PostView>, fields: Value): seq<Value> {
    Prepared(Kept(site, actor, posts), fields)
  }

  /** wp.getPosts' whole effect: a refused filter makes no query; otherwise one query and its editable posts. */
  function GetPostsOutcome(site: Site, actor: Actor, filter: Struct, fieldsArg: Value, replies: Replies): Outcome {
    match TypeFilter(site, actor, filter)
    case Failure(e) => Outcome(e, [])
    case Success(postType) =>
      Outcome(Ok(VList(Listed(site, actor, replies.postListing, FieldsOrDefault(fieldsArg)))),
        [GetRecentPosts(PostsQueryOf(postType, filter))])
  }

  method CheckTypeFilter(site: Site, actor: Actor, filter: Struct) returns (r: Checked<Option<Value>>)
    ensures r == TypeFilter(site, actor, filter)
  {
    if !IsSet(filter, "post_type") {
      return Success(None);
    }
    var t := TypeOf(site, Get(filter, "post_type"));
    if t.None? {
      return Refused(403, InvalidType);
    }
    if !Can(actor, t.value.cap.editPosts) {
      return Refused(401, TypeDenied);
    }
    return Success(Some(Get(filter, "post_type")));
  }

  /** The loop of wp.getPosts: skip each post the actor may not edit, prepare the others. */
  method PrepareEditable(site: Site, actor: Actor, posts: seq<PostView>, fields: Value) returns (out: seq<Value>)
    ensures out == Listed(site, actor, posts, fields)
  {
    out := [];
    ghost var kept: seq<PostView> := [];
    var i := 0;
    while i < |posts|
      invariant 0 <= i <= |posts|
      invariant kept == Kept(site, actor, posts[..i])
      invariant out == Prepared(kept, fields)
    {
      var post := posts[i];
      KeptStep(site, actor, posts, i);
      i := i + 1;
      var t := TypeOf(site, VStr(post.postType));
      if t.None? || !CanOn(actor, t.value.cap.editPosts, post.id) {
        continue;
      }
      var reply := PreparePost(post, fields);
      PreparedSnoc(kept, post, fields);
      kept := kept + [post];
      out := out + [PostStruct(reply)];
    }
    assert posts[..|posts|] == posts;
  }

  /** wp.getPosts. */
  method ListPosts(store: Store, site: Site, actor: Actor, filter: Struct, fieldsArg: Value) returns (response: Response)
    modifies store
    ensures response == GetPostsOutcome(site, actor, filter, fieldsArg, store.replies).response
    ensures store.log == old(store.log) + GetPostsOutcome(site, actor, filter, fieldsArg, store.replies).calls
  {
    var fields := FieldsOrDefault(fieldsArg);
    var postType := CheckTypeFilter(site, actor, filter);
    if postType.Failure? {
      return postType.error;
    }
    var status: Option<Value> := None;
    if IsSet(filter, "post_status") {
      status := Some(Get(filter, "post_status"));
    }
    var number: Option<nat> := None;
    if IsSet(filter, "numberposts") {
      number := Some(AbsInt(Get(filter, "numberposts")));
    }
    var offset: Option<nat> := None;
    if IsSet(filter, "offset") {
      offset := Some(AbsInt(Get(filter, "offset")));
    }
    var orderby: Option<Value> := None;
    var order: Option<Value> := None;
    if IsSet(filter, "orderby") {
      orderby := Some(Get(filter, "orderby"));
      if IsSet(filter, "order") {
        order := Some(Get(filter, "order"));
      }
    }
    store.Record(GetRecentPosts(PostsQuery(postType.value, status, number, offset, orderby, order)));
    var listing := store.replies.postListing;
    if |listing| == 0 {
      return Ok(VList([]));
    }
    var posts := PrepareEditable(site, actor, listing, fields);
    return Ok(VList(posts));
  }

  // ---------------------------------------------------------------------------
  // Properties

  /** wp.getPost answers a post exactly when it exists and the actor may edit it, with its `prepare_post` struct. */
  lemma GetPostRule(site: Site, actor: Actor, postArg: Value, fieldsArg: Value)
    ensures GetPostOutcome(site, actor, postArg, fieldsArg).Ok? <==>
      PostAt(site, IntVal(postArg)).Some? && Editable(site, actor, PostAt(site, IntVal(postArg)).value, IntVal(postArg))
    ensures GetPostOutcome(site, actor, postArg, fieldsArg).Ok? ==>
      GetPostOutcome(site, actor, postArg, fieldsArg).value ==
        PostStruct(Projected(PostAt(site, IntVal(postArg)).value, FieldsOrDefault(fieldsArg)))
    ensures PostAt(site, IntVal(postArg)).None? ==> GetPostOutcome(site, actor, postArg, fieldsArg) == Fail(Fault(404, InvalidPost))
  {
  }

  lemma KeptStep(site: Site, actor: Actor, posts: seq<PostView>, i: int)
    requires 0 <= i < |posts|
    ensures Kept(site, actor, posts[..i + 1]) ==
      if Editable(site, actor, posts[i], posts[i].id) then Kept(site, actor, posts[..i]) + [posts[i]]
      else Kept(site, actor, posts[..i])
  {
    assert posts[..i + 1][..i] == posts[..i];
  }

  lemma PreparedSnoc(posts: seq<PostView>, last: PostView, fields: Value)
    ensures Prepared(posts + [last], fields) == Prepared(posts, fields) + [PostStruct(Projected(last, fields))]
  {
    assert (posts + [last])[..|posts|] == posts;
  }

  /** Keeping from a concatenation keeps from each part in turn. */
  lemma {:induction false} KeptConcat(site: Site, actor: Actor, a: seq<PostView>, b: seq<PostView>)
    ensures Kept(site, actor, a + b) == Kept(site, actor, a) + Kept(site, actor, b)
    decreases |b|
  {
    if b == [] {
      assert a + b == a;
    } else {
      var b' := b[..|b| - 1];
      assert (a + b)[..|a + b| - 1] == a + b';
      assert (a + b)[|a + b| - 1] == b[|b| - 1];
      KeptConcat(site, actor, a, b');
    }
  }

  /** The posts kept are exactly the listed posts the actor may edit. */
  lemma {:induction false} KeptExactlyEditable(site: Site, actor: Actor, posts: seq<PostView>, p: PostView)
    ensures p in Kept(site, actor, posts) <==> p in posts && Editable(site, actor, p, p.id)
  {
    if posts != [] {
      var init := posts[..|posts| - 1];
      assert posts == init + [posts[|posts| - 1]];
      KeptExactlyEditable(site, actor, init, p);
    }
  }

  /** When the actor may edit every listed post, all of them are kept, in order. */
  lemma {:induction false} KeptAllEditable(site: Site, actor: Actor, posts: seq<PostView>)
    requires forall i :: 0 <= i < |posts| ==> Editable(site, actor, posts[i], posts[i].id)
    ensures Kept(site, actor, posts) == posts
  {
    if posts != [] {
      var init := posts[..|posts| - 1];
      assert forall i :: 0 <= i < |init| ==> init[i] == posts[i];
      KeptAllEditable(site, actor, init);
      assert init + [posts[|posts| - 1]] == posts;
    }
  }

  /**
   * wp.getPosts answers, in listing order, the `prepare_post` struct of the
   * listed posts exactly the actor may edit.
   */
  lemma GetPostsAnswer(site: Site, actor: Actor, filter: Struct, fieldsArg: Value, replies: Replies, p: PostView)
    requires GetPostsOutcome(site, actor, filter, fieldsArg, replies).response.Ok?
    ensures var kept := Kept(site, actor, replies.postListing);
      var answer := GetPostsOutcome(site, actor, filter, fieldsArg, replies).response.value;
      answer.VList? && |answer.items| == |kept| &&
      (forall i :: 0 <= i < |kept| ==> answer.items[i] == PostStruct(Projected(kept[i], FieldsOrDefault(fieldsArg)))) &&
      (p in kept <==> p in replies.postListing && Editable(site, actor, p, p.id))
  {
    KeptExactlyEditable(site, actor, replies.postListing, p);
  }

  /**
   * wp.getPosts makes its one query unless the post type filter refuses, and
   * then answers nothing else; a refusal names an unregistered type (403) or
   * one whose edit_posts capability the actor lacks (401).
   */
  lemma GetPostsRefusals(site: Site, actor: Actor, filter: Struct, fieldsArg: Value, replies: Replies)
    ensures var o := GetPostsOutcome(site, actor, filter, fieldsArg, replies);
      o.response.Ok? <==> o.calls != []
    ensures var o := GetPostsOutcome(site, actor, filter, fieldsArg, replies);
      !o.response.Ok? <==>
        IsSet(filter, "post_type") &&
        (TypeOf(site, Get(filter, "post_type")).None? || !Can(actor, TypeOf(site, Get(filter, "post_type")).value.cap.editPosts))
    ensures var o := GetPostsOutcome(site, actor, filter, fieldsArg, replies);
      IsSet(filter, "post_type") && TypeOf(site, Get(filter, "post_type")).None? ==> o.response == Fail(Fault(403, InvalidType))
  {
  }

  /**
   * The query wp.getPosts sends carries each filter entry exactly when it is
   * set, the counts through `absint`, and an 'order' only beside an 'orderby'.
   */
  lemma GetPostsQuery(site: Site, actor: Actor, filter: Struct, fieldsArg: Value, replies: Replies)
    requires GetPostsOutcome(site, actor, filter, fieldsArg, replies).response.Ok?
    ensures GetPostsOutcome(site, actor, filter, fieldsArg, replies).calls == [GetRecentPosts(PostsQueryOf(TypeFilter(site, actor, filter).value, filter))]
    ensures var q := PostsQueryOf(TypeFilter(site, actor, filter).value, filter);
      (q.postType.Some? <==> IsSet(filter, "post_type")) &&
      (q.postType.Some? ==> q.postType.value == Get(filter, "post_type") && Can(actor, TypeOf(site, q.postType.value).value.cap.editPosts)) &&
      (q.postStatus.Some? <==> IsSet(filter, "post_status")) &&
      (q.numberposts.Some? <==> IsSet(filter, "numberposts")) &&
      (q.numberposts.Some? ==> q.numberposts.value == AbsInt(Get(filter, "numberposts"))) &&
      (q.offset.Some? <==> IsSet(filter, "offset")) &&
      (q.offset.Some? ==> q.offset.value == AbsInt(Get(filter, "offset"))) &&
      (q.orderby.Some? <==> IsSet(filter, "orderby")) &&
      (q.order.Some? <==> IsSet(filter, "orderby") && IsSet(filter, "order"))
  {
  }

  /**
   * A post wp.getPosts keeps is answered exactly as wp.getPost answers for its
   * ID, when the listing's row is the stored post.
   */
  lemma GetPostsAgreesWithGetPost(site: Site, actor: Actor, posts: seq<PostView>, fieldsArg: Value, p: PostView)
    requires p in Kept(site, actor, posts)
    requires p.id in site.posts && site.posts[p.id] == p && p.id != 0
    ensures GetPostOutcome(site, actor, VInt(p.id), fieldsArg) == Ok(PostStruct(Projected(p, FieldsOrDefault(fieldsArg))))
  {
    KeptExactlyEditable(site, actor, posts, p);
  }
}
