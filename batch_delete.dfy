/**
 * wp.deletePost and wp.deleteUser: a batch of IDs in which every ID is checked
 * before the first deletion, and whose answer lists, in request order, the IDs
 * whose deletion succeeded.
 */
module BatchDelete {
  import opened Wrappers
  import opened Php
  import opened World
  import opened Calls

  /**
   * The ID argument. `is_array` holds for an XML-RPC array and for a struct;
   * `IdList` carries the values `foreach` visits, in its order, and `IdScalar`
   * any other value.
   */
  datatype IdArg = IdList(items: seq<Value>) | IdScalar(id: Value)

  /** The IDs both loops walk: a single value becomes a one-element list of its `(int)` cast. */
  function Ids(arg: IdArg): seq<Value> {
    match arg
    case IdList(items) => items
    case IdScalar(v) => [VInt(IntVal(v))]
  }

  /** Which of the two handlers runs. */
  datatype Kind = Posts | Users

  /**
   * The deletion the second loop sends for one ID. It receives the array element
   * itself: the `(int)` cast of the first loop changed only that loop's copy.
   */
  function DeleteCall(k: Kind, id: Value): StoreCall {
    match k
    case Posts => DeletePost(id)
    case Users => DeleteUser(id)
  }

  /** The IDs whose `wp_delete_post`/`wp_delete_user` answers truthy. */
  function Deletable(k: Kind, replies: Replies): set<int> {
    match k
    case Posts => replies.deletablePosts
    case Users => replies.deletableUsers
  }

  const PostInvalid := "One of the post ID is invalid."
  const PostDenied := "Sorry, you are not allowed to delete one of the posts."
  const UsersDenied := "You are not allowed to delete users."
  const UserMissing := "Sorry, one of the given user does not exist."
  const UserSelf := "You cannot delete yourself."

  /**
   * wp.deletePost's check of one ID: the post must exist, and the actor must
   * hold its type's delete_post capability on it. An unregistered type has no
   * capability object, and `current_user_can` refuses the null capability.
   */
  function PostFault(site: Site, actor: Actor, v: Value): Option<Refusal> {
    var id := IntVal(v);
    match PostAt(site, id)
    case None => Some(Fail(Fault(404, PostInvalid)))
    case Some(p) =>
      var t := TypeOf(site, VStr(p.postType));
      if t.None? || !CanOn(actor, t.value.cap.deletePost, id) then Some(Fail(Fault(401, PostDenied)))
      else None
  }

  /** wp.deleteUser's check of one ID: the user must exist and must not be the actor. */
  function UserFault(site: Site, actor: Actor, v: Value): Option<Refusal> {
    var id := IntVal(v);
    if id !in site.users then Some(Fail(Fault(404, UserMissing)))
    else if actor.id == id then Some(Fail(Fault(401, UserSelf)))
    else None
  }

  function IdFault(k: Kind, site: Site, actor: Actor, v: Value): Option<Refusal> {
    match k
    case Posts => PostFault(site, actor, v)
    case Users => UserFault(site, actor, v)
  }

  /** The fault the validating loop stops at: that of the first ID that fails. */
  function FirstFault(k: Kind, site: Site, actor: Actor, ids: seq<Value>): (r: Option<Refusal>)
    ensures r.None? <==> forall i :: 0 <= i < |ids| ==> IdFault(k, site, actor, ids[i]).None?
  {
    if ids == [] then None
    else if IdFault(k, site, actor, ids[0]).Some? then IdFault(k, site, actor, ids[0])
    else FirstFault(k, site, actor, ids[1..])
  }

  /** The IDs whose deletion succeeded, in request order. */
  function Survivors(ids: seq<Value>, deletable: set<int>): (r: seq<Value>)
    ensures forall v :: v in r <==> v in ids && IntVal(v) in deletable
  {
    if ids == [] then []
    else
      var last := ids[|ids| - 1];
      Survivors(ids[..|ids| - 1], deletable) + (if IntVal(last) in deletable then [last] else [])
  }

  /** One deletion per requested ID, in request order. */
  function DeleteCalls(k: Kind, ids: seq<Value>): (r: seq<StoreCall>)
    ensures |r| == |ids| && forall i :: 0 <= i < |ids| ==> r[i] == DeleteCall(k, ids[i])
  {
    if ids == [] then []
    else DeleteCalls(k, ids[..|ids| - 1]) + [DeleteCall(k, ids[|ids| - 1])]
  }

  /** The handler's whole effect. wp.deleteUser first demands the delete_users capability. */
  function DeleteOutcome(k: Kind, site: Site, actor: Actor, arg: IdArg, replies: Replies): Outcome {
    if k.Users? && !Can(actor, "delete_users") then Outcome(Fail(Fault(401, UsersDenied)), [])
    else
      var ids := Ids(arg);
      match FirstFault(k, site, actor, ids)
      case Some(r) => Outcome(r, [])
      case None => Outcome(Ok(VList(Survivors(ids, Deletable(k, replies)))), DeleteCalls(k, ids))
  }

  // ---------------------------------------------------------------------------
  // The handlers

  /** The first loop: stops at the first ID that fails its check. */
  method Validate(k: Kind, site: Site, actor: Actor, ids: seq<Value>) returns (fault: Option<Refusal>)
    ensures fault == FirstFault(k, site, actor, ids)
  {
    for i := 0 to |ids|
      invariant forall j :: 0 <= j < i ==> IdFault(k, site, actor, ids[j]).None?
    {
      var f := IdFault(k, site, actor, ids[i]);
      if f.Some? {
        FirstFaultAt(k, site, actor, ids, i);
        return f;
      }
    }
    return None;
  }

  /** The second loop: deletes every ID and keeps those whose deletion succeeded. */
  method DeleteEach(store: Store, k: Kind, ids: seq<Value>) returns (deleted: seq<Value>)
    modifies store
    ensures deleted == Survivors(ids, Deletable(k, store.replies))
    ensures store.log == old(store.log) + DeleteCalls(k, ids)
  {
    deleted := [];
    assert ids[..|ids|] == ids;
    for i := 0 to |ids|
      invariant deleted == Survivors(ids[..i], Deletable(k, store.replies))
      invariant store.log == old(store.log) + DeleteCalls(k, ids[..i])
    {
      store.Record(DeleteCall(k, ids[i]));
      if IntVal(ids[i]) in Deletable(k, store.replies) {
        deleted := deleted + [ids[i]];
      }
      assert ids[..i + 1][..i] == ids[..i];
      Regroup(old(store.log), DeleteCalls(k, ids[..i]), [DeleteCall(k, ids[i])]);
    }
  }

  /** wp.deletePost. */
  method DeletePosts(store: Store, site: Site, actor: Actor, arg: IdArg) returns (response: Response)
    modifies store
    ensures response == DeleteOutcome(Posts, site, actor, arg, store.replies).response
    ensures store.log == old(store.log) + DeleteOutcome(Posts, site, actor, arg, store.replies).calls
  {
    var ids := Ids(arg);
    var fault := Validate(Posts, site, actor, ids);
    if fault.Some? {
      return fault.value;
    }
    var deleted := DeleteEach(store, Posts, ids);
    return Ok(VList(deleted));
  }

  /** wp.deleteUser. */
  method DeleteUsers(store: Store, site: Site, actor: Actor, arg: IdArg) returns (response: Response)
    modifies store
    ensures response == DeleteOutcome(Users, site, actor, arg, store.replies).response
    ensures store.log == old(store.log) + DeleteOutcome(Users, site, actor, arg, store.replies).calls
  {
    if !Can(actor, "delete_users") {
      return Fail(Fault(401, UsersDenied));
    }
    var ids := Ids(arg);
    var fault := Validate(Users, site, actor, ids);
    if fault.Some? {
      return fault.value;
    }
    var deleted := DeleteEach(store, Users, ids);
    return Ok(VList(deleted));
  }

  // ---------------------------------------------------------------------------
  // Properties

  /** The loop stops at the first failing ID, with that ID's fault. */
  lemma {:induction false} FirstFaultAt(k: Kind, site: Site, actor: Actor, ids: seq<Value>, i: int)
    requires 0 <= i < |ids| && IdFault(k, site, actor, ids[i]).Some?
    requires forall j :: 0 <= j < i ==> IdFault(k, site, actor, ids[j]).None?
    ensures FirstFault(k, site, actor, ids) == IdFault(k, site, actor, ids[i])
  {
    if i > 0 {
      assert forall j :: 0 <= j < i - 1 ==> ids[1..][j] == ids[j + 1];
      FirstFaultAt(k, site, actor, ids[1..], i - 1);
    }
  }

  /** Filtering keeps request order: the survivors of a concatenation are the concatenated survivors. */
  lemma {:induction false} SurvivorsConcat(a: seq<Value>, b: seq<Value>, deletable: set<int>)
    ensures Survivors(a + b, deletable) == Survivors(a, deletable) + Survivors(b, deletable)
  {
    if b != [] {
      var n := |b| - 1;
      assert (a + b)[..|a + b| - 1] == a + b[..n];
      assert (a + b)[|a + b| - 1] == b[n];
      SurvivorsConcat(a, b[..n], deletable);
      Regroup(Survivors(a, deletable), Survivors(b[..n], deletable),
        if IntVal(b[n]) in deletable then [b[n]] else []);
    } else {
      assert a + b == a;
    }
  }

  /** Any failing ID means no deletion at all; a deletion is sent only once every ID has passed. */
  lemma AllOrNothing(k: Kind, site: Site, actor: Actor, arg: IdArg, replies: Replies)
    ensures var o := DeleteOutcome(k, site, actor, arg, replies);
      o.response.Ok? <==>
        (k.Users? ==> Can(actor, "delete_users")) &&
        forall i :: 0 <= i < |Ids(arg)| ==> IdFault(k, site, actor, Ids(arg)[i]).None?
    ensures var o := DeleteOutcome(k, site, actor, arg, replies);
      !o.response.Ok? ==> o.calls == []
    ensures var o := DeleteOutcome(k, site, actor, arg, replies);
      o.response.Ok? ==> o.calls == DeleteCalls(k, Ids(arg))
  {
  }

  /** A successful batch answers with the requested IDs whose deletion succeeded, and no others. */
  lemma Answer(k: Kind, site: Site, actor: Actor, arg: IdArg, replies: Replies)
    requires DeleteOutcome(k, site, actor, arg, replies).response.Ok?
    ensures var r := DeleteOutcome(k, site, actor, arg, replies).response.value;
      r.VList? && forall v :: v in r.items <==> v in Ids(arg) && IntVal(v) in Deletable(k, replies)
  {
  }

  /** A single ID is deleted as its `(int)` cast, and is answered alone or not at all. */
  lemma ScalarBatch(k: Kind, site: Site, actor: Actor, v: Value, replies: Replies)
    requires DeleteOutcome(k, site, actor, IdScalar(v), replies).response.Ok?
    ensures var o := DeleteOutcome(k, site, actor, IdScalar(v), replies);
      o.calls == [DeleteCall(k, VInt(IntVal(v)))] &&
      o.response == Ok(VList(if IntVal(v) in Deletable(k, replies) then [VInt(IntVal(v))] else []))
  {
    SurvivorsOfOne(VInt(IntVal(v)), Deletable(k, replies));
  }

  lemma SurvivorsOfOne(x: Value, deletable: set<int>)
    ensures Survivors([x], deletable) == if IntVal(x) in deletable then [x] else []
  {
    assert [x][..0] == [];
  }

  /** wp.deletePost deletes only existing posts the actor may delete. */
  lemma PostsDeletedOnlyWhenAllowed(site: Site, actor: Actor, arg: IdArg, replies: Replies, i: int)
    requires 0 <= i < |DeleteOutcome(Posts, site, actor, arg, replies).calls|
    ensures var call := DeleteOutcome(Posts, site, actor, arg, replies).calls[i];
      call.DeletePost? && PostAt(site, IntVal(call.id)).Some? &&
      var t := TypeOf(site, VStr(PostAt(site, IntVal(call.id)).value.postType));
      t.Some? && CanOn(actor, t.value.cap.deletePost, IntVal(call.id))
  {
    assert PostFault(site, actor, Ids(arg)[i]).None?;
  }

  /** wp.deleteUser deletes only existing users other than the actor, and only with delete_users. */
  lemma UsersDeletedOnlyWhenAllowed(site: Site, actor: Actor, arg: IdArg, replies: Replies, i: int)
    requires 0 <= i < |DeleteOutcome(Users, site, actor, arg, replies).calls|
    ensures var call := DeleteOutcome(Users, site, actor, arg, replies).calls[i];
      call.DeleteUser? && Can(actor, "delete_users") &&
      IntVal(call.id) in site.users && IntVal(call.id) != actor.id
  {
    assert UserFault(site, actor, Ids(arg)[i]).None?;
  }
}
