/**
 * wp.newPost and wp.editPost from the validated `$post_data` on: the write
 * (`wp_insert_post` or `wp_update_post`), then the sticky flag, the custom
 * fields, the terms or the legacy categories, keywords and format, and the
 * enclosure and uploads. Every check after the write is made after the post was
 * already written, so its error comes back with the write in the log.
 */
module PostWrites {
  import opened Wrappers
  import opened Php
  import opened World
  import opened Calls
  import opened PostGuards
  import opened TermReconciler

  /** The write, an insert for wp.newPost and an update for wp.editPost. */
  function WriteCall(c: WriteContext, d: PostData): StoreCall {
    if c.mode.Create? then InsertPost(d) else UpdatePost(d)
  }

  function ReplyFor(m: Mode, replies: Replies): WriteReply {
    if m.Create? then replies.insertPost else replies.updatePost
  }

  /** The ID the write answered; an error answer is a 500, and 0 is a 401 on create and a 500 on edit. */
  function WrittenId(m: Mode, reply: WriteReply): Checked<int> {
    match reply
    case WriteError(message) => Refused(500, message)
    case Written(id) =>
      if id == 0 then Refused(if m.Create? then 401 else 500, "Sorry, your entry could not be posted. Something wrong happened.")
      else Success(id)
  }

  /**
   * The sticky flag. wp.newPost handles it for the type 'post', where a falsy or
   * missing flag unsticks, and refuses it for any other type; wp.editPost
   * handles it only when it is set. Sticking needs the status 'publish' and
   * edit_others_posts.
   */
  function Sticky(c: WriteContext, d: PostData, post: int): Checked<seq<StoreCall>> {
    if c.mode.Create? && !WordEq(TypeArg(c), "post") then
      if IsSet(c.cs, "sticky") then Refused(401, "Sorry, only posts can be sticky.") else Success([])
    else if c.mode.Update? && !IsSet(c.cs, "sticky") then Success([])
    else if !Truthy(Get(c.cs, "sticky")) then Success([UnstickPost(post)])
    else if !WordEq(Column(d, ColStatus), "publish") then Refused(401, "Only published posts can be made sticky.")
    else if !Can(c.actor, c.postType.cap.editOthersPosts) then
      Refused(401, "Sorry, you are not allowed to stick this post.")
    else Success([StickPost(post)])
  }

  /** The custom fields, which need 'custom-fields' support. */
  function CustomFields(c: WriteContext, post: int): Checked<seq<StoreCall>> {
    if !IsSet(c.cs, "custom_fields") then Success([])
    else if !Supports(c.site, TypeArg(c), "custom-fields") then
      Refused(401, Sentence(c.mode, "This post type does not support custom fields"))
    else Success([SetCustomFields(post, Get(c.cs, "custom_fields"))])
  }

  /** `get_object_taxonomies` of the type the term branches consult. */
  function PostTaxonomies(c: WriteContext): seq<string> {
    TaxonomiesOf(c.site, c.termsType)
  }

  /** `get_cat_ID` of each name, or None when some name is unknown. */
  function CategoryIds(site: Site, names: seq<Value>): (r: Option<seq<int>>)
    ensures r.Some? ==> |r.value| == |names| && forall i :: 0 <= i < |names| ==> r.value[i] != 0
  {
    if exists i :: 0 <= i < |names| && CategoryId(site, Str(names[i])) == 0 then None
    else Some(seq(|names|, i requires 0 <= i < |names| => CategoryId(site, Str(names[i]))))
  }

  /**
   * The categories. The list handed to `wp_set_post_categories` is never
   * initialised, so it is null when no name was given.
   */
  function Categories(c: WriteContext, post: int): Checked<seq<StoreCall>> {
    if !IsSet(c.cs, "categories") then Success([])
    else if "category" !in PostTaxonomies(c) then Refused(401, "Sorry, Categories are not supported by the post type")
    else match CategoryIds(c.site, Items(Get(c.cs, "categories")))
      case None => Refused(401, "Sorry, one of the given categories does not exist!")
      case Some(ids) => Success([SetPostCategories(post, if ids == [] then None else Some(ids))])
  }

  /** The keywords: the call passes the undefined `$post_id` and `$tags`, both null. */
  function Keywords(c: WriteContext): Checked<seq<StoreCall>> {
    if !IsSet(c.cs, "mt_keywords") then Success([])
    else if "post_tag" !in PostTaxonomies(c) then Refused(401, "Sorry, post tags are not supported by the post type")
    else Success([SetPostTerms(VNull, VNull, "post_tag", false)])
  }

  /** The post format, assigned as the term 'post-format-{format}'. */
  function Format(c: WriteContext, post: int): Checked<seq<StoreCall>> {
    if !IsSet(c.cs, "wp_post_format") then Success([])
    else if "post_format" !in PostTaxonomies(c) then
      Refused(401, "Sorry, post formats are not supported by the post type")
    else
      Success([SetPostTerms(VInt(post), VList([VStr("post-format-" + Str(Get(c.cs, "wp_post_format")))]), "post_format", false)])
  }

  /** The last two calls of a request without `terms`: the enclosure (null when not sent) and the uploads found in the content. */
  function Finish(c: WriteContext, d: PostData, post: int): seq<StoreCall> {
    [AddEnclosureIfNew(post, Get(c.cs, "enclosure")), AttachUploads(post, Column(d, ColContent))]
  }

  /** One check-then-call step followed by the rest of the handler: a refused step ends the request before its calls. */
  function Step(s: Checked<seq<StoreCall>>, rest: Outcome): (o: Outcome)
    ensures s.Failure? ==> o == Outcome(s.error, [])
    ensures s.Success? ==> o.response == rest.response && o.calls == s.value + rest.calls
  {
    match s
    case Failure(r) => Outcome(r, [])
    case Success(calls) => After(calls, rest)
  }

  /** The branches that run when no `terms` were sent, then the finish; the answer is the ID as a string. */
  function Legacy(c: WriteContext, d: PostData, post: int): Outcome {
    Step(Categories(c, post),
      Step(Keywords(c),
        Step(Format(c, post), Outcome(Ok(VStr(IntToString(post))), Finish(c, d, post)))))
  }

  /** With `terms` the handler answers the reconciler's result (the undefined `$append` passes null) and stops. */
  function Terms(c: WriteContext, d: PostData, post: int, terms: Option<TermsArg>): Outcome {
    if terms.Some? then ReconcileOutcome(c.site, PostTaxonomies(c), post, terms.value, VNull)
    else Legacy(c, d, post)
  }

  /** Everything after the write. */
  function Tail(c: WriteContext, d: PostData, post: int, terms: Option<TermsArg>): Outcome {
    Step(Sticky(c, d, post), Step(CustomFields(c, post), Terms(c, d, post, terms)))
  }

  /** What follows the write: the refusal of a failed write, or the tail with the written ID. */
  function AfterWrite(c: WriteContext, d: PostData, terms: Option<TermsArg>, replies: Replies): Outcome {
    match WrittenId(c.mode, ReplyFor(c.mode, replies))
    case Failure(r) => Outcome(r, [])
    case Success(post) => Tail(c, d, post, terms)
  }

  /** The write and everything after it, once validation has produced `d`. */
  function Commit(c: WriteContext, d: PostData, terms: Option<TermsArg>, replies: Replies): Outcome {
    After([WriteCall(c, d)], AfterWrite(c, d, terms, replies))
  }

  /**
   * `terms` is what the handlers read from content_struct['terms']: nothing
   * when it is not set, and otherwise its entries in the order sent.
   */
  predicate TermsOf(cs: Struct, terms: Option<TermsArg>) {
    if IsSet(cs, "terms") then terms.Some? && EntriesOf(Get(cs, "terms"), terms.value) else terms.None?
  }

  /**
   * A whole request to wp.newPost (`Create`) or wp.editPost (`Update`): the
   * validation chain, the write, and the tail. The handlers pass `terms` as
   * `TermsOf` says; the properties of this function hold for any entries.
   */
  function WriteOutcome(site: Site, actor: Actor, mode: Mode, publish: Value, cs: Struct,
                        terms: Option<TermsArg>, replies: Replies): Outcome
  {
    match Validated(site, actor, mode, publish, cs)
    case Failure(r) => Outcome(r, [])
    case Success((c, d)) => Commit(c, d, terms, replies)
  }

  // ---------------------------------------------------------------------------
  // The tail as the handlers run it

  function StopOf(r: Checked<seq<StoreCall>>): Option<Response> {
    if r.Failure? then Some(r.error) else None
  }

  function CallsOf(r: Checked<seq<StoreCall>>): seq<StoreCall> {
    if r.Success? then r.value else []
  }

  method RunSticky(store: Store, c: WriteContext, d: PostData, post: int) returns (stop: Option<Response>)
    modifies store
    ensures stop == StopOf(Sticky(c, d, post))
    ensures store.log == old(store.log) + CallsOf(Sticky(c, d, post))
  {
    if c.mode.Create? && !WordEq(TypeArg(c), "post") {
      if IsSet(c.cs, "sticky") {
        return Some(Fail(Fault(401, "Sorry, only posts can be sticky.")));
      }
      return None;
    }
    if c.mode.Update? && !IsSet(c.cs, "sticky") {
      return None;
    }
    if Truthy(Get(c.cs, "sticky")) {
      if !WordEq(Column(d, ColStatus), "publish") {
        return Some(Fail(Fault(401, "Only published posts can be made sticky.")));
      }
      if !Can(c.actor, c.postType.cap.editOthersPosts) {
        return Some(Fail(Fault(401, "Sorry, you are not allowed to stick this post.")));
      }
      store.Record(StickPost(post));
    } else {
      store.Record(UnstickPost(post));
    }
    return None;
  }

  method RunCustomFields(store: Store, c: WriteContext, post: int) returns (stop: Option<Response>)
    modifies store
    ensures stop == StopOf(CustomFields(c, post))
    ensures store.log == old(store.log) + CallsOf(CustomFields(c, post))
  {
    if IsSet(c.cs, "custom_fields") {
      if !Supports(c.site, TypeArg(c), "custom-fields") {
        return Some(Fail(Fault(401, Sentence(c.mode, "This post type does not support custom fields"))));
      }
      store.Record(SetCustomFields(post, Get(c.cs, "custom_fields")));
    }
    return None;
  }

  /** The category `foreach`: `get_cat_ID` of each name, stopping at the first unknown one. */
  method CollectCategories(site: Site, names: seq<Value>) returns (ids: Option<seq<int>>)
    ensures ids == CategoryIds(site, names)
  {
    var found: seq<int> := [];
    for i := 0 to |names|
      invariant |found| == i
      invariant forall j :: 0 <= j < i ==> found[j] == CategoryId(site, Str(names[j])) && found[j] != 0
    {
      var id := CategoryId(site, Str(names[i]));
      if id == 0 {
        return None;
      }
      found := found + [id];
    }
    assert found == seq(|names|, i requires 0 <= i < |names| => CategoryId(site, Str(names[i])));
    return Some(found);
  }

  method RunCategories(store: Store, c: WriteContext, post: int) returns (stop: Option<Response>)
    modifies store
    ensures stop == StopOf(Categories(c, post))
    ensures store.log == old(store.log) + CallsOf(Categories(c, post))
  {
    if IsSet(c.cs, "categories") {
      if "category" !in PostTaxonomies(c) {
        return Some(Fail(Fault(401, "Sorry, Categories are not supported by the post type")));
      }
      var ids := CollectCategories(c.site, Items(Get(c.cs, "categories")));
      if ids.None? {
        return Some(Fail(Fault(401, "Sorry, one of the given categories does not exist!")));
      }
      store.Record(SetPostCategories(post, if ids.value == [] then None else Some(ids.value)));
    }
    return None;
  }

  method RunKeywords(store: Store, c: WriteContext) returns (stop: Option<Response>)
    modifies store
    ensures stop == StopOf(Keywords(c))
    ensures store.log == old(store.log) + CallsOf(Keywords(c))
  {
    if IsSet(c.cs, "mt_keywords") {
      if "post_tag" !in PostTaxonomies(c) {
        return Some(Fail(Fault(401, "Sorry, post tags are not supported by the post type")));
      }
      store.Record(SetPostTerms(VNull, VNull, "post_tag", false));
    }
    return None;
  }

  method RunFormat(store: Store, c: WriteContext, post: int) returns (stop: Option<Response>)
    modifies store
    ensures stop == StopOf(Format(c, post))
    ensures store.log == old(store.log) + CallsOf(Format(c, post))
  {
    if IsSet(c.cs, "wp_post_format") {
      if "post_format" !in PostTaxonomies(c) {
        return Some(Fail(Fault(401, "Sorry, post formats are not supported by the post type")));
      }
      store.Record(SetPostTerms(VInt(post), VList([VStr("post-format-" + Str(Get(c.cs, "wp_post_format")))]),
                                "post_format", false));
    }
    return None;
  }

  method RunFinish(store: Store, c: WriteContext, d: PostData, post: int)
    modifies store
    ensures store.log == old(store.log) + Finish(c, d, post)
  {
    store.Record(AddEnclosureIfNew(post, Get(c.cs, "enclosure")));
    store.Record(AttachUploads(post, Column(d, ColContent)));
    Regroup(old(store.log), [AddEnclosureIfNew(post, Get(c.cs, "enclosure"))], [AttachUploads(post, Column(d, ColContent))]);
  }

  method RunLegacy(store: Store, c: WriteContext, d: PostData, post: int) returns (response: Response)
    modifies store
    ensures response == Legacy(c, d, post).response
    ensures store.log == old(store.log) + Legacy(c, d, post).calls
  {
    var stop := RunCategories(store, c, post);
    if stop.Some? {
      return stop.value;
    }
    stop := RunKeywords(store, c);
    if stop.Some? {
      Regroup(old(store.log), CallsOf(Categories(c, post)), []);
      return stop.value;
    }
    stop := RunFormat(store, c, post);
    if stop.Some? {
      Concat(old(store.log), CallsOf(Categories(c, post)), CallsOf(Keywords(c)), []);
      return stop.value;
    }
    RunFinish(store, c, d, post);
    Concat(old(store.log) + CallsOf(Categories(c, post)), CallsOf(Keywords(c)), CallsOf(Format(c, post)), Finish(c, d, post));
    Regroup(old(store.log), CallsOf(Categories(c, post)), CallsOf(Keywords(c)) + (CallsOf(Format(c, post)) + Finish(c, d, post)));
    return Ok(VStr(IntToString(post)));
  }

  method RunTail(store: Store, c: WriteContext, d: PostData, post: int, terms: Option<TermsArg>)
    returns (response: Response)
    modifies store
    ensures response == Tail(c, d, post, terms).response
    ensures store.log == old(store.log) + Tail(c, d, post, terms).calls
  {
    var stop := RunSticky(store, c, d, post);
    if stop.Some? {
      return stop.value;
    }
    ghost var sticky := store.log;
    stop := RunCustomFields(store, c, post);
    if stop.Some? {
      return stop.value;
    }
    ghost var fields := store.log;
    if terms.Some? {
      response := Reconcile(store, c.site, PostTaxonomies(c), post, terms.value, VNull);
    } else {
      response := RunLegacy(store, c, d, post);
    }
    Concat(old(store.log), CallsOf(Sticky(c, d, post)), CallsOf(CustomFields(c, post)), Terms(c, d, post, terms).calls);
  }

  /** The write and the tail, once validation has passed. */
  method RunWritten(store: Store, c: WriteContext, d: PostData, terms: Option<TermsArg>) returns (response: Response)
    modifies store
    ensures response == Commit(c, d, terms, store.replies).response
    ensures store.log == old(store.log) + Commit(c, d, terms, store.replies).calls
  {
    // we got everything we need
    store.Record(WriteCall(c, d));
    var written := WrittenId(c.mode, ReplyFor(c.mode, store.replies));
    if written.Failure? {
      return written.error;
    }
    response := RunTail(store, c, d, written.value, terms);
    Regroup(old(store.log), [WriteCall(c, d)], AfterWrite(c, d, terms, store.replies).calls);
  }

  /** Either handler: validate, write, then run the tail. */
  method WritePost(store: Store, site: Site, actor: Actor, mode: Mode, publish: Value, cs: Struct,
                   terms: Option<TermsArg>) returns (response: Response)
    requires TermsOf(cs, terms)
    modifies store
    ensures response == WriteOutcome(site, actor, mode, publish, cs, terms, store.replies).response
    ensures store.log == old(store.log) + WriteOutcome(site, actor, mode, publish, cs, terms, store.replies).calls
  {
    var built := BuildPostData(site, actor, mode, publish, cs);
    if built.Failure? {
      return built.error;
    }
    response := RunWritten(store, built.value.0, built.value.1, terms);
  }
  /** wp.newPost; `publish` is the fifth argument, null when absent. */
  method NewPost(store: Store, site: Site, actor: Actor, cs: Struct, publish: Value, terms: Option<TermsArg>)
    returns (response: Response)
    requires TermsOf(cs, terms)
    modifies store
    ensures response == WriteOutcome(site, actor, Create, publish, cs, terms, store.replies).response
    ensures store.log == old(store.log) + WriteOutcome(site, actor, Create, publish, cs, terms, store.replies).calls
  {
    response := WritePost(store, site, actor, Create, publish, cs, terms);
  }

  /** wp.editPost; the post ID argument is cast with `(int)`. */
  method EditPost(store: Store, site: Site, actor: Actor, postArg: Value, cs: Struct, publish: Value,
                  terms: Option<TermsArg>) returns (response: Response)
    requires TermsOf(cs, terms)
    modifies store
    ensures response == WriteOutcome(site, actor, Update(IntVal(postArg)), publish, cs, terms, store.replies).response
    ensures store.log ==
      old(store.log) + WriteOutcome(site, actor, Update(IntVal(postArg)), publish, cs, terms, store.replies).calls
  {
    response := WritePost(store, site, actor, Update(IntVal(postArg)), publish, cs, terms);
  }
}
