/**
 * The validation chain wp.newPost and wp.editPost run before they write: each
 * guard either adds columns to `$post_data` or ends the request with an
 * `IXR_Error`. The two handlers are near copies; `Mode` says which one runs,
 * and every place where the copies differ (messages, defaults, per-object
 * capability checks, which key the requested status is read from) is decided
 * by it.
 */
module PostGuards {
  import opened Wrappers
  import opened Php
  import opened World
  import opened Calls

  /** wp.newPost, or wp.editPost on the post with this ID. */
  datatype Mode = Create | Update(postId: int)

  /**
   * What the guards consult once access is granted: the site, the actor, the
   * handler, the post type whose capabilities and hierarchy apply, the post type
   * whose taxonomies the term branches consult, and the content_struct.
   */
  datatype WriteContext = WriteContext(
    site: Site, actor: Actor, mode: Mode, postType: PostType, termsType: Value, cs: Struct)

  /** `e` differs from `d` at most in the columns `touched`, and has the same dates. */
  predicate Agrees(d: PostData, e: PostData, touched: set<PostColumn>) {
    e.date == d.date && forall k :: k !in touched ==> Column(e, k) == Column(d, k)
  }

  /** `$content_struct['post_type']`, which both handlers hand to `post_type_supports`. */
  function TypeArg(c: WriteContext): Value {
    Get(c.cs, "post_type")
  }

  /** wp.editPost drops the final period of several messages wp.newPost ends with one. */
  function Sentence(m: Mode, s: string): string {
    if m.Create? then s + "." else s
  }

  // ---------------------------------------------------------------------------
  // Access

  const CreateDenied := "Sorry, you are not allowed to create posts in this post type"

  /**
   * The post type lookup and the edit capability. wp.newPost takes the type the
   * request names; wp.editPost takes the stored post's type and asks for the
   * capability on that post (a type that is not registered leaves no capability
   * to hold).
   */
  function Access(site: Site, actor: Actor, mode: Mode, cs: Struct): (r: Checked<WriteContext>)
    ensures r.Success? ==> r.value.site == site && r.value.actor == actor && r.value.mode == mode && r.value.cs == cs
  {
    match mode
    case Create =>
      (match TypeOf(site, Get(cs, "post_type"))
       case None => Refused(403, "Invalid post type")
       case Some(t) =>
         if !Can(actor, t.cap.editPosts) then Refused(401, CreateDenied)
         else Success(WriteContext(site, actor, mode, t, Get(cs, "post_type"), cs)))
    case Update(id) =>
      match PostAt(site, id)
      case None => Refused(404, "Invalid post ID.")
      case Some(p) =>
        match TypeOf(site, VStr(p.postType))
        case None => Refused(401, CreateDenied)
        case Some(t) =>
          if !CanOn(actor, t.cap.editPosts, id) then Refused(401, CreateDenied)
          else Success(WriteContext(site, actor, mode, t, VStr(p.postType), cs))
  }

  /** `$post_data` before the first guard: the post type for a new post, the ID for an edit. */
  function InitialData(c: WriteContext): PostData {
    match c.mode
    case Create => PostData(map[ColType := Get(c.cs, "post_type")], None)
    case Update(id) => PostData(map[ColId := VInt(id)], None)
  }

  // ---------------------------------------------------------------------------
  // Status and password

  function DefaultStatus(publish: Value): Value {
    if Truthy(publish) then VStr("publish") else VStr("draft")
  }

  /** The key whose presence means a status was requested: "{post_type}_status" of the content_struct. */
  function StatusFlagKey(cs: Struct): string {
    Str(Get(cs, "post_type")) + "_status"
  }

  /**
   * The key the requested status is read from, built from `$post_data['post_type']`;
   * wp.editPost never sets that column, so it reads "_status".
   */
  function StatusReadKey(d: PostData): string {
    Str(Column(d, ColType)) + "_status"
  }

  function RequestedStatus(cs: Struct, d: PostData, publish: Value): Value {
    if IsSet(cs, StatusFlagKey(cs)) then Get(cs, StatusReadKey(d)) else DefaultStatus(publish)
  }

  /** `current_user_can(publish_posts)`, asked about the post itself when editing. */
  predicate MayPublish(c: WriteContext) {
    match c.mode
    case Create => Can(c.actor, c.postType.cap.publishPosts)
    case Update(id) => CanOn(c.actor, c.postType.cap.publishPosts, id)
  }

  /** The status `switch`, whose cases compare loosely (`WordEq`). */
  function StatusFault(c: WriteContext, status: Value): Option<Fault> {
    if WordEq(status, "draft") || WordEq(status, "pending") then None
    else if WordEq(status, "private") then
      if MayPublish(c) then None
      else Some(Fault(401, "Sorry, you are not allowed to create private posts in this post type"))
    else if WordEq(status, "publish") then
      if MayPublish(c) then None
      else Some(Fault(401, "Sorry, you are not allowed to publish posts in this post type"))
    else if c.mode.Create? then Some(Fault(401, "Invalid post status"))
    else Some(Fault(401, "The post status specified is not valid"))
  }

  function Status(c: WriteContext, d: PostData, publish: Value): (r: Checked<PostData>)
    ensures r.Success? ==> StatusFault(c, RequestedStatus(c.cs, d, publish)) == None
    ensures r.Success? ==> Column(r.value, ColStatus) == RequestedStatus(c.cs, d, publish)
    ensures r.Success? ==> Agrees(d, r.value, {ColStatus})
  {
    var status := RequestedStatus(c.cs, d, publish);
    match StatusFault(c, status)
    case Some(f) => Failure(Fail(f))
    case None => Success(With(d, ColStatus, status))
  }

  /** The password, which needs publish_posts (asked without the post in both handlers), and the slug. */
  function Credentials(c: WriteContext, d: PostData): (r: Checked<PostData>)
    ensures r.Success? ==> Agrees(d, r.value, {ColPassword, ColName})
  {
    if IsSet(c.cs, "wp_password") && !Can(c.actor, c.postType.cap.publishPosts) then
      Refused(401, "Sorry, you are not allowed to create password protected posts in this post type")
    else
      var d1 := if IsSet(c.cs, "wp_password") then With(d, ColPassword, Get(c.cs, "wp_password")) else d;
      var d2 := if c.mode.Create? then With(d1, ColName, VStr("")) else d1;
      Success(if IsSet(c.cs, "wp_slug") then With(d2, ColName, Get(c.cs, "wp_slug")) else d2)
  }

  // ---------------------------------------------------------------------------
  // Page attributes

  /** The menu order, which needs 'page-attributes'; wp.newPost casts it with `(int)`. */
  function PageOrder(c: WriteContext, d: PostData): (r: Checked<PostData>)
    ensures r.Success? ==> Agrees(d, r.value, {ColMenuOrder})
  {
    if !IsSet(c.cs, "wp_page_order") then Success(d)
    else if !Supports(c.site, TypeArg(c), "page-attributes") then
      Refused(401, Sentence(c.mode, "This post type does not support page attributes"))
    else
      var v := Get(c.cs, "wp_page_order");
      Success(With(d, ColMenuOrder, if c.mode.Create? then VInt(IntVal(v)) else v))
  }

  /**
   * The parent, which needs a hierarchical type; a parent ID other than 0 must
   * name a stored post whose type equals (loosely) the requested type. The raw
   * value is stored.
   */
  function Parent(c: WriteContext, d: PostData): (r: Checked<PostData>)
    ensures r.Success? ==> Agrees(d, r.value, {ColParent})
  {
    if !IsSet(c.cs, "wp_page_parent_id") then Success(d)
    else if !c.postType.hierarchical then
      Refused(401, Sentence(c.mode, "This post type does not support post hierarchy"))
    else
      var v := Get(c.cs, "wp_page_parent_id");
      var parent := PostAt(c.site, IntVal(v));
      if IntVal(v) != 0 && parent.None? then Refused(401, "Invalid parent ID.")
      else if IntVal(v) != 0 && !LooseEqStr(TypeArg(c), parent.value.postType) then
        Refused(401, Sentence(c.mode, "The parent post is of different post type"))
      else Success(With(d, ColParent, v))
  }

  /** `array_key_exists($v, get_page_templates() + ['Default' => 'default'])`. */
  predicate TemplateKnown(site: Site, v: Value) {
    var k := ArrayKey(v);
    k.Some? && (k.value in site.pageTemplates || k.value == "Default")
  }

  /** The page template, only for the type 'page' and only a known template name. */
  function Template(c: WriteContext, d: PostData): (r: Checked<PostData>)
    ensures r.Success? ==> Agrees(d, r.value, {ColTemplate})
  {
    if !IsSet(c.cs, "wp_page_template") then Success(d)
    else if !WordEq(TypeArg(c), "page") then
      Refused(401, Sentence(c.mode, "Page templates are only supported by pages"))
    else if !TemplateKnown(c.site, Get(c.cs, "wp_page_template")) then
      Refused(403, "Invalid page template.")
    else Success(With(d, ColTemplate, Get(c.cs, "wp_page_template")))
  }

  function PageAttributes(c: WriteContext, d: PostData): (r: Checked<PostData>)
    ensures r.Success? ==> Agrees(d, r.value, {ColMenuOrder, ColParent, ColTemplate})
  {
    var d1 :- PageOrder(c, d);
    var d2 :- Parent(c, d1);
    Template(c, d2)
  }

  // ---------------------------------------------------------------------------
  // Author and content

  /**
   * Does the request ask for an author other than the actor? wp.newPost compares
   * with the `(int)` cast, wp.editPost compares the raw value loosely.
   */
  predicate OtherAuthor(c: WriteContext) {
    IsSet(c.cs, "wp_author_id") &&
    (if c.mode.Create? then c.actor.id != IntVal(Get(c.cs, "wp_author_id"))
     else !LooseEqInt(c.actor.id, Get(c.cs, "wp_author_id")))
  }

  /**
   * The author column, stored under the key 'post_author ' (see `ColumnKey`).
   * wp.newPost first sets it to the actor. An override is checked for support,
   * then for edit_others_posts, then for the user's existence.
   */
  function Author(c: WriteContext, d: PostData): (r: Checked<PostData>)
    ensures r.Success? ==> Agrees(d, r.value, {ColAuthor})
  {
    var d1 := if c.mode.Create? then With(d, ColAuthor, VInt(c.actor.id)) else d;
    if !OtherAuthor(c) then Success(d1)
    else if !Supports(c.site, TypeArg(c), "author") then
      Refused(401, "This post type does not support to set author.")
    else if !Can(c.actor, c.postType.cap.editOthersPosts) then
      Refused(401, "You are not allowed to create posts as this user.")
    else if IntVal(Get(c.cs, "wp_author_id")) !in c.site.users then
      Refused(404, "Invalid author ID.")
    else Success(With(d1, ColAuthor, VInt(IntVal(Get(c.cs, "wp_author_id")))))
  }

  /** A request field copied into a column only when the post type supports its feature. */
  function Supported(c: WriteContext, d: PostData, key: string, feature: string, col: PostColumn, message: string)
    : (r: Checked<PostData>)
    ensures r.Success? ==> Agrees(d, r.value, {col})
  {
    if !IsSet(c.cs, key) then Success(d)
    else if !Supports(c.site, TypeArg(c), feature) then Refused(401, message)
    else Success(With(d, col, Get(c.cs, key)))
  }

  /** The content is read from 'description' by wp.newPost and from 'post_content' by wp.editPost. */
  function ContentKey(m: Mode): string {
    if m.Create? then "description" else "post_content"
  }

  function Content(c: WriteContext, d: PostData): (r: Checked<PostData>)
    ensures r.Success? ==> Agrees(d, r.value, {ColTitle, ColContent, ColExcerpt})
  {
    var d1 :- Supported(c, d, "title", "title", ColTitle, "This post type does not support title attribute.");
    var d2 :- Supported(c, d1, ContentKey(c.mode), "editor", ColContent, "This post type does not support post content.");
    Supported(c, d2, "mt_excerpt", "excerpt", ColExcerpt, "This post type does not support post excerpt.")
  }

  // ---------------------------------------------------------------------------
  // Discussion

  /**
   * The comment or ping option switch: a numeric value is cast with `(int)`, 0
   * and 2 meaning closed and 1 open; any other value is compared loosely with
   * 'closed', then 'open'. None for a value no case takes.
   */
  function Coerced(v: Value): Option<string> {
    if IsNumeric(v) then
      if IntVal(v) == 0 || IntVal(v) == 2 then Some("closed")
      else if IntVal(v) == 1 then Some("open")
      else None
    else if WordEq(v, "closed") then Some("closed")
    else if WordEq(v, "open") then Some("open")
    else None
  }

  /**
   * wp.newPost's handling of one discussion feature: a supporting type starts
   * from the site default and takes a valid requested option; a type without
   * the feature refuses the option.
   */
  function CreateOption(c: WriteContext, d: PostData, feature: string, key: string, col: PostColumn,
                        default: string, invalid: string, unsupported: string): (r: Checked<PostData>)
    ensures r.Success? ==> Agrees(d, r.value, {col})
  {
    if Supports(c.site, TypeArg(c), feature) then
      var d1 := With(d, col, VStr(default));
      if !IsSet(c.cs, key) then Success(d1)
      else match Coerced(Get(c.cs, key))
        case None => Refused(401, invalid)
        case Some(s) => Success(With(d1, col, VStr(s)))
    else if IsSet(c.cs, key) then Refused(401, unsupported)
    else Success(d)
  }

  /**
   * wp.editPost's comment option. Its numeric branch reports an invalid value
   * with the ping message.
   */
  function UpdateComments(c: WriteContext, d: PostData): (r: Checked<PostData>)
    ensures r.Success? ==> Agrees(d, r.value, {ColCommentStatus})
  {
    var v := Get(c.cs, "mt_allow_comments");
    if !IsSet(c.cs, "mt_allow_comments") then Success(d)
    else if !Supports(c.site, TypeArg(c), "comments") then Refused(401, "This post type does not support comments.")
    else match Coerced(v)
      case None => Refused(401, if IsNumeric(v) then "Invalid ping option." else "Invalid comment option")
      case Some(s) => Success(With(d, ColCommentStatus, VStr(s)))
  }

  /** wp.editPost's ping option: an invalid value leaves the column as it was. */
  function UpdatePings(c: WriteContext, d: PostData): (r: Checked<PostData>)
    ensures r.Success? ==> Agrees(d, r.value, {ColPingStatus})
  {
    if !IsSet(c.cs, "mt_allow_pings") then Success(d)
    else if !Supports(c.site, TypeArg(c), "trackbacks") then Refused(401, "This post type does not support trackbacks")
    else match Coerced(Get(c.cs, "mt_allow_pings"))
      case None => Success(d)
      case Some(s) => Success(With(d, ColPingStatus, VStr(s)))
  }

  function Discussion(c: WriteContext, d: PostData): (r: Checked<PostData>)
    ensures r.Success? ==> Agrees(d, r.value, {ColCommentStatus, ColPingStatus})
  {
    if c.mode.Create? then
      var d1 :- CreateOption(c, d, "comments", "mt_allow_comments", ColCommentStatus, c.site.defaultCommentStatus,
                             "Invalid comment option.", "This post type does not support comments.");
      CreateOption(c, d1, "trackbacks", "mt_allow_pings", ColPingStatus, c.site.defaultPingStatus,
                   "Invalid ping option.", "This post type does not support trackbacks.")
    else
      var d1 :- UpdateComments(c, d);
      UpdatePings(c, d1)
  }

  // ---------------------------------------------------------------------------
  // More text, ping URLs and dates

  /** `str_replace($c, '', $s)` for one character. */
  function Without(s: string, c: char): (r: string)
    ensures c !in r
    ensures forall x :: x in r ==> x in s
  {
    if s == [] then [] else (if s[0] == c then [] else [s[0]]) + Without(s[1..], c)
  }

  const NotAnObject := "Call to a member function getIso() on a non-object"

  /**
   * `$dateCreated`: the GMT creation date with its 'Z' forced, else the local
   * creation date, else unset (""). `getIso()` on a value that is not a date
   * object is a fatal error.
   */
  function DateCreated(cs: Struct): Checked<string> {
    var gmt := Get(cs, "date_created_gmt");
    var local := Get(cs, "dateCreated");
    if Truthy(gmt) then
      if gmt.VDate? then Success(Without(gmt.iso, 'Z') + "Z") else Failure(Fatal(NotAnObject))
    else if Truthy(local) then
      if local.VDate? then Success(local.iso) else Failure(Fatal(NotAnObject))
    else Success("")
  }

  /** The dates come from `$dateCreated` when it is not empty; otherwise from the clock on create only. */
  function DateFor(m: Mode, created: string): Option<DateSource> {
    if Truthy(VStr(created)) then Some(Iso(created))
    else if m.Create? then Some(ServerClock)
    else None
  }

  /**
   * The more text, appended to the content after '<!--more-->', and the ping
   * URLs, which are stored as sent: the `implode` that should join an array of
   * them tests the undefined `$to_ping` and never runs. wp.newPost first sets
   * both columns to null.
   */
  function Extras(c: WriteContext, d: PostData): (r: Checked<PostData>)
    ensures r.Success? ==> Agrees(d.(date := r.value.date), r.value, {ColMore, ColContent, ColToPing})
  {
    var d1 := if c.mode.Create? then With(d, ColMore, VNull) else d;
    var more := Get(c.cs, "mt_text_more");
    var d2 :=
      if IsSet(c.cs, "mt_text_more") then
        With(With(d1, ColMore, more), ColContent, VStr(Str(Column(d1, ColContent)) + "<!--more-->" + Str(more)))
      else d1;
    var d3 := if c.mode.Create? then With(d2, ColToPing, VNull) else d2;
    var d4 := if IsSet(c.cs, "mt_tb_ping_urls") then With(d3, ColToPing, Get(c.cs, "mt_tb_ping_urls")) else d3;
    var created :- DateCreated(c.cs);
    Success(d4.(date := DateFor(c.mode, created)))
  }

  // ---------------------------------------------------------------------------
  // The whole chain

  /** The guards from the status up to the page attributes. */
  function Front(c: WriteContext, publish: Value): Checked<PostData> {
    var d1 :- Status(c, InitialData(c), publish);
    var d2 :- Credentials(c, d1);
    PageAttributes(c, d2)
  }

  /** The guards from the author on. */
  function Back(c: WriteContext, d: PostData): (r: Checked<PostData>)
    ensures r.Success? ==> Column(r.value, ColStatus) == Column(d, ColStatus)
  {
    var d1 :- Author(c, d);
    var d2 :- Content(c, d1);
    var d3 :- Discussion(c, d2);
    Extras(c, d3)
  }

  /** Everything the handler checks and collects before it writes, in source order. */
  function Validated(site: Site, actor: Actor, mode: Mode, publish: Value, cs: Struct)
    : (r: Checked<(WriteContext, PostData)>)
    ensures r.Success? ==> Access(site, actor, mode, cs) == Success(r.value.0)
    ensures r.Success? ==> Front(r.value.0, publish).Success?
    ensures r.Success? ==> Back(r.value.0, Front(r.value.0, publish).value) == Success(r.value.1)
  {
    var c :- Access(site, actor, mode, cs);
    var d1 :- Front(c, publish);
    var d2 :- Back(c, d1);
    Success((c, d2))
  }

  // ---------------------------------------------------------------------------
  // The chain as the handlers run it: `$post_data` grows guard by guard, and
  // the first failing guard returns.

  method CheckAccess(site: Site, actor: Actor, mode: Mode, cs: Struct) returns (r: Checked<WriteContext>)
    ensures r == Access(site, actor, mode, cs)
  {
    if mode.Create? {
      var t := TypeOf(site, Get(cs, "post_type"));
      if t.None? {
        return Refused(403, "Invalid post type");
      }
      if !Can(actor, t.value.cap.editPosts) {
        return Refused(401, CreateDenied);
      }
      return Success(WriteContext(site, actor, mode, t.value, Get(cs, "post_type"), cs));
    }
    var post := PostAt(site, mode.postId);
    if post.None? {
      return Refused(404, "Invalid post ID.");
    }
    var t := TypeOf(site, VStr(post.value.postType));
    if t.None? || !CanOn(actor, t.value.cap.editPosts, mode.postId) {
      return Refused(401, CreateDenied);
    }
    return Success(WriteContext(site, actor, mode, t.value, VStr(post.value.postType), cs));
  }

  method CheckStatus(c: WriteContext, d: PostData, publish: Value) returns (r: Checked<PostData>)
    ensures r == Status(c, d, publish)
  {
    var status := DefaultStatus(publish);
    if IsSet(c.cs, StatusFlagKey(c.cs)) {
      status := Get(c.cs, StatusReadKey(d));
    }
    var fault := StatusFault(c, status);
    if fault.Some? {
      return Failure(Fail(fault.value));
    }
    return Success(With(d, ColStatus, status));
  }

  method CheckCredentials(c: WriteContext, d: PostData) returns (r: Checked<PostData>)
    ensures r == Credentials(c, d)
  {
    var data := d;
    if IsSet(c.cs, "wp_password") {
      if !Can(c.actor, c.postType.cap.publishPosts) {
        return Refused(401, "Sorry, you are not allowed to create password protected posts in this post type");
      }
      data := With(data, ColPassword, Get(c.cs, "wp_password"));
    }
    if c.mode.Create? {
      data := With(data, ColName, VStr(""));
    }
    if IsSet(c.cs, "wp_slug") {
      data := With(data, ColName, Get(c.cs, "wp_slug"));
    }
    return Success(data);
  }

  method CheckPageOrder(c: WriteContext, d: PostData) returns (r: Checked<PostData>)
    ensures r == PageOrder(c, d)
  {
    var data := d;
    if IsSet(c.cs, "wp_page_order") {
      if !Supports(c.site, TypeArg(c), "page-attributes") {
        return Refused(401, Sentence(c.mode, "This post type does not support page attributes"));
      }
      var v := Get(c.cs, "wp_page_order");
      data := With(data, ColMenuOrder, if c.mode.Create? then VInt(IntVal(v)) else v);
    }
    return Success(data);
  }

  method CheckParent(c: WriteContext, d: PostData) returns (r: Checked<PostData>)
    ensures r == Parent(c, d)
  {
    var data := d;
    if IsSet(c.cs, "wp_page_parent_id") {
      if !c.postType.hierarchical {
        return Refused(401, Sentence(c.mode, "This post type does not support post hierarchy"));
      }
      var parentId := IntVal(Get(c.cs, "wp_page_parent_id"));
      if parentId != 0 {
        var parent := PostAt(c.site, parentId);
        if parent.None? {
          return Refused(401, "Invalid parent ID.");
        }
        if !LooseEqStr(TypeArg(c), parent.value.postType) {
          return Refused(401, Sentence(c.mode, "The parent post is of different post type"));
        }
      }
      data := With(data, ColParent, Get(c.cs, "wp_page_parent_id"));
    }
    return Success(data);
  }

  method CheckTemplate(c: WriteContext, d: PostData) returns (r: Checked<PostData>)
    ensures r == Template(c, d)
  {
    var data := d;
    if IsSet(c.cs, "wp_page_template") {
      if !WordEq(TypeArg(c), "page") {
        return Refused(401, Sentence(c.mode, "Page templates are only supported by pages"));
      }
      if !TemplateKnown(c.site, Get(c.cs, "wp_page_template")) {
        return Refused(403, "Invalid page template.");
      }
      data := With(data, ColTemplate, Get(c.cs, "wp_page_template"));
    }
    return Success(data);
  }

  method CheckPageAttributes(c: WriteContext, d: PostData) returns (r: Checked<PostData>)
    ensures r == PageAttributes(c, d)
  {
    var data :- CheckPageOrder(c, d);
    data :- CheckParent(c, data);
    r := CheckTemplate(c, data);
  }

  method CheckAuthor(c: WriteContext, d: PostData) returns (r: Checked<PostData>)
    ensures r == Author(c, d)
  {
    var data := d;
    if c.mode.Create? {
      data := With(data, ColAuthor, VInt(c.actor.id));
    }
    if OtherAuthor(c) {
      if !Supports(c.site, TypeArg(c), "author") {
        return Refused(401, "This post type does not support to set author.");
      }
      if !Can(c.actor, c.postType.cap.editOthersPosts) {
        return Refused(401, "You are not allowed to create posts as this user.");
      }
      var authorId := IntVal(Get(c.cs, "wp_author_id"));
      if authorId !in c.site.users {
        return Refused(404, "Invalid author ID.");
      }
      data := With(data, ColAuthor, VInt(authorId));
    }
    return Success(data);
  }

  method CheckContent(c: WriteContext, d: PostData) returns (r: Checked<PostData>)
    ensures r == Content(c, d)
  {
    var data := d;
    if IsSet(c.cs, "title") {
      if !Supports(c.site, TypeArg(c), "title") {
        return Refused(401, "This post type does not support title attribute.");
      }
      data := With(data, ColTitle, Get(c.cs, "title"));
    }
    assert Supported(c, d, "title", "title", ColTitle, "This post type does not support title attribute.") == Success(data);
    ghost var afterTitle := data;
    var key := ContentKey(c.mode);
    if IsSet(c.cs, key) {
      if !Supports(c.site, TypeArg(c), "editor") {
        return Refused(401, "This post type does not support post content.");
      }
      data := With(data, ColContent, Get(c.cs, key));
    }
    assert Supported(c, afterTitle, key, "editor", ColContent, "This post type does not support post content.") == Success(data);
    ghost var afterContent := data;
    if IsSet(c.cs, "mt_excerpt") {
      if !Supports(c.site, TypeArg(c), "excerpt") {
        return Refused(401, "This post type does not support post excerpt.");
      }
      data := With(data, ColExcerpt, Get(c.cs, "mt_excerpt"));
    }
    assert Supported(c, afterContent, "mt_excerpt", "excerpt", ColExcerpt, "This post type does not support post excerpt.") == Success(data);
    return Success(data);
  }

  /** One discussion feature of wp.newPost. */
  method CheckCreateOption(c: WriteContext, d: PostData, feature: string, key: string, col: PostColumn,
                           default: string, invalid: string, unsupported: string) returns (r: Checked<PostData>)
    ensures r == CreateOption(c, d, feature, key, col, default, invalid, unsupported)
  {
    var data := d;
    if Supports(c.site, TypeArg(c), feature) {
      data := With(data, col, VStr(default));
      if IsSet(c.cs, key) {
        var option := Coerced(Get(c.cs, key));
        if option.None? {
          return Refused(401, invalid);
        }
        data := With(data, col, VStr(option.value));
      }
    } else if IsSet(c.cs, key) {
      return Refused(401, unsupported);
    }
    return Success(data);
  }

  method CheckDiscussion(c: WriteContext, d: PostData) returns (r: Checked<PostData>)
    ensures r == Discussion(c, d)
  {
    if c.mode.Create? {
      var data :- CheckCreateOption(c, d, "comments", "mt_allow_comments", ColCommentStatus,
                                    c.site.defaultCommentStatus, "Invalid comment option.",
                                    "This post type does not support comments.");
      r := CheckCreateOption(c, data, "trackbacks", "mt_allow_pings", ColPingStatus, c.site.defaultPingStatus,
                             "Invalid ping option.", "This post type does not support trackbacks.");
      return;
    }
    var data := d;
    if IsSet(c.cs, "mt_allow_comments") {
      if !Supports(c.site, TypeArg(c), "comments") {
        return Refused(401, "This post type does not support comments.");
      }
      var v := Get(c.cs, "mt_allow_comments");
      var option := Coerced(v);
      if option.None? {
        return Refused(401, if IsNumeric(v) then "Invalid ping option." else "Invalid comment option");
      }
      data := With(data, ColCommentStatus, VStr(option.value));
    }
    assert UpdateComments(c, d) == Success(data);
    ghost var afterComments := data;
    if IsSet(c.cs, "mt_allow_pings") {
      if !Supports(c.site, TypeArg(c), "trackbacks") {
        return Refused(401, "This post type does not support trackbacks");
      }
      var option := Coerced(Get(c.cs, "mt_allow_pings"));
      if option.Some? {
        data := With(data, ColPingStatus, VStr(option.value));
      }
    }
    assert UpdatePings(c, afterComments) == Success(data);
    return Success(data);
  }

  method CheckExtras(c: WriteContext, d: PostData) returns (r: Checked<PostData>)
    ensures r == Extras(c, d)
  {
    var data := d;
    if c.mode.Create? {
      data := With(data, ColMore, VNull);
    }
    if IsSet(c.cs, "mt_text_more") {
      data := With(data, ColMore, Get(c.cs, "mt_text_more"));
      data := With(data, ColContent, VStr(Str(Column(data, ColContent)) + "<!--more-->" + Str(Column(data, ColMore))));
    }
    if c.mode.Create? {
      data := With(data, ColToPing, VNull);
    }
    if IsSet(c.cs, "mt_tb_ping_urls") {
      data := With(data, ColToPing, Get(c.cs, "mt_tb_ping_urls"));
    }
    var created :- DateCreated(c.cs);
    return Success(data.(date := DateFor(c.mode, created)));
  }

  method CheckFront(c: WriteContext, publish: Value) returns (r: Checked<PostData>)
    ensures r == Front(c, publish)
  {
    var data :- CheckStatus(c, InitialData(c), publish);
    data :- CheckCredentials(c, data);
    r := CheckPageAttributes(c, data);
  }

  method CheckBack(c: WriteContext, d: PostData) returns (r: Checked<PostData>)
    ensures r == Back(c, d)
  {
    var data :- CheckAuthor(c, d);
    data :- CheckContent(c, data);
    data :- CheckDiscussion(c, data);
    r := CheckExtras(c, data);
  }

  /** The validation chain of either handler, up to the write. */
  method BuildPostData(site: Site, actor: Actor, mode: Mode, publish: Value, cs: Struct)
    returns (r: Checked<(WriteContext, PostData)>)
    ensures r == Validated(site, actor, mode, publish, cs)
  {
    var c :- CheckAccess(site, actor, mode, cs);
    var data :- CheckFront(c, publish);
    data :- CheckBack(c, data);
    return Success((c, data));
  }
}
