/**
 * The WordPress state a handler consults but never changes: the registered post
 * types and taxonomies, the stored posts, users and terms, a few site options,
 * and the capabilities of the authenticated actor. Every WordPress lookup the
 * plugin calls is answered from this snapshot (`get_post_type_object`,
 * `post_type_supports`, `wp_get_single_post`, `get_userdata`, `get_term`,
 * `get_cat_ID`, `get_page_templates`, `WP_Roles`, `current_user_can`, ...).
 */
module World {
  import opened Wrappers
  import opened Php

  /** A capability the actor holds, either outright or for one object. */
  datatype Grant = Grant(cap: string, obj: Option<int>)

  /** The user `login()` authenticated, with what `current_user_can` answers for them. */
  datatype Actor = Actor(id: int, grants: set<Grant>)

  /** `current_user_can($cap)`. */
  predicate Can(a: Actor, cap: string) {
    Grant(cap, None) in a.grants
  }

  /** `current_user_can($cap, $id)`. */
  predicate CanOn(a: Actor, cap: string, id: int) {
    Grant(cap, Some(id)) in a.grants
  }

  /** The capability names `$post_type->cap` carries. */
  datatype PostTypeCaps = PostTypeCaps(
    editPosts: string, publishPosts: string, editOthersPosts: string,
    deletePost: string, editPost: string)

  /**
   * A registered post type: its hierarchical flag, the features it supports
   * (`post_type_supports`), its taxonomies (`get_object_taxonomies`), its
   * capability names, and the public properties `(array)` casts it into.
   */
  datatype PostType = PostType(
    name: string, hierarchical: bool, supports: set<string>, taxonomies: seq<string>,
    cap: PostTypeCaps, properties: map<string, Value>)

  datatype TaxonomyCaps = TaxonomyCaps(
    manageTerms: string, editTerms: string, deleteTerms: string, assignTerms: string)

  /** A registered taxonomy and the public properties `(array)` casts it into. */
  datatype Taxonomy = Taxonomy(
    name: string, hierarchical: bool, cap: TaxonomyCaps, properties: map<string, Value>)

  /** A term, as the properties `(array)` casts it into. */
  datatype Term = Term(properties: map<string, Value>)

  /** What `get_term` answers: a term, nothing, or a WP_Error. */
  datatype TermLookup = TermFound(term: Term) | TermMissing | TermError(message: string)

  /** A user record as `get_userdata` returns it; `meta` holds the per-user contact fields. */
  datatype User = User(
    id: int, login: string, email: string, firstName: string, lastName: string,
    registered: string, bio: string, nickname: string, nicename: string, url: string,
    displayName: string, capabilities: Value, userLevel: Value, meta: map<string, Value>)

  /**
   * A stored post as `wp_get_single_post(..., ARRAY_A)` returns it, together with
   * what the projector's library calls answer for it: `get_post_format` (None for
   * false), `post_permalink`, `is_sticky`, the two halves `get_extended` splits the
   * content into, `wp_get_object_terms` over the type's taxonomies, the tag names,
   * the category names, `get_custom_fields`, and `get_post_custom` as an ordered
   * list of meta keys with their values.
   */
  datatype PostView = PostView(
    id: int, title: string, date: string, dateGmt: string, modified: string, modifiedGmt: string,
    status: string, postType: string, name: string, author: string,
    commentStatus: string, pingStatus: string, password: string, excerpt: string, content: string,
    format: Option<string>, permalink: string, isSticky: bool,
    extendedMain: string, extendedMore: string, typeTerms: seq<Value>,
    tagNames: seq<string>, categoryNames: seq<string>, customFields: Value,
    meta: seq<(string, seq<string>)>)

  /**
   * The site snapshot. `sanitizeUser` and `isEmail` stand for the library
   * functions `sanitize_user` and `is_email`, whose rules the model does not fix.
   */
  datatype Site = Site(
    postTypes: map<string, PostType>,
    taxonomies: map<string, Taxonomy>,
    posts: map<int, PostView>,
    users: map<int, User>,
    terms: map<(int, string), TermLookup>,
    categoryIds: map<string, int>,
    pageTemplates: set<string>,
    roles: set<string>,
    contactMethods: seq<string>,
    defaultRole: string,
    defaultCommentStatus: string,
    defaultPingStatus: string,
    sanitizeUser: string -> string,
    isEmail: string -> bool)

  /** `wp_get_single_post($id)`, None when the answer has an empty 'ID'. */
  function PostAt(site: Site, id: int): Option<PostView> {
    if id in site.posts && site.posts[id].id != 0 then Some(site.posts[id]) else None
  }

  /** `get_post_type_object($v)`. */
  function TypeOf(site: Site, v: Value): Option<PostType> {
    match ArrayKey(v)
    case Some(k) => if k in site.postTypes then Some(site.postTypes[k]) else None
    case None => None
  }

  /** `post_type_supports($v, $feature)`. */
  predicate Supports(site: Site, v: Value, feature: string) {
    var t := TypeOf(site, v);
    t.Some? && feature in t.value.supports
  }

  /** `get_object_taxonomies($v)`: empty for an unknown type. */
  function TaxonomiesOf(site: Site, v: Value): seq<string> {
    var t := TypeOf(site, v);
    if t.Some? then t.value.taxonomies else []
  }

  /** `get_taxonomy($v)`, which answers only for a registered taxonomy. */
  function TaxonomyOf(site: Site, v: Value): Option<Taxonomy> {
    match ArrayKey(v)
    case Some(k) => if k in site.taxonomies then Some(site.taxonomies[k]) else None
    case None => None
  }

  /** `get_term($id, $taxonomy)`. */
  function TermAt(site: Site, id: int, taxonomy: string): TermLookup {
    if (id, taxonomy) in site.terms then site.terms[(id, taxonomy)] else TermMissing
  }

  /** `username_exists`. */
  predicate UsernameExists(site: Site, login: string) {
    exists id :: id in site.users && site.users[id].login == login
  }

  /** `email_exists`. */
  predicate EmailExists(site: Site, email: string) {
    exists id :: id in site.users && site.users[id].email == email
  }

  /** `get_cat_ID`: 0 for an unknown category name. */
  function CategoryId(site: Site, name: string): int {
    if name in site.categoryIds then site.categoryIds[name] else 0
  }

  /** An `IXR_Error`: a numeric code and a message. */
  datatype Fault = Fault(code: int, message: string)

  /**
   * What a handler gives back to the dispatcher: a value, an error, or a PHP
   * fatal error that ends the request with no XML-RPC reply at all.
   */
  datatype Response = Ok(value: Value) | Fail(fault: Fault) | Fatal(reason: string)

  /** A response that ends a request without an answer: an error or a fatal error. */
  type Refusal = r: Response | !r.Ok? witness Fatal("")

  /** A guard's verdict: a value to go on with, or the response that ends the request. */
  type Checked<T> = Result<T, Refusal>

  /** An `IXR_Error` with `code` and `message`, as a guard's verdict. */
  function Refused<T>(code: int, message: string): (r: Checked<T>)
    ensures r.Failure? && r.error == Fail(Fault(code, message))
  {
    Failure(Fail(Fault(code, message)))
  }
}
