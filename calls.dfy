/**
 * The writes and queries a handler sends to WordPress, recorded in call order by
 * a store, together with the answers the store gives. A handler's observable
 * effect is the sequence of calls it appends to the store's log.
 */
module Calls {
  import opened Wrappers
  import opened Php
  import opened World

  /** The keys a write handler puts into `$post_data`. */
  datatype PostColumn =
    | ColId | ColType | ColStatus | ColPassword | ColName | ColMenuOrder | ColParent
    | ColTemplate | ColAuthor | ColTitle | ColContent | ColExcerpt
    | ColCommentStatus | ColPingStatus | ColMore | ColToPing

  /**
   * The array key each column is stored under. The author override is stored
   * under 'post_author ' with a trailing space, which `wp_insert_post` does not
   * read as the author.
   */
  function ColumnKey(c: PostColumn): string {
    match c
    case ColId => "ID"
    case ColType => "post_type"
    case ColStatus => "post_status"
    case ColPassword => "post_password"
    case ColName => "post_name"
    case ColMenuOrder => "menu_order"
    case ColParent => "post_parent"
    case ColTemplate => "page_template"
    case ColAuthor => "post_author "
    case ColTitle => "post_title"
    case ColContent => "post_content"
    case ColExcerpt => "post_excerpt"
    case ColCommentStatus => "comment_status"
    case ColPingStatus => "ping_status"
    case ColMore => "post_more"
    case ColToPing => "to_ping"
  }

  /**
   * What `post_date`/`post_date_gmt` were computed from: an ISO 8601 text taken
   * from the request, or the server clock. The date arithmetic itself belongs to
   * library code.
   */
  datatype DateSource = Iso(text: string) | ServerClock

  /** `$post_data`: the columns set, and the date source when the dates were set. */
  datatype PostData = PostData(columns: map<PostColumn, Value>, date: Option<DateSource>)

  /** `$post_data[$c]`, which reads as null while the column is unset. */
  function Column(d: PostData, c: PostColumn): (v: Value)
    ensures c !in d.columns ==> v == VNull
  {
    if c in d.columns then d.columns[c] else VNull
  }

  /** `$post_data[$c] = $v`. */
  function With(d: PostData, c: PostColumn, v: Value): (r: PostData)
    ensures Column(r, c) == v && r.date == d.date
  {
    d.(columns := d.columns[c := v])
  }

  /** The arguments `wp_get_recent_posts` receives from wp.getPosts. */
  datatype PostsQuery = PostsQuery(
    postType: Option<Value>, postStatus: Option<Value>, numberposts: Option<nat>,
    offset: Option<nat>, orderby: Option<Value>, order: Option<Value>)

  /** The arguments `get_users` receives from wp.getUsers (the 'fields' entry is always ['ID']). */
  datatype UsersQuery = UsersQuery(number: nat, offset: nat, role: Option<Value>)

  /** One call into WordPress, named after the function called. */
  datatype StoreCall =
    | InsertPost(data: PostData)
    | UpdatePost(data: PostData)
    | StickPost(post: int)
    | UnstickPost(post: int)
    | SetCustomFields(post: int, fields: Value)
    | SetObjectTerms(post: int, termIds: Option<seq<int>>, taxonomy: string, append: Value)
    | SetPostCategories(post: int, categories: Option<seq<int>>)
    | SetPostTerms(target: Value, tags: Value, taxonomy: string, appendTags: bool)
    | AddEnclosureIfNew(post: int, enclosure: Value)
    | AttachUploads(post: int, content: Value)
    | DeletePost(id: Value)
    | DeleteUser(id: Value)
    | InsertUser(userData: Struct)
    | UpdateUser(userData: Struct)
    | InsertTerm(name: string, taxonomy: string, termData: Struct)
    | UpdateTerm(term: int, taxonomy: string, termData: Struct)
    | DeleteTerm(term: int, taxonomy: string)
    | GetRecentPosts(postsQuery: PostsQuery)
    | GetUsers(usersQuery: UsersQuery)

  /** What a write answers: an ID (0 is the falsy answer) or a WP_Error. */
  datatype WriteReply = Written(id: int) | WriteError(message: string)

  /** What `wp_delete_term` answers. */
  datatype TermDeleteReply = TermDeleted | TermNotDeleted | TermDeleteError(message: string)

  /**
   * The store's answers: one per kind of write (a handler makes at most one of
   * each), the IDs whose deletion succeeds, and the rows the two queries return.
   */
  datatype Replies = Replies(
    insertPost: WriteReply, updatePost: WriteReply,
    insertUser: WriteReply, updateUser: WriteReply,
    insertTerm: WriteReply, updateTerm: WriteReply, deleteTerm: TermDeleteReply,
    deletablePosts: set<int>, deletableUsers: set<int>,
    postListing: seq<PostView>, userListing: seq<User>)

  /** The outside world's write side: it records every call and answers from `replies`. */
  class Store {
    var log: seq<StoreCall>
    const replies: Replies

    constructor (replies: Replies)
      ensures log == [] && this.replies == replies
    {
      log := [];
      this.replies := replies;
    }

    /** Sends one call; the only change is that it is appended to the log. */
    method Record(c: StoreCall)
      modifies this
      ensures log == old(log) + [c]
    {
      log := log + [c];
    }
  }

  /** A handler's whole effect: its answer and the calls it made, in order. */
  datatype Outcome = Outcome(response: Response, calls: seq<StoreCall>)

  /** `calls` followed by the outcome of the rest of the handler. */
  function After(calls: seq<StoreCall>, rest: Outcome): (o: Outcome)
    ensures o.response == rest.response
    ensures o.calls == calls + rest.calls
  {
    Outcome(rest.response, calls + rest.calls)
  }

  /** Does any call of `calls` assign terms with `wp_set_object_terms`? */
  predicate AssignsTerms(calls: seq<StoreCall>) {
    exists call :: call in calls && call.SetObjectTerms?
  }

  /** Does any call of `calls` write a post (insert or update)? */
  predicate WritesPost(calls: seq<StoreCall>) {
    exists call :: call in calls && (call.InsertPost? || call.UpdatePost?)
  }

  /** `(a + b) + c == a + (b + c)`. */
  lemma Regroup<T>(a: seq<T>, b: seq<T>, c: seq<T>)
    ensures (a + b) + c == a + (b + c)
  {
  }

  /** `((a + b) + c) + e == a + (b + (c + e))`, the regrouping of a log that grows step by step. */
  lemma Concat<T>(a: seq<T>, b: seq<T>, c: seq<T>, e: seq<T>)
    ensures ((a + b) + c) + e == a + (b + (c + e))
  {
    calc {
      ((a + b) + c) + e;
      == { assert (a + b) + c == a + (b + c); }
      (a + (b + c)) + e;
      == { assert (b + c) + e == b + (c + e); }
      a + (b + (c + e));
    }
  }
}
