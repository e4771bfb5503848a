/**
 * The plugin's registration: the `wp_xmlrpc_server_class` filter that swaps in
 * the extended server, and the `xmlrpc_methods` filter that adds its 21
 * methods to the server's method table.
 */
module Plugin {
  import opened Wrappers

  const DefaultServer := "wp_xmlrpc_server"
  const ExtendedServer := "wp_xmlrpc_server_ext"

  /**
   * `replace_xmlrpc_server_class`: only the default class is replaced, so a
   * class another plugin chose is kept.
   */
  function ReplaceServerClass(className: string): (r: string)
    ensures className == DefaultServer ==> r == ExtendedServer
    ensures className != DefaultServer ==> r == className
  {
    if className == DefaultServer then ExtendedServer else className
  }

  /** Applying the filter again changes nothing. */
  lemma ReplaceIdempotent(className: string)
    ensures ReplaceServerClass(ReplaceServerClass(className)) == ReplaceServerClass(className)
  {
  }

  /** The methods the extended server adds, in the order it adds them. */
  datatype Handler =
    | NewUser | EditUser | DeleteUser | GetUser | GetUsers
    | NewPost | EditPost | DeletePost | GetPost | GetPosts
    | GetPostTerms | SetPostTerms | GetPostType | GetPostTypes
    | NewTerm | EditTerm | DeleteTerm | GetTerm | GetTerms | GetTaxonomy | GetTaxonomies

  /** The XML-RPC name each method is published under. */
  function MethodName(h: Handler): string {
    match h
    case NewUser => "wp.newUser"
    case EditUser => "wp.editUser"
    case DeleteUser => "wp.deleteUser"
    case GetUser => "wp.getUser"
    case GetUsers => "wp.getUsers"
    case NewPost => "wp.newPost"
    case EditPost => "wp.editPost"
    case DeletePost => "wp.deletePost"
    case GetPost => "wp.getPost"
    case GetPosts => "wp.getPosts"
    case GetPostTerms => "wp.getPostTerms"
    case SetPostTerms => "wp.setPostTerms"
    case GetPostType => "wp.getPostType"
    case GetPostTypes => "wp.getPostTypes"
    case NewTerm => "wp.newTerm"
    case EditTerm => "wp.editTerm"
    case DeleteTerm => "wp.deleteTerm"
    case GetTerm => "wp.getTerm"
    case GetTerms => "wp.getTerms"
    case GetTaxonomy => "wp.getTaxonomy"
    case GetTaxonomies => "wp.getTaxonomies"
  }

  /** The handler published under `name`, if the extended server publishes one. */
  function HandlerNamed(name: string): Option<Handler> {
    if name == "wp.newUser" then Some(NewUser)
    else if name == "wp.editUser" then Some(EditUser)
    else if name == "wp.deleteUser" then Some(DeleteUser)
    else if name == "wp.getUser" then Some(GetUser)
    else if name == "wp.getUsers" then Some(GetUsers)
    else if name == "wp.newPost" then Some(NewPost)
    else if name == "wp.editPost" then Some(EditPost)
    else if name == "wp.deletePost" then Some(DeletePost)
    else if name == "wp.getPost" then Some(GetPost)
    else if name == "wp.getPosts" then Some(GetPosts)
    else if name == "wp.getPostTerms" then Some(GetPostTerms)
    else if name == "wp.setPostTerms" then Some(SetPostTerms)
    else if name == "wp.getPostType" then Some(GetPostType)
    else if name == "wp.getPostTypes" then Some(GetPostTypes)
    else if name == "wp.newTerm" then Some(NewTerm)
    else if name == "wp.editTerm" then Some(EditTerm)
    else if name == "wp.deleteTerm" then Some(DeleteTerm)
    else if name == "wp.getTerm" then Some(GetTerm)
    else if name == "wp.getTerms" then Some(GetTerms)
    else if name == "wp.getTaxonomy" then Some(GetTaxonomy)
    else if name == "wp.getTaxonomies" then Some(GetTaxonomies)
    else None
  }

  /** Every published name leads back to its handler, so no two handlers share a name. */
  lemma NamesResolve(h: Handler)
    ensures HandlerNamed(MethodName(h)) == Some(h)
  {
    match h
    case NewUser =>
    case EditUser =>
    case DeleteUser =>
    case GetUser =>
    case GetUsers =>
    case NewPost =>
    case EditPost =>
    case DeletePost =>
    case GetPost =>
    case GetPosts =>
    case GetPostTerms =>
    case SetPostTerms =>
    case GetPostType =>
    case GetPostTypes =>
    case NewTerm =>
    case EditTerm =>
    case DeleteTerm =>
    case GetTerm =>
    case GetTerms =>
    case GetTaxonomy =>
    case GetTaxonomies =>
  }

  /** No two handlers share a published name. */
  lemma NamesDistinct(a: Handler, b: Handler)
    requires MethodName(a) == MethodName(b)
    ensures a == b
  {
    NamesResolve(a);
    NamesResolve(b);
  }

  /** A name the extended server publishes. */
  predicate Published(name: string) {
    exists h: Handler :: MethodName(h) == name
  }

  /** An entry of the method table: one of this server's methods, or a callback registered elsewhere. */
  datatype Callback = Own(handler: Handler) | Other(name: string)

  /** The registration order of `xmlrpc_methods`. */
  const Registrations: seq<Handler> := [
    NewUser, EditUser, DeleteUser, GetUser, GetUsers,
    NewPost, EditPost, DeletePost, GetPost, GetPosts, GetPostTerms, SetPostTerms, GetPostType, GetPostTypes,
    NewTerm, EditTerm, DeleteTerm, GetTerm, GetTerms, GetTaxonomy, GetTaxonomies]

  /** `$methods[name] = array(&$this, method)` for each handler in turn. */
  function Register(methods: map<string, Callback>, hs: seq<Handler>): (r: map<string, Callback>)
    ensures forall k :: k in r <==> k in methods || exists i :: 0 <= i < |hs| && MethodName(hs[i]) == k
  {
    if hs == [] then methods
    else
      var last := hs[|hs| - 1];
      Register(methods, hs[..|hs| - 1])[MethodName(last) := Own(last)]
  }

  /** The `xmlrpc_methods` filter. */
  function XmlrpcMethods(methods: map<string, Callback>): map<string, Callback> {
    Register(methods, Registrations)
  }

  /** Registering a list of handlers publishes each of them, and leaves every other name as it was. */
  lemma {:induction false} RegisterMeaning(methods: map<string, Callback>, hs: seq<Handler>, k: string)
    ensures forall h :: h in hs && MethodName(h) == k ==> k in Register(methods, hs) && Register(methods, hs)[k] == Own(h)
    ensures (forall h :: h in hs ==> MethodName(h) != k) ==>
      (k in Register(methods, hs) <==> k in methods) &&
      (k in methods ==> Register(methods, hs)[k] == methods[k])
  {
    if hs != [] {
      var init := hs[..|hs| - 1];
      var last := hs[|hs| - 1];
      RegisterMeaning(methods, init, k);
      assert hs == init + [last];
      forall h | h in hs && MethodName(h) == k
        ensures Register(methods, hs)[k] == Own(h)
      {
        if MethodName(last) == k {
          NamesDistinct(h, last);
        }
      }
    }
  }

  /** Every handler is in the registration list. */
  lemma Registered(h: Handler)
    ensures h in Registrations
  {
    var i := match h
      case NewUser => 0 case EditUser => 1 case DeleteUser => 2 case GetUser => 3 case GetUsers => 4
      case NewPost => 5 case EditPost => 6 case DeletePost => 7 case GetPost => 8 case GetPosts => 9
      case GetPostTerms => 10 case SetPostTerms => 11 case GetPostType => 12 case GetPostTypes => 13
      case NewTerm => 14 case EditTerm => 15 case DeleteTerm => 16 case GetTerm => 17 case GetTerms => 18
      case GetTaxonomy => 19 case GetTaxonomies => 20;
    assert Registrations[i] == h;
  }

  /** Each of the 21 names leads to this server's method. */
  lemma AllPublished(methods: map<string, Callback>, h: Handler)
    ensures MethodName(h) in XmlrpcMethods(methods)
    ensures XmlrpcMethods(methods)[MethodName(h)] == Own(h)
  {
    Registered(h);
    RegisterMeaning(methods, Registrations, MethodName(h));
  }

  /** Every other name keeps the callback it had, and no new name appears. */
  lemma OthersKept(methods: map<string, Callback>, k: string)
    requires !Published(k)
    ensures k in XmlrpcMethods(methods) <==> k in methods
    ensures k in methods ==> XmlrpcMethods(methods)[k] == methods[k]
  {
    RegisterMeaning(methods, Registrations, k);
  }

  /** Running the filter twice gives the same table as running it once. */
  lemma XmlrpcMethodsIdempotent(methods: map<string, Callback>)
    ensures XmlrpcMethods(XmlrpcMethods(methods)) == XmlrpcMethods(methods)
  {
    var once := XmlrpcMethods(methods);
    var twice := XmlrpcMethods(once);
    forall k | k in twice
      ensures k in once && twice[k] == once[k]
    {
      if Published(k) {
        var h :| MethodName(h) == k;
        AllPublished(methods, h);
        AllPublished(once, h);
      } else {
        OthersKept(once, k);
      }
    }
    forall k | k in once
      ensures k in twice
    {
      if Published(k) {
        var h :| MethodName(h) == k;
        AllPublished(once, h);
      } else {
        OthersKept(once, k);
      }
    }
  }
}
