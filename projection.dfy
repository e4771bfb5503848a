/**
 * The reply shapes: `prepare_post`, which projects a stored post onto the
 * fields a client asked for, and the small projections `prepare_user`,
 * `prepare_taxonomy`, `prepare_term` and `prepare_post_type`. The filters these
 * pass their result through are taken as the identity.
 */
module Projection {
  import opened Wrappers
  import opened Php
  import opened World

  /** The keys `prepare_post` can put into a reply. */
  datatype Field =
    | PostId | Title | PostDate | PostDateGmt | PostModified | PostModifiedGmt
    | PostStatus | PostTypeName | PostFormat | WpSlug | Link | PermaLink
    | UserId | WpAuthorId | MtAllowComments | MtAllowPings | Sticky | WpPassword
    | MtExcerpt | Description | MtTextMore
    | Terms | MtKeywords | Categories
    | CustomFields | Enclosure

  /** Every field, in the order `prepare_post` adds the keys. */
  const FieldOrder: seq<Field> := [
    PostId, Title, PostDate, PostDateGmt, PostModified, PostModifiedGmt,
    PostStatus, PostTypeName, PostFormat, WpSlug, Link, PermaLink,
    UserId, WpAuthorId, MtAllowComments, MtAllowPings, Sticky, WpPassword,
    MtExcerpt, Description, MtTextMore, Terms, MtKeywords, Categories,
    CustomFields, Enclosure]

  /** How a field gets selected: always, by the 'post' group, by the 'taxonomies' group, or only by name. */
  datatype Group = AlwaysIncluded | PostGroup | TaxonomyGroup | NamedOnly

  function GroupOf(f: Field): Group {
    match f
    case PostId => AlwaysIncluded
    case Terms => TaxonomyGroup
    case MtKeywords => TaxonomyGroup
    case Categories => TaxonomyGroup
    case CustomFields => NamedOnly
    case Enclosure => NamedOnly
    case _ => PostGroup
  }

  /** The reply key of each field. */
  function KeyName(f: Field): string {
    match f
    case PostId => "postid"
    case Title => "title"
    case PostDate => "post_date"
    case PostDateGmt => "post_date_gmt"
    case PostModified => "post_modified"
    case PostModifiedGmt => "post_modified_gmt"
    case PostStatus => "post_status"
    case PostTypeName => "post_type"
    case PostFormat => "post_format"
    case WpSlug => "wp_slug"
    case Link => "link"
    case PermaLink => "permaLink"
    case UserId => "userid"
    case WpAuthorId => "wp_author_id"
    case MtAllowComments => "mt_allow_comments"
    case MtAllowPings => "mt_allow_pings"
    case Sticky => "sticky"
    case WpPassword => "wp_password"
    case MtExcerpt => "mt_excerpt"
    case Description => "description"
    case MtTextMore => "mt_text_more"
    case Terms => "terms"
    case MtKeywords => "mt_keywords"
    case Categories => "categories"
    case CustomFields => "custom_fields"
    case Enclosure => "enclosure"
  }

  /** A name a client can list in `$fields`: one of the two groups, or the name of one field. */
  datatype Name = PostGroupName | TaxonomiesGroupName | FieldName(field: Field)

  function NameText(n: Name): string {
    match n
    case PostGroupName => "post"
    case TaxonomiesGroupName => "taxonomies"
    case FieldName(f) => KeyName(f)
  }

  /**
   * The name that asks for field `f` by itself. 'mt_text_more' has none of its
   * own: it comes with 'description'.
   */
  function OwnName(f: Field): Name {
    if f == MtTextMore then FieldName(Description) else FieldName(f)
  }

  /** `in_array($token, $xs)`: some element is loosely equal to the token. */
  predicate InList(xs: seq<Value>, token: string) {
    if xs == [] then false else LooseEqStr(xs[0], token) || InList(xs[1..], token)
  }

  /**
   * `in_array($name, $fields)`: an element of the list, or a member value of
   * the struct, is loosely equal to the name; false when `$fields` is not an array.
   */
  predicate InArray(fields: Value, n: Name) {
    match fields
    case VList(xs) => InList(xs, NameText(n))
    case VStruct(m) => exists k :: k in m && LooseEqStr(m[k], NameText(n))
    case _ => false
  }

  lemma {:induction false} InListMeans(xs: seq<Value>, token: string)
    ensures InList(xs, token) <==> exists i :: 0 <= i < |xs| && LooseEqStr(xs[i], token)
  {
    if xs != [] {
      InListMeans(xs[1..], token);
      if InList(xs[1..], token) {
        var i :| 0 <= i < |xs[1..]| && LooseEqStr(xs[1..][i], token);
        assert xs[i + 1] == xs[1..][i];
      }
      forall i | 1 <= i < |xs| && LooseEqStr(xs[i], token) ensures InList(xs[1..], token) {
        assert xs[1..][i - 1] == xs[i];
      }
    }
  }

  /**
   * `in_array` finds a name exactly when some element of the list, or some
   * member value of the struct, is loosely equal to it; a scalar holds nothing.
   */
  lemma InArrayMeans(fields: Value, n: Name)
    ensures fields.VList? ==>
      (InArray(fields, n) <==> exists i :: 0 <= i < |fields.items| && LooseEqStr(fields.items[i], NameText(n)))
    ensures fields.VStruct? ==>
      (InArray(fields, n) <==> exists k :: k in fields.members && LooseEqStr(fields.members[k], NameText(n)))
    ensures !fields.VList? && !fields.VStruct? ==> !InArray(fields, n)
  {
    if fields.VList? {
      InListMeans(fields.items, NameText(n));
    }
  }

  /** Is field `f` part of the reply for the requested `fields`? */
  predicate Selected(fields: Value, f: Field) {
    match GroupOf(f)
    case AlwaysIncluded => true
    case PostGroup => InArray(fields, PostGroupName) || InArray(fields, OwnName(f))
    case TaxonomyGroup => InArray(fields, TaxonomiesGroupName) || InArray(fields, OwnName(f))
    case NamedOnly => InArray(fields, OwnName(f))
  }

  /**
   * `$key == 'enclosure'`: the key 'enclosure' itself, and also the key "0",
   * whose integer 0 equals the non-numeric string 'enclosure' under loose comparison.
   */
  predicate IsEnclosureKey(k: string) {
    k == "enclosure" || k == "0"
  }

  /** `IsEnclosureKey` is exactly PHP's loose comparison of the array key with 'enclosure'. */
  lemma EnclosureKeyIsLooseEq(k: string)
    ensures IsEnclosureKey(k) <==> LooseEqStr(KeyValue(k), "enclosure")
  {
    WordHasNoNumber("enclosure");
    WordLooseEq(k, "enclosure");
    IntToStringRoundTrip(0);
    assert IntToString(0) == "0";
    var i := LeadingInt(k);
    if k == IntToString(i) {
      IntToStringRoundTrip(i);
    }
  }

  /** Does meta entry `e` end the enclosure search: an enclosure key with at least one value? */
  predicate EndsSearch(e: (string, seq<string>)) {
    IsEnclosureKey(e.0) && |e.1| > 0
  }

  /** The first value of the first enclosure key that has a value. */
  function FirstEnclosure(meta: seq<(string, seq<string>)>): Option<string> {
    if meta == [] then None
    else if EndsSearch(meta[0]) then Some(meta[0].1[0])
    else FirstEnclosure(meta[1..])
  }

  /**
   * The first enclosure is the first value of the earliest meta entry that ends
   * the search; there is none exactly when no entry does.
   */
  lemma {:induction false} FirstEnclosureIsEarliest(meta: seq<(string, seq<string>)>)
    ensures FirstEnclosure(meta).None? <==> forall i :: 0 <= i < |meta| ==> !EndsSearch(meta[i])
    ensures FirstEnclosure(meta).Some? ==>
      exists i :: 0 <= i < |meta| && EndsSearch(meta[i]) && FirstEnclosure(meta).value == meta[i].1[0] &&
        forall j :: 0 <= j < i ==> !EndsSearch(meta[j])
  {
    if meta != [] && !EndsSearch(meta[0]) {
      var rest := meta[1..];
      FirstEnclosureIsEarliest(rest);
      assert forall i :: 1 <= i < |meta| ==> meta[i] == rest[i - 1];
      if FirstEnclosure(rest).Some? {
        var i :| 0 <= i < |rest| && EndsSearch(rest[i]) && FirstEnclosure(rest).value == rest[i].1[0] &&
          forall j :: 0 <= j < i ==> !EndsSearch(rest[j]);
        assert EndsSearch(meta[i + 1]) && meta[i + 1] == rest[i];
        forall j | 0 <= j < i + 1 ensures !EndsSearch(meta[j]) {
          if j > 0 {
            assert meta[j] == rest[j - 1];
          }
        }
      }
    } else if meta != [] {
      assert EndsSearch(meta[0]);
    }
  }

  /** `$encdata[$i]`, which reads as null, and so trims to "", past the end. */
  function PieceAt(parts: seq<string>, i: nat): string {
    if i < |parts| then parts[i] else ""
  }

  /** The 'enclosure' reply entry: url, length and type from the enclosure's lines, or an empty struct. */
  function EnclosureEntry(enc: Option<string>): (v: Value)
    ensures v.VStruct?
  {
    match enc
    case None => VStruct(map[])
    case Some(e) =>
      var parts := Split(e, '\n');
      var m := map[
        "url" := VStr(Trim(HtmlSpecialChars(parts[0]))),
        "length" := VInt(LeadingInt(Trim(PieceAt(parts, 1)))),
        "type" := VStr(Trim(PieceAt(parts, 2)))];
      assert "url" in m;
      VStruct(m)
  }

  /** The entry is empty exactly when no enclosure was found, and otherwise has the keys 'url', 'length' and 'type'. */
  lemma EnclosureEntryKeys(enc: Option<string>)
    ensures enc.None? <==> EnclosureEntry(enc).members == map[]
    ensures enc.Some? ==> EnclosureEntry(enc).members.Keys == {"url", "length", "type"}
  {
    match enc
    case None =>
    case Some(e) =>
      var parts := Split(e, '\n');
      var url := VStr(Trim(HtmlSpecialChars(parts[0])));
      var length := VInt(LeadingInt(Trim(PieceAt(parts, 1))));
      var kind := VStr(Trim(PieceAt(parts, 2)));
      EntryKeys(url, length, kind);
      assert EnclosureEntry(enc).members == map["url" := url, "length" := length, "type" := kind];
  }

  /** A struct with the three enclosure keys. */
  lemma EntryKeys(url: Value, length: Value, kind: Value)
    ensures map["url" := url, "length" := length, "type" := kind].Keys == {"url", "length", "type"}
    ensures map["url" := url, "length" := length, "type" := kind] != map[]
  {
    assert "url" in map["url" := url, "length" := length, "type" := kind];
  }

  /** The names as an XML-RPC array of strings. */
  function NamesList(names: seq<string>): (v: Value)
    ensures v.VList? && |v.items| == |names|
    ensures forall i :: 0 <= i < |names| ==> v.items[i] == VStr(names[i])
  {
    if names == [] then VList([]) else VList([VStr(names[0])] + NamesList(names[1..]).items)
  }

  /** The reported status: a scheduled post is reported as published. */
  function StatusOut(status: string): (r: string)
    ensures r != "future"
    ensures status != "future" ==> r == status
  {
    if status == "future" then "publish" else status
  }

  /** The reported format: an empty answer from `get_post_format` becomes 'standard'. */
  function FormatOut(format: Option<string>): (r: string)
    ensures Truthy(VStr(r))
    ensures format.Some? && Truthy(VStr(format.value)) ==> r == format.value
  {
    if format.None? || !Truthy(VStr(format.value)) then "standard" else format.value
  }

  /**
   * The sticky entry: null for a type other than 'post', else whether the post
   * is sticky. The loose `==` on the type name is string equality, because
   * 'post' is not numeric.
   */
  function StickyOut(post: PostView): (v: Value)
    ensures v == VNull <==> !LooseEqStr(VStr(post.postType), "post")
    ensures v != VNull ==> v == VBool(post.isSticky)
  {
    WordLooseEq(post.postType, "post");
    if post.postType == "post" then VBool(post.isSticky) else VNull
  }

  /**
   * The value field `f` carries in the reply, given what the two loops of
   * `prepare_post` compute: the category names and the enclosure.
   */
  function FieldValue(post: PostView, categories: seq<Value>, enclosure: Option<string>, f: Field): Value {
    match f
    case PostId => VInt(post.id)
    case Title => VStr(post.title)
    case PostDate => VDate(post.date)
    case PostDateGmt => VDate(post.dateGmt)
    case PostModified => VDate(post.modified)
    case PostModifiedGmt => VDate(post.modifiedGmt)
    case PostStatus => VStr(StatusOut(post.status))
    case PostTypeName => VStr(post.postType)
    case PostFormat => VStr(FormatOut(post.format))
    case WpSlug => VStr(post.name)
    case Link => VStr(post.permalink)
    case PermaLink => VStr(post.permalink)
    case UserId => VStr(post.author)
    case WpAuthorId => VStr(post.author)
    case MtAllowComments => VStr(post.commentStatus)
    case MtAllowPings => VStr(post.pingStatus)
    case Sticky => StickyOut(post)
    case WpPassword => VStr(post.password)
    case MtExcerpt => VStr(post.excerpt)
    case Description => VStr(post.extendedMain)
    case MtTextMore => VStr(post.extendedMore)
    case Terms => VList(post.typeTerms)
    case MtKeywords => VStr(Join(post.tagNames, ", "))
    case Categories => VList(categories)
    case CustomFields => post.customFields
    case Enclosure => EnclosureEntry(enclosure)
  }

  /** The array `prepare_post` returns, by field. */
  type PostReply = map<Field, Value>

  /** The reply for `post` and `fields`, given the results of the two loops. */
  function ReplyWith(post: PostView, fields: Value, categories: seq<Value>, enclosure: Option<string>): PostReply {
    map f: Field | Selected(fields, f) :: FieldValue(post, categories, enclosure, f)
  }

  /** The reply `prepare_post` builds for `post` and the requested `fields`. */
  function Projected(post: PostView, fields: Value): PostReply {
    ReplyWith(post, fields, NamesList(post.categoryNames).items, FirstEnclosure(post.meta))
  }

  /** The reply as the XML-RPC struct the client receives, with the keys under their names. */
  function PostStruct(r: PostReply): Value {
    VStruct(StructOf(r, FieldOrder))
  }

  function StructOf(r: PostReply, fs: seq<Field>): Struct {
    if fs == [] then map[]
    else
      var rest := StructOf(r, fs[1..]);
      if fs[0] in r then rest[KeyName(fs[0]) := r[fs[0]]] else rest
  }

  /** The fields wp.getPost and wp.getPosts use when the request names none. */
  const DefaultFields: Value := VList([VStr("post"), VStr("taxonomies"), VStr("custom_fields")])

  /** `$fields`: the request's list when it is set, the default list otherwise. */
  function FieldsOrDefault(v: Value): (fields: Value)
    ensures !v.VNull? ==> fields == v
    ensures v.VNull? ==> fields == DefaultFields
  {
    if v.VNull? then DefaultFields else v
  }

  /** The enclosure loops of `prepare_post`: scan the meta keys, stop at the first value of an enclosure key. */
  method FindEnclosure(meta: seq<(string, seq<string>)>) returns (enc: Option<string>)
    ensures enc == FirstEnclosure(meta)
  {
    enc := None;
    var i := 0;
    while i < |meta|
      invariant 0 <= i <= |meta|
      invariant enc == None
      invariant FirstEnclosure(meta) == FirstEnclosure(meta[i..])
    {
      var key := meta[i].0;
      var values := meta[i].1;
      // the inner `foreach` over the key's values leaves both loops at its first value
      if IsEnclosureKey(key) && |values| > 0 {
        enc := Some(values[0]);
        break;
      }
      assert meta[i..][1..] == meta[i + 1..];
      i := i + 1;
    }
  }

  lemma NamesListSnoc(names: seq<string>, last: string)
    ensures NamesList(names + [last]).items == NamesList(names).items + [VStr(last)]
  {
    var a := NamesList(names + [last]).items;
    var b := NamesList(names).items + [VStr(last)];
    assert |a| == |b|;
    forall i | 0 <= i < |a| ensures a[i] == b[i] {
      assert (names + [last])[i] == if i < |names| then names[i] else last;
    }
  }

  /** The category loop of `prepare_post`: one name per category, in order. */
  method CategoryNames(names: seq<string>) returns (categories: seq<Value>)
    ensures VList(categories) == NamesList(names)
  {
    categories := [];
    for k := 0 to |names|
      invariant categories == NamesList(names[..k]).items
    {
      assert names[..k + 1][..k] == names[..k];
      NamesListSnoc(names[..k], names[k]);
      categories := categories + [VStr(names[k])];
    }
    assert names[..|names|] == names;
  }

  /**
   * `prepare_post`: the two loops run only when their key is selected; every
   * other key is decided by `Selected` and filled from `FieldValue`.
   */
  method PreparePost(post: PostView, fields: Value) returns (out: PostReply)
    ensures out == Projected(post, fields)
  {
    var categories := [];
    if Selected(fields, Categories) {
      categories := CategoryNames(post.categoryNames);
    }
    var enclosure := None;
    if Selected(fields, Enclosure) {
      enclosure := FindEnclosure(post.meta);
    }
    out := ReplyWith(post, fields, categories, enclosure);
    UnselectedLoopsIgnored(post, fields, categories, enclosure,
      NamesList(post.categoryNames).items, FirstEnclosure(post.meta));
  }

  /** Only the field a loop fills depends on that loop's result. */
  lemma LoopsOnlyFillTheirField(post: PostView, c1: seq<Value>, e1: Option<string>, c2: seq<Value>, e2: Option<string>, f: Field)
    requires f != Categories && f != Enclosure
    ensures FieldValue(post, c1, e1, f) == FieldValue(post, c2, e2, f)
  {
  }

  /** The result of a loop whose key is not selected does not matter. */
  lemma UnselectedLoopsIgnored(post: PostView, fields: Value, c1: seq<Value>, e1: Option<string>, c2: seq<Value>, e2: Option<string>)
    requires Selected(fields, Categories) ==> c1 == c2
    requires Selected(fields, Enclosure) ==> e1 == e2
    ensures ReplyWith(post, fields, c1, e1) == ReplyWith(post, fields, c2, e2)
  {
    var r1 := ReplyWith(post, fields, c1, e1);
    var r2 := ReplyWith(post, fields, c2, e2);
    forall f | f in r1
      ensures r1[f] == r2[f]
    {
      if f != Categories && f != Enclosure {
        LoopsOnlyFillTheirField(post, c1, e1, c2, e2, f);
      }
    }
  }

  /**
   * Field selection: 'postid' is always there, every other key exactly when its
   * group or its own name is requested, and a present key carries its field's value.
   */
  lemma SelectionFollowsGroups(post: PostView, fields: Value, f: Field)
    ensures f in Projected(post, fields) <==> Selected(fields, f)
    ensures f in Projected(post, fields) ==>
      Projected(post, fields)[f] == FieldValue(post, NamesList(post.categoryNames).items, FirstEnclosure(post.meta), f)
    ensures PostId in Projected(post, fields) && Projected(post, fields)[PostId] == VInt(post.id)
  {
  }

  /** 'description' brings 'mt_text_more' with it: the two keys are present together. */
  lemma DescriptionBringsTextMore(post: PostView, fields: Value)
    ensures Description in Projected(post, fields) <==> MtTextMore in Projected(post, fields)
  {
    SelectionFollowsGroups(post, fields, Description);
    SelectionFollowsGroups(post, fields, MtTextMore);
  }

  /** A client list made only of the two group names. */
  predicate OnlyGroupNames(fields: Value) {
    fields.VList? && forall i :: 0 <= i < |fields.items| ==> fields.items[i] in {VStr("post"), VStr("taxonomies")}
  }

  /** No group brings 'custom_fields' or 'enclosure': they appear only when named. */
  lemma GroupsNeverSelectNamedOnly(post: PostView, fields: Value)
    requires OnlyGroupNames(fields)
    ensures CustomFields !in Projected(post, fields)
    ensures Enclosure !in Projected(post, fields)
  {
    SelectionFollowsGroups(post, fields, CustomFields);
    SelectionFollowsGroups(post, fields, Enclosure);
    var items := fields.items;
    forall i | 0 <= i < |items|
      ensures !LooseEqStr(items[i], "custom_fields") && !LooseEqStr(items[i], "enclosure")
    {
      WordLooseEq(items[i].s, "custom_fields");
      WordLooseEq(items[i].s, "enclosure");
    }
    InListMeans(items, "custom_fields");
    InListMeans(items, "enclosure");
  }

  /** Asking for more names never takes a key away, and a key keeps its value. */
  lemma {:induction false} SelectionMonotone(post: PostView, fields: Value, more: Value)
    requires fields.VList? && more.VList?
    requires forall i :: 0 <= i < |fields.items| ==> fields.items[i] in more.items
    ensures forall f :: f in Projected(post, fields) ==>
      f in Projected(post, more) && Projected(post, more)[f] == Projected(post, fields)[f]
  {
    forall n: Name | InArray(fields, n) ensures InArray(more, n) {
      InArrayMeans(fields, n);
      InArrayMeans(more, n);
      var i :| 0 <= i < |fields.items| && LooseEqStr(fields.items[i], NameText(n));
      var j :| 0 <= j < |more.items| && more.items[j] == fields.items[i];
    }
    forall f | f in Projected(post, fields)
      ensures f in Projected(post, more) && Projected(post, more)[f] == Projected(post, fields)[f]
    {
      SelectionFollowsGroups(post, fields, f);
      SelectionFollowsGroups(post, more, f);
    }
  }

  /** A scheduled post reads as published, every other status as stored. */
  lemma StatusRule(post: PostView, fields: Value)
    requires PostStatus in Projected(post, fields)
    ensures Projected(post, fields)[PostStatus] != VStr("future")
    ensures post.status == "future" ==> Projected(post, fields)[PostStatus] == VStr("publish")
    ensures post.status != "future" ==> Projected(post, fields)[PostStatus] == VStr(post.status)
  {
    SelectionFollowsGroups(post, fields, PostStatus);
  }

  /** 'sticky' is null exactly for a type other than 'post', and otherwise whether the post is sticky. */
  lemma StickyRule(post: PostView, fields: Value)
    requires Sticky in Projected(post, fields)
    ensures Projected(post, fields)[Sticky] == VNull <==> !LooseEqStr(VStr(post.postType), "post")
    ensures Projected(post, fields)[Sticky] != VNull ==> Projected(post, fields)[Sticky] == VBool(post.isSticky)
  {
    SelectionFollowsGroups(post, fields, Sticky);
  }

  /** The format is never empty: an empty answer reads as 'standard', any other as itself. */
  lemma FormatRule(post: PostView, fields: Value)
    requires PostFormat in Projected(post, fields)
    ensures Truthy(Projected(post, fields)[PostFormat])
    ensures post.format.Some? && Truthy(VStr(post.format.value)) ==>
      Projected(post, fields)[PostFormat] == VStr(post.format.value)
  {
    SelectionFollowsGroups(post, fields, PostFormat);
  }

  /** 'mt_keywords' is the tag names joined with ", ": "" without tags, the one name alone for one tag. */
  lemma KeywordsRule(post: PostView, fields: Value)
    requires MtKeywords in Projected(post, fields)
    ensures Projected(post, fields)[MtKeywords] == VStr(Join(post.tagNames, ", "))
    ensures post.tagNames == [] ==> Projected(post, fields)[MtKeywords] == VStr("")
    ensures |post.tagNames| == 1 ==> Projected(post, fields)[MtKeywords] == VStr(post.tagNames[0])
  {
    SelectionFollowsGroups(post, fields, MtKeywords);
  }

  /** 'categories' is the category names, in order. */
  lemma CategoriesRule(post: PostView, fields: Value)
    requires Categories in Projected(post, fields)
    ensures Projected(post, fields)[Categories] == NamesList(post.categoryNames)
  {
    SelectionFollowsGroups(post, fields, Categories);
  }

  /** The enclosure entry comes from the first enclosure value. */
  lemma EnclosureRule(post: PostView, fields: Value)
    requires Enclosure in Projected(post, fields)
    ensures Projected(post, fields)[Enclosure] == EnclosureEntry(FirstEnclosure(post.meta))
  {
    SelectionFollowsGroups(post, fields, Enclosure);
  }

  /** The default list names both groups and 'custom_fields'. */
  lemma DefaultNamesGroups()
    ensures InArray(DefaultFields, PostGroupName) && InArray(DefaultFields, TaxonomiesGroupName)
    ensures InArray(DefaultFields, FieldName(CustomFields))
  {
    assert NameText(PostGroupName) == "post";
    assert NameText(TaxonomiesGroupName) == "taxonomies";
    assert NameText(FieldName(CustomFields)) == "custom_fields";
    WordLooseEq("post", "post");
    WordLooseEq("taxonomies", "taxonomies");
    WordLooseEq("custom_fields", "custom_fields");
  }

  /** A list of three words other than the token does not contain it. */
  lemma ThreeWordsWithout(a: string, b: string, c: string, token: string)
    requires |token| > 0 && 'a' <= token[0] <= 'z'
    requires a != token && b != token && c != token
    ensures !InList([VStr(a), VStr(b), VStr(c)], token)
  {
    var xs := [VStr(a), VStr(b), VStr(c)];
    WordLooseEq(a, token);
    WordLooseEq(b, token);
    WordLooseEq(c, token);
    assert xs[1..][1..][1..] == [];
    assert !InList(xs[1..][1..], token);
    assert !InList(xs[1..], token);
  }

  /** The default list does not name 'enclosure'. */
  lemma DefaultLacksEnclosure()
    ensures !InArray(DefaultFields, FieldName(Enclosure))
  {
    assert NameText(FieldName(Enclosure)) == "enclosure";
    ThreeWordsWithout("post", "taxonomies", "custom_fields", "enclosure");
  }

  /** Without a request list, every key but 'enclosure' is in the reply. */
  lemma DefaultsSelectAllButEnclosure(post: PostView, f: Field)
    ensures f in Projected(post, FieldsOrDefault(VNull)) <==> f != Enclosure
  {
    DefaultSelection(f);
    SelectedKeys(post, DefaultFields, f);
  }

  /** The default list selects every field but 'enclosure'. */
  lemma DefaultSelection(f: Field)
    ensures Selected(DefaultFields, f) <==> f != Enclosure
  {
    DefaultNamesGroups();
    match GroupOf(f)
    case AlwaysIncluded =>
    case PostGroup =>
    case TaxonomyGroup =>
    case NamedOnly =>
      if f == Enclosure {
        DefaultLacksEnclosure();
      } else {
        assert OwnName(f) == FieldName(CustomFields);
      }
  }

  /** The reply's keys are the selected fields. */
  lemma SelectedKeys(post: PostView, fields: Value, f: Field)
    ensures f in Projected(post, fields) <==> Selected(fields, f)
  {
  }

  /** What `$user->$key` reads for a contact method: the user's value, or "" when they have none. */
  function ContactValue(user: User, key: string): Value {
    if key in user.meta then user.meta[key] else VStr("")
  }

  /** `$user_contacts`: one entry per registered contact method. */
  function Contacts(user: User, keys: seq<string>): map<string, Value> {
    map k | k in keys :: ContactValue(user, k)
  }

  /** The contact loop of `prepare_user`. */
  method CollectContacts(user: User, keys: seq<string>) returns (contacts: map<string, Value>)
    ensures contacts.Keys == set k | k in keys
    ensures forall k :: k in contacts ==> contacts[k] == ContactValue(user, k)
    ensures contacts == Contacts(user, keys)
  {
    contacts := map[];
    for i := 0 to |keys|
      invariant contacts.Keys == set k | k in keys[..i]
      invariant forall k :: k in contacts ==> contacts[k] == ContactValue(user, k)
    {
      assert keys[..i + 1] == keys[..i] + [keys[i]];
      contacts := contacts[keys[i] := ContactValue(user, keys[i])];
    }
    assert keys[..|keys|] == keys;
  }

  /** The array `prepare_user` returns. */
  datatype UserReply = UserReply(
    userId: int, username: string, firstName: string, lastName: string, registered: string,
    bio: string, email: string, nickname: string, nicename: string, url: string,
    displayName: string, capabilities: Value, userLevel: Value, userContacts: map<string, Value>)

  /** The reply `prepare_user` builds for `user`, given the registered contact methods. */
  function UserReplyOf(user: User, contactMethods: seq<string>): UserReply {
    UserReply(user.id, user.login, user.firstName, user.lastName, user.registered,
      user.bio, user.email, user.nickname, user.nicename, user.url,
      user.displayName, user.capabilities, user.userLevel, Contacts(user, contactMethods))
  }

  /** `prepare_user`. */
  method PrepareUser(user: User, contactMethods: seq<string>) returns (r: UserReply)
    ensures r == UserReplyOf(user, contactMethods)
    ensures r.userId == user.id && r.username == user.login && r.email == user.email
    ensures r.userContacts.Keys == set k | k in contactMethods
  {
    var contacts := CollectContacts(user, contactMethods);
    r := UserReply(user.id, user.login, user.firstName, user.lastName, user.registered,
      user.bio, user.email, user.nickname, user.nicename, user.url,
      user.displayName, user.capabilities, user.userLevel, contacts);
  }

  /** The reply as the XML-RPC struct the client receives. */
  function UserStruct(r: UserReply): Value {
    VStruct(map[
      "user_id" := VInt(r.userId), "username" := VStr(r.username),
      "first_name" := VStr(r.firstName), "last_name" := VStr(r.lastName),
      "registered" := VDate(r.registered), "bio" := VStr(r.bio), "email" := VStr(r.email),
      "nickname" := VStr(r.nickname), "nicename" := VStr(r.nicename), "url" := VStr(r.url),
      "display_name" := VStr(r.displayName), "capabilities" := r.capabilities,
      "user_level" := r.userLevel, "user_contacts" := VStruct(r.userContacts)])
  }

  /** `prepare_taxonomy`: the taxonomy's properties without its update callback. */
  function PrepareTaxonomy(t: Taxonomy): (m: Struct)
    ensures "update_count_callback" !in m
    ensures forall k :: k in m <==> k in t.properties && k != "update_count_callback"
    ensures forall k :: k in m ==> m[k] == t.properties[k]
  {
    t.properties - {"update_count_callback"}
  }

  /** `prepare_term`: the term's properties as they are. */
  function PrepareTerm(t: Term): Struct {
    t.properties
  }

  /**
   * `prepare_post_type`: the type's properties, with 'taxonomies' set to the
   * names of the taxonomies registered for the type its 'name' property names.
   */
  function PreparePostType(site: Site, t: PostType): (m: Struct)
    ensures m.Keys == t.properties.Keys + {"taxonomies"}
    ensures m["taxonomies"] == NamesList(TaxonomiesOf(site, Get(t.properties, "name")))
    ensures forall k :: k in t.properties && k != "taxonomies" ==> m[k] == t.properties[k]
  {
    t.properties["taxonomies" := NamesList(TaxonomiesOf(site, Get(t.properties, "name")))]
  }
}
