/**
 * What the validation chain of wp.newPost and wp.editPost guarantees: the
 * status gate, the comment and ping option table, the page attribute and
 * author guards, and that every guard writes only its own columns.
 */
module PostGuardRules {
  import opened Wrappers
  import opened Php
  import opened World
  import opened Calls
  import opened PostGuards

  // ---------------------------------------------------------------------------
  // Status

  /** 'draft' and 'pending' always pass the status gate, and are stored as requested. */
  lemma StatusPlain(c: WriteContext, d: PostData, publish: Value, t: string)
    requires RequestedStatus(c.cs, d, publish) == VStr(t)
    requires t == "draft" || t == "pending"
    ensures Status(c, d, publish) == Success(With(d, ColStatus, VStr(t)))
  {
  }

  /** 'private' and 'publish' pass the status gate exactly when the actor may publish. */
  lemma StatusNeedsPublish(c: WriteContext, d: PostData, publish: Value, t: string)
    requires RequestedStatus(c.cs, d, publish) == VStr(t)
    requires t == "private" || t == "publish"
    ensures Status(c, d, publish).Success? <==> MayPublish(c)
    ensures Status(c, d, publish).Success? ==> Status(c, d, publish).value == With(d, ColStatus, VStr(t))
    ensures Status(c, d, publish).Failure? ==> Status(c, d, publish).error.Fail? && Status(c, d, publish).error.fault.code == 401
  {
  }

  /** Any other requested string is refused with 401. */
  lemma StatusOther(c: WriteContext, d: PostData, publish: Value, t: string)
    requires RequestedStatus(c.cs, d, publish) == VStr(t)
    requires t !in ["draft", "pending", "private", "publish"]
    ensures Status(c, d, publish).Failure?
    ensures Status(c, d, publish).error.Fail? && Status(c, d, publish).error.fault.code == 401
  {
  }

  /**
   * Without a requested status the publish flag decides: 'publish' when it is
   * truthy, which then needs the publish capability, and 'draft' otherwise.
   */
  lemma DefaultStatusGate(c: WriteContext, d: PostData, publish: Value)
    requires !IsSet(c.cs, StatusFlagKey(c.cs))
    ensures Status(c, d, publish).Success? <==> (!Truthy(publish) || MayPublish(c))
    ensures Status(c, d, publish).Success? ==>
      Column(Status(c, d, publish).value, ColStatus) == (if Truthy(publish) then VStr("publish") else VStr("draft"))
  {
    if Truthy(publish) {
      StatusNeedsPublish(c, d, publish, "publish");
    } else {
      StatusPlain(c, d, publish, "draft");
    }
  }

  /**
   * Loose comparison lets `true` and the integer 0 through as 'draft': the
   * switch's first case matches them, and they are stored unchanged.
   */
  lemma StatusLooseMatches(c: WriteContext, d: PostData, publish: Value)
    requires RequestedStatus(c.cs, d, publish) in {VBool(true), VInt(0)}
    ensures Status(c, d, publish) == Success(With(d, ColStatus, RequestedStatus(c.cs, d, publish)))
  {
  }

  /**
   * wp.editPost reads the requested status from the key "_status", since
   * `$post_data['post_type']` is unset there, while wp.newPost reads the key it
   * tested for.
   */
  lemma StatusKeys(c: WriteContext)
    ensures c.mode.Update? ==> StatusReadKey(InitialData(c)) == "_status"
    ensures c.mode.Create? ==> StatusReadKey(InitialData(c)) == StatusFlagKey(c.cs)
  {
    if c.mode.Update? {
      assert ColType !in InitialData(c).columns;
    }
  }

  // ---------------------------------------------------------------------------
  // Access, password and content

  /**
   * wp.newPost admits a request exactly when the named post type exists and
   * the actor holds its edit_posts; wp.editPost exactly when the post exists,
   * its type is registered and the actor holds edit_posts on that post. An
   * unknown type is a 403, a missing post a 404, and everything else refused
   * a 401.
   */
  lemma AccessRule(site: Site, actor: Actor, mode: Mode, cs: Struct)
    ensures mode.Create? ==>
      var t := TypeOf(site, Get(cs, "post_type"));
      var r := Access(site, actor, mode, cs);
      && (r.Success? <==> t.Some? && Can(actor, t.value.cap.editPosts))
      && (t.None? ==> r == Refused(403, "Invalid post type"))
      && (t.Some? && r.Failure? ==> r == Refused(401, CreateDenied))
      && (r.Success? ==> r.value.postType == t.value && r.value.termsType == Get(cs, "post_type"))
    ensures mode.Update? ==>
      var p := PostAt(site, mode.postId);
      var r := Access(site, actor, mode, cs);
      && (r.Success? <==>
            p.Some? && TypeOf(site, VStr(p.value.postType)).Some? &&
            CanOn(actor, TypeOf(site, VStr(p.value.postType)).value.cap.editPosts, mode.postId))
      && (p.None? ==> r == Refused(404, "Invalid post ID."))
      && (p.Some? && r.Failure? ==> r == Refused(401, CreateDenied))
      && (r.Success? ==>
            r.value.postType == TypeOf(site, VStr(p.value.postType)).value &&
            r.value.termsType == VStr(p.value.postType))
  {
  }

  /**
   * A password needs publish_posts, asked without the post in both handlers;
   * then the password and the slug are stored as sent, and wp.newPost clears
   * the slug when none is sent.
   */
  lemma CredentialsRule(c: WriteContext, d: PostData)
    ensures Credentials(c, d).Success? <==> !IsSet(c.cs, "wp_password") || Can(c.actor, c.postType.cap.publishPosts)
    ensures Credentials(c, d).Failure? ==>
      Credentials(c, d) == Refused(401, "Sorry, you are not allowed to create password protected posts in this post type")
    ensures Credentials(c, d).Success? ==>
      var e := Credentials(c, d).value;
      && Agrees(d, e, {ColPassword, ColName})
      && Column(e, ColPassword) == (if IsSet(c.cs, "wp_password") then Get(c.cs, "wp_password") else Column(d, ColPassword))
      && Column(e, ColName) ==
           (if IsSet(c.cs, "wp_slug") then Get(c.cs, "wp_slug")
            else if c.mode.Create? then VStr("") else Column(d, ColName))
  {
  }

  /**
   * A request field passes exactly when it is unset or the post type supports
   * its feature; it is then stored as sent, and otherwise refused with 401.
   */
  lemma SupportedRule(c: WriteContext, d: PostData, key: string, feature: string, col: PostColumn, message: string)
    ensures var r := Supported(c, d, key, feature, col, message);
      && (r.Success? <==> !IsSet(c.cs, key) || Supports(c.site, TypeArg(c), feature))
      && (r.Failure? ==> r == Refused(401, message))
      && (r.Success? ==> r.value == if IsSet(c.cs, key) then With(d, col, Get(c.cs, key)) else d)
  {
  }

  /** The title, content and excerpt each need their feature: 'title', 'editor' and 'excerpt'. */
  predicate ContentAllowed(c: WriteContext) {
    && (IsSet(c.cs, "title") ==> Supports(c.site, TypeArg(c), "title"))
    && (IsSet(c.cs, ContentKey(c.mode)) ==> Supports(c.site, TypeArg(c), "editor"))
    && (IsSet(c.cs, "mt_excerpt") ==> Supports(c.site, TypeArg(c), "excerpt"))
  }

  /**
   * The content fields pass exactly when each sent one's feature is
   * supported; the title is checked first, then the content (read from
   * 'description' by wp.newPost and 'post_content' by wp.editPost), then the
   * excerpt, and each sent field is stored as sent.
   */
  lemma ContentRule(c: WriteContext, d: PostData)
    ensures Content(c, d).Success? <==> ContentAllowed(c)
    ensures IsSet(c.cs, "title") && !Supports(c.site, TypeArg(c), "title") ==>
      Content(c, d) == Refused(401, "This post type does not support title attribute.")
    ensures ((IsSet(c.cs, "title") ==> Supports(c.site, TypeArg(c), "title")) &&
             IsSet(c.cs, ContentKey(c.mode)) && !Supports(c.site, TypeArg(c), "editor")) ==>
      Content(c, d) == Refused(401, "This post type does not support post content.")
    ensures Content(c, d).Success? ==>
      var e := Content(c, d).value;
      && Agrees(d, e, {ColTitle, ColContent, ColExcerpt})
      && (IsSet(c.cs, "title") ==> Column(e, ColTitle) == Get(c.cs, "title"))
      && (IsSet(c.cs, ContentKey(c.mode)) ==> Column(e, ColContent) == Get(c.cs, ContentKey(c.mode)))
      && (IsSet(c.cs, "mt_excerpt") ==> Column(e, ColExcerpt) == Get(c.cs, "mt_excerpt"))
  {
    var d1 := Supported(c, d, "title", "title", ColTitle, "This post type does not support title attribute.");
    SupportedRule(c, d, "title", "title", ColTitle, "This post type does not support title attribute.");
    if d1.Success? {
      var d2 := Supported(c, d1.value, ContentKey(c.mode), "editor", ColContent, "This post type does not support post content.");
      SupportedRule(c, d1.value, ContentKey(c.mode), "editor", ColContent, "This post type does not support post content.");
      if d2.Success? {
        SupportedRule(c, d2.value, "mt_excerpt", "excerpt", ColExcerpt, "This post type does not support post excerpt.");
      }
    }
  }

  // ---------------------------------------------------------------------------
  // Comment and ping options

  /**
   * The option table: 'closed', the numbers 0 and 2 and `true` (which equals
   * 'closed' loosely) close; 'open' and the number 1 open; everything else is
   * invalid.
   */
  lemma {:induction false} OptionTable(v: Value)
    ensures Coerced(v) == Some("closed") <==>
      (IsNumeric(v) && (IntVal(v) == 0 || IntVal(v) == 2)) || v == VStr("closed") || v == VBool(true)
    ensures Coerced(v) == Some("open") <==> (IsNumeric(v) && IntVal(v) == 1) || v == VStr("open")
    ensures Coerced(v).Some? ==> Coerced(v) == Some("closed") || Coerced(v) == Some("open")
  {
    WordHasNoNumber("closed");
    WordHasNoNumber("open");
    if v.VStr? {
      if IsNumericString(v.s) {
        assert v.s != "closed" && v.s != "open";
      } else {
        assert Coerced(v) == (if v.s == "closed" then Some("closed") else if v.s == "open" then Some("open") else None);
      }
    }
  }

  /** A numeric string is read by its `(int)`: 0 and 2 close, 1 opens, anything else is invalid. */
  lemma OptionNumeric(s: string)
    requires IsNumericString(s)
    ensures Coerced(VStr(s)) ==
      (if LeadingInt(s) == 0 || LeadingInt(s) == 2 then Some("closed")
       else if LeadingInt(s) == 1 then Some("open") else None)
  {
  }

  /** White space before a number changes nothing: the option reads as without it. */
  lemma OptionLeadingSpace(c: char, s: string)
    requires IsNumberSpace(c) && IsNumericString(s)
    ensures Coerced(VStr([c] + s)) == Coerced(VStr(s))
  {
    SpaceBeforeNumber(c, s);
    OptionNumeric(s);
    OptionNumeric([c] + s);
  }

  /** "1.0" is numeric, and its `(int)` is 1. */
  lemma OneWithFraction()
    ensures IsNumericString("1.0") && LeadingInt("1.0") == 1
  {
    DecimalNumeric("1", "0");
    DecimalIntVal("1", "0");
    assert "1" + "." + "0" == "1.0";
  }

  /** "2.5" is numeric, and its `(int)` is 2. */
  lemma TwoWithFraction()
    ensures IsNumericString("2.5") && LeadingInt("2.5") == 2
  {
    DecimalNumeric("2", "5");
    DecimalIntVal("2", "5");
    assert "2" + "." + "5" == "2.5";
  }

  /** A fraction is accepted and `(int)` drops it: "1.0" opens and "2.5" closes. */
  lemma OptionFractions()
    ensures Coerced(VStr("1.0")) == Some("open")
    ensures Coerced(VStr("2.5")) == Some("closed")
  {
    OneWithFraction();
    OptionNumeric("1.0");
    TwoWithFraction();
    OptionNumeric("2.5");
  }

  /** White space before the number is accepted: " 1.0", "\t1.0" and the like open. */
  lemma OptionSpaceFirst(c: char)
    requires IsNumberSpace(c)
    ensures Coerced(VStr([c] + "1.0")) == Some("open")
  {
    OneWithFraction();
    SpaceBeforeNumber(c, "1.0");
    OptionNumeric([c] + "1.0");
  }

  /** White space after the number is not: "1 " is neither numeric nor a word of the switch. */
  lemma OptionTrailingSpace()
    ensures Coerced(VStr("1 ")) == None
  {
    var s := "1 ";
    assert SpaceRun(s) == 0;
    assert s[0..] == s;
    DigitRunOf("1", " ");
    assert "1" + " " == s;
    assert ScanMantissa(s).length == 1;
    assert ScanUnsigned(s).length == 1;
    assert ScanSigned(s) == ScanUnsigned(s);
    ScanChecked(s);
    assert !IsNumericString(s);
  }

  /**
   * wp.newPost on one discussion feature: a supporting type without the option
   * gets the site default, with the option it gets the coerced value or a 401;
   * a type without the feature refuses the option and otherwise leaves the
   * column unset.
   */
  lemma CreateOptionRule(c: WriteContext, d: PostData, feature: string, key: string, col: PostColumn,
                         default: string, invalid: string, unsupported: string)
    ensures var r := CreateOption(c, d, feature, key, col, default, invalid, unsupported);
      && (Supports(c.site, TypeArg(c), feature) && !IsSet(c.cs, key) ==>
            r.Success? && Column(r.value, col) == VStr(default))
      && (Supports(c.site, TypeArg(c), feature) && IsSet(c.cs, key) ==>
            (r.Success? <==> Coerced(Get(c.cs, key)).Some?) &&
            (r.Success? ==> Column(r.value, col) == VStr(Coerced(Get(c.cs, key)).value)) &&
            (r.Failure? ==> r.error == Fail(Fault(401, invalid))))
      && (!Supports(c.site, TypeArg(c), feature) ==>
            (r.Success? <==> !IsSet(c.cs, key)) &&
            (r.Success? ==> r.value == d) &&
            (r.Failure? ==> r.error == Fail(Fault(401, unsupported))))
  {
  }

  /**
   * wp.editPost's comment option: unset, it changes nothing; for a type
   * without 'comments' it is a 401; otherwise it passes exactly when the option
   * table takes the value, which is then stored. An invalid numeric value is
   * answered with the ping option's message, an invalid word with "Invalid
   * comment option" and no period.
   */
  lemma UpdateCommentsRule(c: WriteContext, d: PostData)
    ensures !IsSet(c.cs, "mt_allow_comments") ==> UpdateComments(c, d) == Success(d)
    ensures IsSet(c.cs, "mt_allow_comments") && !Supports(c.site, TypeArg(c), "comments") ==>
      UpdateComments(c, d) == Refused(401, "This post type does not support comments.")
    ensures IsSet(c.cs, "mt_allow_comments") && Supports(c.site, TypeArg(c), "comments") ==>
      var v := Get(c.cs, "mt_allow_comments");
      var r := UpdateComments(c, d);
      && (r.Success? <==> Coerced(v).Some?)
      && (r.Success? ==> r.value == With(d, ColCommentStatus, VStr(Coerced(v).value)))
      && (r.Failure? ==> r == Refused(401, if IsNumeric(v) then "Invalid ping option." else "Invalid comment option"))
  {
  }

  /** The comment option 3 is numeric and matches no case, so wp.editPost answers with the ping message. */
  lemma UpdateCommentsPingMessage(c: WriteContext, d: PostData)
    requires Get(c.cs, "mt_allow_comments") == VInt(3)
    requires Supports(c.site, TypeArg(c), "comments")
    ensures UpdateComments(c, d) == Refused(401, "Invalid ping option.")
  {
    UpdateCommentsRule(c, d);
  }

  /**
   * wp.editPost never refuses a ping value it cannot read once the type
   * supports trackbacks: the column keeps its value, or takes 'open' or 'closed'.
   */
  lemma EditIgnoresInvalidPings(c: WriteContext, d: PostData)
    requires c.mode.Update? && Supports(c.site, TypeArg(c), "trackbacks")
    requires UpdateComments(c, d).Success?
    ensures Discussion(c, d).Success?
    ensures var e := Discussion(c, d).value;
      Column(e, ColPingStatus) in {Column(d, ColPingStatus), VStr("open"), VStr("closed")}
  {
    OptionTable(Get(c.cs, "mt_allow_pings"));
  }

  // ---------------------------------------------------------------------------
  // Page attributes and author

  /** The three page attribute guards, stated as conditions on the request. */
  predicate AttributesAllowed(c: WriteContext) {
    var parentId := IntVal(Get(c.cs, "wp_page_parent_id"));
    (IsSet(c.cs, "wp_page_order") ==> Supports(c.site, TypeArg(c), "page-attributes")) &&
    (IsSet(c.cs, "wp_page_parent_id") ==>
      c.postType.hierarchical &&
      (parentId != 0 ==> PostAt(c.site, parentId).Some? &&
                         LooseEqStr(TypeArg(c), PostAt(c.site, parentId).value.postType))) &&
    (IsSet(c.cs, "wp_page_template") ==>
      WordEq(TypeArg(c), "page") && TemplateKnown(c.site, Get(c.cs, "wp_page_template")))
  }

  /**
   * The page attributes pass exactly when every guard's condition holds; then
   * the menu order is stored cast by `(int)` on create and as sent on edit, the
   * parent and template are stored as sent, and no other column changes.
   */
  lemma PageAttributesRule(c: WriteContext, d: PostData)
    ensures PageAttributes(c, d).Success? <==> AttributesAllowed(c)
    ensures PageAttributes(c, d).Success? ==>
      var e := PageAttributes(c, d).value;
      && Agrees(d, e, {ColMenuOrder, ColParent, ColTemplate})
      && (IsSet(c.cs, "wp_page_order") ==>
            Column(e, ColMenuOrder) ==
              (if c.mode.Create? then VInt(IntVal(Get(c.cs, "wp_page_order"))) else Get(c.cs, "wp_page_order")))
      && (IsSet(c.cs, "wp_page_parent_id") ==> Column(e, ColParent) == Get(c.cs, "wp_page_parent_id"))
      && (IsSet(c.cs, "wp_page_template") ==> Column(e, ColTemplate) == Get(c.cs, "wp_page_template"))
  {
    var o := PageOrder(c, d);
    if o.Success? {
      var p := Parent(c, o.value);
      if p.Success? {
        var t := Template(c, p.value);
      }
    }
  }

  /**
   * The author override is checked in this order: the post type must support
   * authors, the actor must hold edit_others_posts, and the user must exist.
   */
  lemma AuthorOverrideOrder(c: WriteContext, d: PostData)
    requires OtherAuthor(c)
    ensures !Supports(c.site, TypeArg(c), "author") ==>
      Author(c, d) == Refused(401, "This post type does not support to set author.")
    ensures Supports(c.site, TypeArg(c), "author") && !Can(c.actor, c.postType.cap.editOthersPosts) ==>
      Author(c, d) == Refused(401, "You are not allowed to create posts as this user.")
  {
  }

  /** An override that passes both checks stores the requested ID when that user exists, and is a 404 otherwise. */
  lemma AuthorOverrideTarget(c: WriteContext, d: PostData)
    requires OtherAuthor(c)
    requires Supports(c.site, TypeArg(c), "author") && Can(c.actor, c.postType.cap.editOthersPosts)
    ensures var id := IntVal(Get(c.cs, "wp_author_id"));
      && (Author(c, d).Success? <==> id in c.site.users)
      && (Author(c, d).Success? ==> Column(Author(c, d).value, ColAuthor) == VInt(id))
      && (Author(c, d).Failure? ==> Author(c, d) == Refused(404, "Invalid author ID."))
  {
  }

  /** Without an override, wp.newPost names the actor as the author and wp.editPost leaves the column alone. */
  lemma AuthorDefault(c: WriteContext, d: PostData)
    requires !OtherAuthor(c)
    ensures Author(c, d).Success?
    ensures c.mode.Create? ==> Column(Author(c, d).value, ColAuthor) == VInt(c.actor.id)
    ensures c.mode.Update? ==> Author(c, d).value == d
  {
  }

  // ---------------------------------------------------------------------------
  // The whole chain

  /** The guards after the status leave it as stored. */
  lemma BackKeepsStatus(c: WriteContext, d: PostData)
    requires Back(c, d).Success?
    ensures Column(Back(c, d).value, ColStatus) == Column(d, ColStatus)
  {
  }

  /** The front of the chain stores the status the gate let through. */
  lemma FrontStatus(c: WriteContext, publish: Value)
    requires Front(c, publish).Success?
    ensures Column(Front(c, publish).value, ColStatus) == RequestedStatus(c.cs, InitialData(c), publish)
    ensures StatusFault(c, RequestedStatus(c.cs, InitialData(c), publish)) == None
  {
    var d1 := Status(c, InitialData(c), publish).value;
    var d2 := Credentials(c, d1).value;
    CredentialsRule(c, d1);
    assert Column(d2, ColStatus) == Column(d1, ColStatus);
    PageAttributesRule(c, d2);
    assert Column(PageAttributes(c, d2).value, ColStatus) == Column(d2, ColStatus);
    assert Front(c, publish) == PageAttributes(c, d2);
  }

  /** The front of the chain accepts only allowed page attributes. */
  lemma FrontAttributes(c: WriteContext, publish: Value)
    requires Front(c, publish).Success?
    ensures AttributesAllowed(c)
  {
    var d1 := Status(c, InitialData(c), publish).value;
    var d2 := Credentials(c, d1).value;
    assert Front(c, publish) == PageAttributes(c, d2);
    PageAttributesRule(c, d2);
  }

  /**
   * A request that passes the whole chain carries a status the gate let
   * through, exactly as requested (or defaulted), and a page structure the
   * attribute guards accepted.
   */
  lemma ValidatedStatus(site: Site, actor: Actor, mode: Mode, publish: Value, cs: Struct, c: WriteContext, d: PostData)
    requires Validated(site, actor, mode, publish, cs) == Success((c, d))
    ensures Access(site, actor, mode, cs) == Success(c)
    ensures Column(d, ColStatus) == RequestedStatus(cs, InitialData(c), publish)
    ensures StatusFault(c, Column(d, ColStatus)) == None
    ensures AttributesAllowed(c)
  {
    var f := Front(c, publish).value;
    BackKeepsStatus(c, f);
    FrontStatus(c, publish);
    FrontAttributes(c, publish);
  }

  // ---------------------------------------------------------------------------
  // More text, ping URLs and dates

  /**
   * The more text is kept and appended to the content after '<!--more-->', and
   * the ping URLs are stored exactly as sent; without the more text the
   * content is untouched.
   */
  lemma ExtrasRule(c: WriteContext, d: PostData)
    requires Extras(c, d).Success?
    ensures var e := Extras(c, d).value;
      IsSet(c.cs, "mt_text_more") ==>
        Column(e, ColMore) == Get(c.cs, "mt_text_more") &&
        Column(e, ColContent) == VStr(Str(Column(d, ColContent)) + "<!--more-->" + Str(Get(c.cs, "mt_text_more")))
    ensures var e := Extras(c, d).value;
      !IsSet(c.cs, "mt_text_more") ==>
        Column(e, ColContent) == Column(d, ColContent) &&
        Column(e, ColMore) == (if c.mode.Create? then VNull else Column(d, ColMore))
    ensures var e := Extras(c, d).value;
      IsSet(c.cs, "mt_tb_ping_urls") ==> Column(e, ColToPing) == Get(c.cs, "mt_tb_ping_urls")
  {
  }

  /**
   * The date source: a set GMT creation date with its 'Z' forced, else a set
   * local creation date, else the server clock on create and no date on
   * update; a set creation date that is not a date object is fatal.
   */
  lemma DateSourceRule(c: WriteContext, d: PostData)
    ensures var gmt := Get(c.cs, "date_created_gmt");
      Truthy(gmt) ==>
        (Extras(c, d).Success? <==> gmt.VDate?) &&
        (gmt.VDate? ==> Extras(c, d).value.date == Some(Iso(Without(gmt.iso, 'Z') + "Z")))
    ensures var gmt := Get(c.cs, "date_created_gmt"); var local := Get(c.cs, "dateCreated");
      !Truthy(gmt) && Truthy(local) ==>
        (Extras(c, d).Success? <==> local.VDate?) &&
        (local.VDate? && Truthy(VStr(local.iso)) ==> Extras(c, d).value.date == Some(Iso(local.iso)))
    ensures !Truthy(Get(c.cs, "date_created_gmt")) && !Truthy(Get(c.cs, "dateCreated")) ==>
      Extras(c, d).Success? &&
      Extras(c, d).value.date == (if c.mode.Create? then Some(ServerClock) else None)
  {
    var gmt := Get(c.cs, "date_created_gmt");
    if Truthy(gmt) && gmt.VDate? {
      var created := Without(gmt.iso, 'Z') + "Z";
      assert created[|created| - 1] == 'Z';
      assert Truthy(VStr(created));
    }
  }
}
