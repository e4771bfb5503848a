/**
 * What wp.newPost and wp.editPost guarantee once `$post_data` is validated:
 * the post is written exactly once and first, refusals after the write leave
 * it written, `terms` replaces the legacy branches, and the answer is the
 * written ID.
 */
module PostWriteRules {
  import opened Wrappers
  import opened Php
  import opened World
  import opened Calls
  import opened PostGuards
  import opened TermReconciler
  import opened PostWrites

  /** A legacy call: categories, keywords or format, or the finish. */
  predicate LegacyCall(call: StoreCall) {
    call.SetPostCategories? || call.SetPostTerms? || call.AddEnclosureIfNew? || call.AttachUploads?
  }

  /** `b` is the last part of `a`. */
  predicate EndsWith(a: seq<StoreCall>, b: seq<StoreCall>) {
    |a| >= |b| && a[|a| - |b|..] == b
  }

  /** A step adds only its own calls, and answers `Ok` only when it passed and the rest did. */
  lemma StepParts(s: Checked<seq<StoreCall>>, rest: Outcome)
    ensures forall call :: call in Step(s, rest).calls ==> call in CallsOf(s) || call in rest.calls
    ensures Step(s, rest).response.Ok? ==> s.Success? && Step(s, rest).response == rest.response
  {
  }

  /** A passed step keeps the calls the rest ends with at the end. */
  lemma StepEnds(s: Checked<seq<StoreCall>>, rest: Outcome, b: seq<StoreCall>)
    requires s.Success? && EndsWith(rest.calls, b)
    ensures EndsWith(Step(s, rest).calls, b)
  {
    var a := Step(s, rest).calls;
    assert a == s.value + rest.calls;
    assert a[|a| - |b|..] == rest.calls[|rest.calls| - |b|..];
  }

  /** What a call made after the write can be: sticky, custom fields, and the term calls of the branch taken. */
  predicate TailCall(call: StoreCall, post: int, terms: Option<TermsArg>) {
    || call == StickPost(post) || call == UnstickPost(post) || call.SetCustomFields?
    || (terms.Some? && call.SetObjectTerms? && call.post == post && call.append == VNull)
    || (terms.None? && LegacyCall(call))
  }

  lemma StickyCalls(c: WriteContext, d: PostData, post: int)
    ensures forall call :: call in CallsOf(Sticky(c, d, post)) ==> call == StickPost(post) || call == UnstickPost(post)
  {
  }

  lemma FieldsCalls(c: WriteContext, post: int)
    ensures forall call :: call in CallsOf(CustomFields(c, post)) ==> call.SetCustomFields?
  {
  }

  lemma CategoriesCalls(c: WriteContext, post: int)
    ensures forall call :: call in CallsOf(Categories(c, post)) ==> call.SetPostCategories?
  {
  }

  lemma KeywordsCalls(c: WriteContext)
    ensures forall call :: call in CallsOf(Keywords(c)) ==> call.SetPostTerms?
  {
  }

  lemma FormatCalls(c: WriteContext, post: int)
    ensures forall call :: call in CallsOf(Format(c, post)) ==> call.SetPostTerms?
  {
  }

  lemma LegacyCalls(c: WriteContext, d: PostData, post: int)
    ensures forall call :: call in Legacy(c, d, post).calls ==> LegacyCall(call)
  {
    CategoriesCalls(c, post);
    KeywordsCalls(c);
    FormatCalls(c, post);
    var fin := Outcome(Ok(VStr(IntToString(post))), Finish(c, d, post));
    var l3 := Step(Format(c, post), fin);
    var l2 := Step(Keywords(c), l3);
    StepParts(Format(c, post), fin);
    StepParts(Keywords(c), l3);
    StepParts(Categories(c, post), l2);
    assert Legacy(c, d, post) == Step(Categories(c, post), l2);
  }

  lemma ReconcileCalls(site: Site, taxonomies: seq<string>, post: int, terms: TermsArg)
    ensures var o := ReconcileOutcome(site, taxonomies, post, terms, VNull);
      forall call :: call in o.calls ==> call.SetObjectTerms? && call.post == post && call.append == VNull
    ensures var o := ReconcileOutcome(site, taxonomies, post, terms, VNull);
      !o.response.Ok? ==> o.response.Fail? && o.calls == []
    ensures var o := ReconcileOutcome(site, taxonomies, post, terms, VNull);
      o.response.Ok? ==> o.response == Ok(VBool(true))
  {
    AllOrNothing(site, taxonomies, post, terms, VNull);
    var o := ReconcileOutcome(site, taxonomies, post, terms, VNull);
    forall call | call in o.calls
      ensures call.SetObjectTerms? && call.post == post && call.append == VNull
    {
      var i :| 0 <= i < |o.calls| && o.calls[i] == call;
    }
  }

  /** Every call of the tail is a sticky, custom field or term call, so none writes the post. */
  lemma {:induction false} TailCalls(c: WriteContext, d: PostData, post: int, terms: Option<TermsArg>)
    ensures forall call :: call in Tail(c, d, post, terms).calls ==> TailCall(call, post, terms)
    ensures !WritesPost(Tail(c, d, post, terms).calls)
  {
    StickyCalls(c, d, post);
    if terms.Some? {
      ReconcileCalls(c.site, PostTaxonomies(c), post, terms.value);
    } else {
      LegacyCalls(c, d, post);
    }
    var t := Terms(c, d, post, terms);
    assert forall call :: call in t.calls ==> TailCall(call, post, terms);
    FieldsCalls(c, post);
    StepParts(CustomFields(c, post), t);
    StepParts(Sticky(c, d, post), Step(CustomFields(c, post), t));
    forall call | call in Tail(c, d, post, terms).calls
      ensures !(call.InsertPost? || call.UpdatePost?)
    {
      assert TailCall(call, post, terms);
    }
  }

  /** No call is made before validation has passed. */
  lemma NothingBeforeValidation(site: Site, actor: Actor, mode: Mode, publish: Value, cs: Struct,
                                terms: Option<TermsArg>, replies: Replies)
    requires Validated(site, actor, mode, publish, cs).Failure?
    ensures WriteOutcome(site, actor, mode, publish, cs, terms, replies) ==
      Outcome(Validated(site, actor, mode, publish, cs).error, [])
  {
  }

  /** Once validation has passed, the request goes on with the write. */
  lemma ValidatedCommits(site: Site, actor: Actor, mode: Mode, publish: Value, cs: Struct,
                         terms: Option<TermsArg>, replies: Replies, c: WriteContext, d: PostData)
    requires Validated(site, actor, mode, publish, cs) == Success((c, d))
    ensures WriteOutcome(site, actor, mode, publish, cs, terms, replies) == Commit(c, d, terms, replies)
    ensures c.mode == mode
  {
  }

  /**
   * The first call is the write and no later call writes the post again, so a
   * refusal after the write (sticky, custom fields, terms or legacy branches)
   * leaves the post written.
   */
  lemma WriteComesFirst(c: WriteContext, d: PostData, terms: Option<TermsArg>, replies: Replies)
    ensures Commit(c, d, terms, replies).calls == [WriteCall(c, d)] + AfterWrite(c, d, terms, replies).calls
    ensures !WritesPost(AfterWrite(c, d, terms, replies).calls)
  {
    match WrittenId(c.mode, ReplyFor(c.mode, replies))
    case Failure(_) =>
    case Success(post) =>
      TailCalls(c, d, post, terms);
  }

  /**
   * With `terms` the tail makes no legacy call, assigns every entry with the
   * written ID and a null `$append`, and answers `true`; a refusal assigns
   * nothing.
   */
  lemma TermsReplaceLegacy(c: WriteContext, d: PostData, post: int, terms: TermsArg)
    ensures forall call :: call in Tail(c, d, post, Some(terms)).calls ==> !LegacyCall(call)
    ensures forall call :: call in Tail(c, d, post, Some(terms)).calls && call.SetObjectTerms? ==>
      call.post == post && call.append == VNull
    ensures Tail(c, d, post, Some(terms)).response.Ok? ==> Tail(c, d, post, Some(terms)).response == Ok(VBool(true))
    ensures !Tail(c, d, post, Some(terms)).response.Ok? ==> !AssignsTerms(Tail(c, d, post, Some(terms)).calls)
  {
    TailCalls(c, d, post, Some(terms));
    var r := ReconcileOutcome(c.site, PostTaxonomies(c), post, terms, VNull);
    ReconcileCalls(c.site, PostTaxonomies(c), post, terms);
    assert Terms(c, d, post, Some(terms)) == r;
    var t2 := Step(CustomFields(c, post), r);
    StepParts(CustomFields(c, post), r);
    StepParts(Sticky(c, d, post), t2);
    StickyCalls(c, d, post);
    FieldsCalls(c, post);
    var t := Tail(c, d, post, Some(terms));
    if !t.response.Ok? {
      if Sticky(c, d, post).Success? && CustomFields(c, post).Success? {
        assert t.response == r.response;
      }
      forall call | call in t.calls
        ensures !call.SetObjectTerms?
      {
      }
    }
  }

  /** Without `terms` an accepted request ends with the enclosure and the uploads, and answers the ID as a string. */
  lemma LegacyAnswer(c: WriteContext, d: PostData, post: int)
    requires Tail(c, d, post, None).response.Ok?
    ensures Tail(c, d, post, None).response == Ok(VStr(IntToString(post)))
    ensures EndsWith(Tail(c, d, post, None).calls, Finish(c, d, post))
  {
    var fin := Outcome(Ok(VStr(IntToString(post))), Finish(c, d, post));
    var l3 := Step(Format(c, post), fin);
    var l2 := Step(Keywords(c), l3);
    var l1 := Step(Categories(c, post), l2);
    var t2 := Step(CustomFields(c, post), l1);
    assert Terms(c, d, post, None) == l1;
    StepParts(Sticky(c, d, post), t2);
    StepParts(CustomFields(c, post), l1);
    StepParts(Categories(c, post), l2);
    StepParts(Keywords(c), l3);
    StepParts(Format(c, post), fin);
    assert EndsWith(fin.calls, Finish(c, d, post));
    StepEnds(Format(c, post), fin, Finish(c, d, post));
    StepEnds(Keywords(c), l3, Finish(c, d, post));
    StepEnds(Categories(c, post), l2, Finish(c, d, post));
    StepEnds(CustomFields(c, post), l1, Finish(c, d, post));
    StepEnds(Sticky(c, d, post), t2, Finish(c, d, post));
  }

  /** Only a request that passed validation can be answered with anything but an error. */
  lemma OkNeedsValidation(site: Site, actor: Actor, mode: Mode, publish: Value, cs: Struct,
                          terms: Option<TermsArg>, replies: Replies)
    requires WriteOutcome(site, actor, mode, publish, cs, terms, replies).response.Ok?
    ensures Validated(site, actor, mode, publish, cs).Success?
  {
  }

  /**
   * The answer is the written ID: converting the returned string back with
   * `(int)` gives the nonzero ID the write answered.
   */
  lemma AnswerIsWrittenId(c: WriteContext, d: PostData, replies: Replies)
    requires AfterWrite(c, d, None, replies).response.Ok?
    ensures var id := IntVal(AfterWrite(c, d, None, replies).response.value);
      id != 0 && ReplyFor(c.mode, replies) == Written(id)
  {
    match WrittenId(c.mode, ReplyFor(c.mode, replies))
    case Failure(_) =>
      assert false;
    case Success(post) =>
      LegacyAnswer(c, d, post);
      IntToStringRoundTrip(post);
  }

  /**
   * Sticking needs a truthy flag, a type that may be sticky, the status
   * 'publish' and edit_others_posts, and these together always stick.
   */
  lemma StickyRule(c: WriteContext, d: PostData, post: int)
    ensures Sticky(c, d, post) == Success([StickPost(post)]) <==>
      && Truthy(Get(c.cs, "sticky"))
      && (c.mode.Create? ==> WordEq(TypeArg(c), "post"))
      && WordEq(Column(d, ColStatus), "publish")
      && Can(c.actor, c.postType.cap.editOthersPosts)
    ensures Sticky(c, d, post).Success? ==> Sticky(c, d, post).value in {[], [StickPost(post)], [UnstickPost(post)]}
    ensures c.mode.Create? && WordEq(TypeArg(c), "post") && !Truthy(Get(c.cs, "sticky")) ==>
      Sticky(c, d, post) == Success([UnstickPost(post)])
    ensures c.mode.Create? && !WordEq(TypeArg(c), "post") ==> (Sticky(c, d, post).Success? <==> !IsSet(c.cs, "sticky"))
    ensures c.mode.Update? && !IsSet(c.cs, "sticky") ==> Sticky(c, d, post) == Success([])
  {
  }

  /**
   * The categories pass exactly when every name is a known category; the call
   * then carries their IDs in order, or null for an empty list.
   */
  lemma CategoriesRule(c: WriteContext, post: int)
    requires IsSet(c.cs, "categories") && "category" in PostTaxonomies(c)
    ensures var names := Items(Get(c.cs, "categories"));
      Categories(c, post).Success? <==> forall i :: 0 <= i < |names| ==> CategoryId(c.site, Str(names[i])) != 0
    ensures var names := Items(Get(c.cs, "categories"));
      Categories(c, post).Success? ==>
        exists ids: seq<int> ::
          && |ids| == |names|
          && (forall i :: 0 <= i < |names| ==> ids[i] == CategoryId(c.site, Str(names[i])))
          && Categories(c, post).value == [SetPostCategories(post, if names == [] then None else Some(ids))]
  {
    var names := Items(Get(c.cs, "categories"));
    var r := CategoryIds(c.site, names);
    if r.Some? {
      assert r.value == seq(|names|, i requires 0 <= i < |names| => CategoryId(c.site, Str(names[i])));
    }
  }

  /** The keywords never reach the post: the only call passes null for both the post and the tags. */
  lemma KeywordsDropped(c: WriteContext)
    ensures Keywords(c).Success? ==> forall call :: call in Keywords(c).value ==> call == SetPostTerms(VNull, VNull, "post_tag", false)
    ensures Keywords(c).Failure? <==> IsSet(c.cs, "mt_keywords") && "post_tag" !in PostTaxonomies(c)
  {
  }
}
