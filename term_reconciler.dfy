/**
 * The term reconciler shared by wp.newPost, wp.editPost and wp.setPostTerms:
 * a `terms` struct maps taxonomy names to lists of term IDs. A first pass checks
 * every taxonomy against the post type's taxonomies and resolves every ID with
 * `get_term`; only when all pass does a second pass call `wp_set_object_terms`
 * once per taxonomy with the IDs cast by `intval` and deduplicated by
 * `array_unique`.
 */
module TermReconciler {
  import opened Wrappers
  import opened Php
  import opened World
  import opened Calls

  /**
   * A `terms` struct as its entries, taxonomy key and value, in the order the
   * client sent them (which decides which error is reported first).
   */
  type TermsArg = seq<(string, Value)>

  /**
   * `entries` are the entries `array_keys` and the loops visit in `v`: a
   * struct's members, each key once, in the order the client sent them; a
   * list's items under the keys "0", "1", ...; and none for anything else,
   * whose `array_keys` is null.
   */
  predicate EntriesOf(v: Value, entries: TermsArg) {
    match v
    case VStruct(m) =>
      && (forall i, j :: 0 <= i < j < |entries| ==> entries[i].0 != entries[j].0)
      && (forall i :: 0 <= i < |entries| ==> entries[i].0 in m && m[entries[i].0] == entries[i].1)
      && (forall k :: k in m ==> exists i :: 0 <= i < |entries| && entries[i].0 == k)
    case VList(xs) =>
      |entries| == |xs| && forall i :: 0 <= i < |xs| ==> entries[i] == (IntToString(i), xs[i])
    case _ => entries == []
  }

  /** `in_array($taxonomy, $post_type_taxonomies)`, comparing loosely with the key's PHP value. */
  predicate Listed(key: string, taxonomies: seq<string>) {
    exists i :: 0 <= i < |taxonomies| && LooseEqStr(KeyValue(key), taxonomies[i])
  }

  /** The values `foreach` visits: an array's items, none for anything else. */
  function Items(v: Value): seq<Value> {
    if v.VList? then v.items else []
  }

  /** The error the resolution of one term ID raises, if any. */
  function TermFault(site: Site, taxonomy: string, termId: Value): Option<Fault> {
    match TermAt(site, IntVal(termId), taxonomy)
    case TermError(message) => Some(Fault(500, message))
    case TermMissing => Some(Fault(401, "Invalid term ID"))
    case TermFound(_) => None
  }

  /** The first error among the IDs of one taxonomy, in order. */
  function IdsFault(site: Site, taxonomy: string, ids: seq<Value>): Option<Fault> {
    if ids == [] then None
    else if TermFault(site, taxonomy, ids[0]).Some? then TermFault(site, taxonomy, ids[0])
    else IdsFault(site, taxonomy, ids[1..])
  }

  const UnlistedTaxonomy := "Sorry, one of the given taxonomy is not supported by the post type."

  /** The first error of one entry: its taxonomy must be listed, then each ID must resolve. */
  function EntryFault(site: Site, taxonomies: seq<string>, e: (string, Value)): Option<Fault> {
    if !Listed(e.0, taxonomies) then Some(Fault(401, UnlistedTaxonomy))
    else IdsFault(site, e.0, Items(e.1))
  }

  /** The first error of the validating pass, entry by entry. */
  function TermsFault(site: Site, taxonomies: seq<string>, terms: TermsArg): Option<Fault> {
    if terms == [] then None
    else if EntryFault(site, taxonomies, terms[0]).Some? then EntryFault(site, taxonomies, terms[0])
    else TermsFault(site, taxonomies, terms[1..])
  }

  /** `array_unique`: the first occurrence of each value, in order. */
  function Unique(xs: seq<int>): (r: seq<int>)
    ensures forall x :: x in r <==> x in xs
    ensures forall i, j :: 0 <= i < j < |r| ==> r[i] != r[j]
    ensures |r| <= |xs|
  {
    if xs == [] then []
    else
      var u := Unique(xs[..|xs| - 1]);
      assert forall x :: x in xs <==> x in xs[..|xs| - 1] || x == xs[|xs| - 1];
      if xs[|xs| - 1] in u then u else u + [xs[|xs| - 1]]
  }

  function IntVals(xs: seq<Value>): (r: seq<int>)
    ensures |r| == |xs| && forall i :: 0 <= i < |xs| ==> r[i] == IntVal(xs[i])
  {
    if xs == [] then [] else [IntVal(xs[0])] + IntVals(xs[1..])
  }

  /**
   * `array_unique(array_map('intval', $term_ids))`; `array_map` answers null for
   * a value that is not an array.
   */
  function AppliedIds(v: Value): Option<seq<int>> {
    if v.VList? then Some(Unique(IntVals(v.items))) else None
  }

  /** The applying pass: one `wp_set_object_terms` per entry, in order. */
  function Assignments(post: int, terms: TermsArg, append: Value): (calls: seq<StoreCall>)
    ensures |calls| == |terms|
  {
    seq(|terms|, i requires 0 <= i < |terms| => SetObjectTerms(post, AppliedIds(terms[i].1), terms[i].0, append))
  }

  /** Both passes: the first error and no call, or `true` and every assignment. */
  function ReconcileOutcome(site: Site, taxonomies: seq<string>, post: int, terms: TermsArg, append: Value): Outcome {
    match TermsFault(site, taxonomies, terms)
    case Some(f) => Outcome(Fail(f), [])
    case None => Outcome(Ok(VBool(true)), Assignments(post, terms, append))
  }

  // ---------------------------------------------------------------------------
  // Properties

  /**
   * What `EntriesOf` leaves to the order: a struct's entries carry exactly its
   * keys, and a value that is not an array has no entries, so both passes do
   * nothing and the answer is `true`.
   */
  lemma EntriesOfForms(v: Value, entries: TermsArg, site: Site, taxonomies: seq<string>, post: int, append: Value)
    requires EntriesOf(v, entries)
    ensures v.VStruct? ==> (set i | 0 <= i < |entries| :: entries[i].0) == v.members.Keys
    ensures !v.VStruct? && !v.VList? ==> ReconcileOutcome(site, taxonomies, post, entries, append) == Outcome(Ok(VBool(true)), [])
  {
    if v.VStruct? {
      var keys := set i | 0 <= i < |entries| :: entries[i].0;
      forall k | k in v.members.Keys
        ensures k in keys
      {
        var i :| 0 <= i < |entries| && entries[i].0 == k;
      }
    }
  }

  /** The validating pass fails exactly when some entry fails, and then reports the first failing entry's error. */
  lemma {:induction false} TermsFaultFirst(site: Site, taxonomies: seq<string>, terms: TermsArg)
    ensures TermsFault(site, taxonomies, terms).None? <==>
      forall i :: 0 <= i < |terms| ==> EntryFault(site, taxonomies, terms[i]).None?
    ensures TermsFault(site, taxonomies, terms).Some? ==>
      exists i :: 0 <= i < |terms| && EntryFault(site, taxonomies, terms[i]) == TermsFault(site, taxonomies, terms) &&
        forall j :: 0 <= j < i ==> EntryFault(site, taxonomies, terms[j]).None?
  {
    if terms != [] {
      TermsFaultFirst(site, taxonomies, terms[1..]);
      if EntryFault(site, taxonomies, terms[0]).None? && TermsFault(site, taxonomies, terms).Some? {
        var k :| 0 <= k < |terms[1..]| &&
          EntryFault(site, taxonomies, terms[1..][k]) == TermsFault(site, taxonomies, terms[1..]) &&
          forall j :: 0 <= j < k ==> EntryFault(site, taxonomies, terms[1..][j]).None?;
        assert EntryFault(site, taxonomies, terms[k + 1]) == TermsFault(site, taxonomies, terms);
        assert forall j :: 0 <= j < k + 1 ==> EntryFault(site, taxonomies, terms[j]).None? by {
          forall j | 0 <= j < k + 1
            ensures EntryFault(site, taxonomies, terms[j]).None?
          {
            if j > 0 {
              assert terms[j] == terms[1..][j - 1];
            }
          }
        }
      }
      if EntryFault(site, taxonomies, terms[0]).None? {
        assert forall i :: 1 <= i < |terms| ==> terms[i] == terms[1..][i - 1];
      }
    }
  }

  /** An ID that does not resolve, in a listed taxonomy, makes the whole reconciliation fail. */
  lemma {:induction false} IdsFaultFirst(site: Site, taxonomy: string, ids: seq<Value>)
    ensures IdsFault(site, taxonomy, ids).None? <==> forall i :: 0 <= i < |ids| ==> TermFault(site, taxonomy, ids[i]).None?
  {
    if ids != [] {
      IdsFaultFirst(site, taxonomy, ids[1..]);
      assert forall i :: 1 <= i < |ids| ==> ids[i] == ids[1..][i - 1];
    }
  }

  /**
   * The IDs applied for an array are its items cast by `intval`, each once;
   * anything else is passed on as null.
   */
  lemma AppliedIdsMeaning(v: Value)
    ensures v.VList? <==> AppliedIds(v).Some?
    ensures v.VList? ==>
      (forall x :: x in AppliedIds(v).value <==> exists j :: 0 <= j < |v.items| && x == IntVal(v.items[j]))
    ensures v.VList? ==>
      forall a, b :: 0 <= a < b < |AppliedIds(v).value| ==> AppliedIds(v).value[a] != AppliedIds(v).value[b]
  {
    if v.VList? {
      var ints := IntVals(v.items);
      forall x
        ensures x in ints <==> exists j :: 0 <= j < |v.items| && x == IntVal(v.items[j])
      {
        if x in ints {
          var j :| 0 <= j < |ints| && ints[j] == x;
        }
      }
    }
  }

  /**
   * All or nothing: when any taxonomy is not the post type's or any ID fails to
   * resolve, the answer is that error and no assignment is made; otherwise the
   * answer is `true` and every entry is assigned, in order.
   */
  lemma AllOrNothing(site: Site, taxonomies: seq<string>, post: int, terms: TermsArg, append: Value)
    ensures ReconcileOutcome(site, taxonomies, post, terms, append).response.Ok? <==>
      forall i :: 0 <= i < |terms| ==> EntryFault(site, taxonomies, terms[i]).None?
    ensures !ReconcileOutcome(site, taxonomies, post, terms, append).response.Ok? ==>
      ReconcileOutcome(site, taxonomies, post, terms, append).response.Fail? &&
      !AssignsTerms(ReconcileOutcome(site, taxonomies, post, terms, append).calls)
    ensures ReconcileOutcome(site, taxonomies, post, terms, append).response.Ok? ==>
      ReconcileOutcome(site, taxonomies, post, terms, append).response.value == VBool(true)
    ensures ReconcileOutcome(site, taxonomies, post, terms, append).response.Ok? ==>
      var calls := ReconcileOutcome(site, taxonomies, post, terms, append).calls;
      |calls| == |terms| &&
      forall i :: 0 <= i < |terms| ==> calls[i] == SetObjectTerms(post, AppliedIds(terms[i].1), terms[i].0, append)
  {
    TermsFaultFirst(site, taxonomies, terms);
  }

  /** A listed taxonomy whose IDs all resolve never stops the validating pass. */
  lemma EntryPasses(site: Site, taxonomies: seq<string>, e: (string, Value))
    requires Listed(e.0, taxonomies)
    requires forall i :: 0 <= i < |Items(e.1)| ==> TermAt(site, IntVal(Items(e.1)[i]), e.0).TermFound?
    ensures EntryFault(site, taxonomies, e) == None
  {
    IdsFaultFirst(site, e.0, Items(e.1));
  }

  // ---------------------------------------------------------------------------
  // The two passes as the handlers run them

  /** The inner `foreach` of the validating pass: each ID of one taxonomy in turn. */
  method ValidateIds(site: Site, taxonomy: string, ids: seq<Value>) returns (fault: Option<Fault>)
    ensures fault == IdsFault(site, taxonomy, ids)
  {
    var j := 0;
    while j < |ids|
      invariant 0 <= j <= |ids|
      invariant IdsFault(site, taxonomy, ids) == IdsFault(site, taxonomy, ids[j..])
    {
      assert ids[j..][1..] == ids[j + 1..];
      match TermAt(site, IntVal(ids[j]), taxonomy)
      case TermError(message) =>
        return Some(Fault(500, message));
      case TermMissing =>
        return Some(Fault(401, "Invalid term ID"));
      case TermFound(_) =>
      j := j + 1;
    }
    return None;
  }

  /** The validating pass, which stops at the first error. */
  method Validate(site: Site, taxonomies: seq<string>, terms: TermsArg) returns (fault: Option<Fault>)
    ensures fault == TermsFault(site, taxonomies, terms)
  {
    var i := 0;
    while i < |terms|
      invariant 0 <= i <= |terms|
      invariant TermsFault(site, taxonomies, terms) == TermsFault(site, taxonomies, terms[i..])
    {
      var (taxonomy, value) := terms[i];
      assert terms[i..][1..] == terms[i + 1..];
      if !Listed(taxonomy, taxonomies) {
        return Some(Fault(401, UnlistedTaxonomy));
      }
      fault := ValidateIds(site, taxonomy, Items(value));
      if fault.Some? {
        return fault;
      }
      i := i + 1;
    }
    return None;
  }

  /** The applying pass. */
  method Apply(store: Store, post: int, terms: TermsArg, append: Value)
    modifies store
    ensures store.log == old(store.log) + Assignments(post, terms, append)
  {
    for k := 0 to |terms|
      invariant store.log == old(store.log) + Assignments(post, terms, append)[..k]
    {
      store.Record(SetObjectTerms(post, AppliedIds(terms[k].1), terms[k].0, append));
      assert Assignments(post, terms, append)[..k + 1] ==
        Assignments(post, terms, append)[..k] + [Assignments(post, terms, append)[k]];
    }
    assert Assignments(post, terms, append)[..|terms|] == Assignments(post, terms, append);
  }

  method Reconcile(store: Store, site: Site, taxonomies: seq<string>, post: int, terms: TermsArg, append: Value)
    returns (response: Response)
    modifies store
    ensures response == ReconcileOutcome(site, taxonomies, post, terms, append).response
    ensures store.log == old(store.log) + ReconcileOutcome(site, taxonomies, post, terms, append).calls
  {
    var fault := Validate(site, taxonomies, terms);
    if fault.Some? {
      return Fail(fault.value);
    }
    Apply(store, post, terms, append);
    return Ok(VBool(true));
  }

  // ---------------------------------------------------------------------------
  // wp.setPostTerms

  /**
   * wp.setPostTerms: the post must exist, the actor must hold the type's
   * edit_post capability on it, and then the terms are reconciled against the
   * stored post type's taxonomies, appending when the last argument is truthy.
   */
  function SetPostTermsOutcome(site: Site, actor: Actor, postArg: Value, terms: TermsArg, appendArg: Value): Outcome {
    var id := IntVal(postArg);
    match PostAt(site, id)
    case None => Outcome(Fail(Fault(404, "Invalid post ID.")), [])
    case Some(p) =>
      var t := TypeOf(site, VStr(p.postType));
      if t.None? || !CanOn(actor, t.value.cap.editPost, id) then
        Outcome(Fail(Fault(401, "Sorry, You are not allowed to edit this post.")), [])
      else ReconcileOutcome(site, TaxonomiesOf(site, VStr(p.postType)), id, terms, VBool(Truthy(appendArg)))
  }

  method SetPostTerms(store: Store, site: Site, actor: Actor, postArg: Value, contentArg: Value, terms: TermsArg,
                      appendArg: Value)
    returns (response: Response)
    requires EntriesOf(contentArg, terms)
    modifies store
    ensures response == SetPostTermsOutcome(site, actor, postArg, terms, appendArg).response
    ensures store.log == old(store.log) + SetPostTermsOutcome(site, actor, postArg, terms, appendArg).calls
  {
    var id := IntVal(postArg);
    var append := VBool(Truthy(appendArg));
    var post := PostAt(site, id);
    if post.None? {
      return Fail(Fault(404, "Invalid post ID."));
    }
    var t := TypeOf(site, VStr(post.value.postType));
    if t.None? || !CanOn(actor, t.value.cap.editPost, id) {
      return Fail(Fault(401, "Sorry, You are not allowed to edit this post."));
    }
    response := Reconcile(store, site, TaxonomiesOf(site, VStr(post.value.postType)), id, terms, append);
  }

  /** wp.setPostTerms makes no call unless the post exists, the actor may edit it, and every entry validates. */
  lemma SetPostTermsGuarded(site: Site, actor: Actor, postArg: Value, terms: TermsArg, appendArg: Value)
    ensures var o := SetPostTermsOutcome(site, actor, postArg, terms, appendArg);
      o.calls != [] ==>
        PostAt(site, IntVal(postArg)).Some? &&
        CanOn(actor, TypeOf(site, VStr(PostAt(site, IntVal(postArg)).value.postType)).value.cap.editPost, IntVal(postArg))
    ensures var o := SetPostTermsOutcome(site, actor, postArg, terms, appendArg);
      AssignsTerms(o.calls) ==> o.response == Ok(VBool(true))
    ensures var o := SetPostTermsOutcome(site, actor, postArg, terms, appendArg);
      forall i :: 0 <= i < |o.calls| ==>
        o.calls[i].SetObjectTerms? && o.calls[i].post == IntVal(postArg) && o.calls[i].append == VBool(Truthy(appendArg))
  {
    var id := IntVal(postArg);
    if PostAt(site, id).Some? {
      var p := PostAt(site, id).value;
      AllOrNothing(site, TaxonomiesOf(site, VStr(p.postType)), id, terms, VBool(Truthy(appendArg)));
    }
  }

  /**
   * wp.setPostTerms answers 404 for a missing post and 401 when the actor may
   * not edit it, with no call; otherwise it reconciles the entries against the
   * post type's taxonomies: `true` and every assignment exactly when every
   * entry validates.
   */
  lemma SetPostTermsRule(site: Site, actor: Actor, postArg: Value, terms: TermsArg, appendArg: Value)
    ensures var o := SetPostTermsOutcome(site, actor, postArg, terms, appendArg);
      PostAt(site, IntVal(postArg)).None? ==> o == Outcome(Fail(Fault(404, "Invalid post ID.")), [])
    ensures var o := SetPostTermsOutcome(site, actor, postArg, terms, appendArg);
      var id := IntVal(postArg);
      PostAt(site, id).Some? &&
      (TypeOf(site, VStr(PostAt(site, id).value.postType)).None? ||
       !CanOn(actor, TypeOf(site, VStr(PostAt(site, id).value.postType)).value.cap.editPost, id)) ==>
        o == Outcome(Fail(Fault(401, "Sorry, You are not allowed to edit this post.")), [])
    ensures var o := SetPostTermsOutcome(site, actor, postArg, terms, appendArg);
      var id := IntVal(postArg);
      PostAt(site, id).Some? && TypeOf(site, VStr(PostAt(site, id).value.postType)).Some? &&
      CanOn(actor, TypeOf(site, VStr(PostAt(site, id).value.postType)).value.cap.editPost, id) ==>
        var taxonomies := TaxonomiesOf(site, VStr(PostAt(site, id).value.postType));
        && (o.response.Ok? <==> forall i :: 0 <= i < |terms| ==> EntryFault(site, taxonomies, terms[i]).None?)
        && (o.response.Ok? ==>
              o.response.value == VBool(true) && o.calls == Assignments(id, terms, VBool(Truthy(appendArg))))
        && (!o.response.Ok? ==> o.calls == [])
  {
    var id := IntVal(postArg);
    var o := SetPostTermsOutcome(site, actor, postArg, terms, appendArg);
    match PostAt(site, id)
    case None =>
      assert o == Outcome(Fail(Fault(404, "Invalid post ID.")), []);
    case Some(p) =>
      var t := TypeOf(site, VStr(p.postType));
      if t.None? || !CanOn(actor, t.value.cap.editPost, id) {
        assert o == Outcome(Fail(Fault(401, "Sorry, You are not allowed to edit this post.")), []);
      } else {
        var taxonomies := TaxonomiesOf(site, VStr(p.postType));
        var append := VBool(Truthy(appendArg));
        assert o == ReconcileOutcome(site, taxonomies, id, terms, append);
        ReconcileAnswers(site, taxonomies, id, terms, append);
      }
  }

  /** The reconciliation answers `true` with every assignment exactly when every entry validates, and otherwise calls nothing. */
  lemma ReconcileAnswers(site: Site, taxonomies: seq<string>, post: int, terms: TermsArg, append: Value)
    ensures var o := ReconcileOutcome(site, taxonomies, post, terms, append);
      && (o.response.Ok? <==> forall i :: 0 <= i < |terms| ==> EntryFault(site, taxonomies, terms[i]).None?)
      && (o.response.Ok? ==> o.response.value == VBool(true) && o.calls == Assignments(post, terms, append))
      && (!o.response.Ok? ==> o.calls == [])
  {
    AllOrNothing(site, taxonomies, post, terms, append);
  }
}
