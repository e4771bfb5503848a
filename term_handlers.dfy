/**
 * The term handlers: wp.newTerm, wp.editTerm and wp.deleteTerm, which validate
 * a request and then make one write, and wp.getTerm, which answers with the
 * `prepare_term` struct.
 */
module TermHandlers {
  import opened Wrappers
  import opened Php
  import opened World
  import opened Calls
  import opened Projection

  /**
   * What two error paths end in: they call `get_error_message()` on the term
   * `get_term` found, which is no WP_Error, and PHP stops with a fatal error.
   */
  const NoErrorMethod := "Call to undefined method stdClass::get_error_message()"

  const EmptyName := "The term name cannot be empty."
  const NotHierarchical := "This taxonomy is not hierarchical."
  const NewTermFailed := "Sorry, your term could not be created. Something wrong happened."
  const EditTermFailed := "Sorry, editing the term failed."
  const DeleteTermFailed := "Sorry, deleting the term failed."

  /** The taxonomy capability each handler demands. */
  datatype TermCap = Manage | Edit | Delete | Assign

  function CapName(t: Taxonomy, c: TermCap): string {
    match c
    case Manage => t.cap.manageTerms
    case Edit => t.cap.editTerms
    case Delete => t.cap.deleteTerms
    case Assign => t.cap.assignTerms
  }

  function Denied(c: TermCap): string {
    match c
    case Manage => "You are not allowed to create terms in this taxonomy."
    case Edit => "You are not allowed to edit terms in this taxonomy."
    case Delete => "You are not allowed to delete terms in this taxonomy."
    case Assign => "You are not allowed to assign terms in this taxonomy."
  }

  /**
   * The taxonomy a request names must exist (wp.getTerm says 'Invalid taxonomy
   * name.', the others 'Invalid taxonomy.'), and the actor must hold the
   * handler's capability for it. The result is the key the request used, and
   * the taxonomy.
   */
  function TaxonomyStep(site: Site, actor: Actor, v: Value, c: TermCap): Checked<(string, Taxonomy)> {
    match ArrayKey(v)
    case None => Refused(403, if c.Assign? then "Invalid taxonomy name." else "Invalid taxonomy.")
    case Some(key) =>
      if key !in site.taxonomies then Refused(403, if c.Assign? then "Invalid taxonomy name." else "Invalid taxonomy.")
      else if !Can(actor, CapName(site.taxonomies[key], c)) then Refused(401, Denied(c))
      else Success((key, site.taxonomies[key]))
  }

  /** The term a request names must resolve with `get_term`. */
  function TermStep(site: Site, id: int, taxonomy: string): Checked<Term> {
    match TermAt(site, id, taxonomy)
    case TermError(message) => Refused(500, message)
    case TermMissing => Refused(404, "Invalid term ID.")
    case TermFound(t) => Success(t)
  }

  /** `trim($content_struct['name'])`. */
  function TermName(cs: Struct): string {
    TrimValue(Get(cs, "name"))
  }

  /** `empty()` of a string. */
  predicate Blank(s: string) {
    s == "" || s == "0"
  }

  /**
   * A parent is accepted only in a hierarchical taxonomy, and only one that
   * `get_term` finds there. The two handlers answer a failed lookup
   * differently: wp.newTerm with 500 errors, wp.editTerm with a fatal error for
   * a WP_Error and 403 for a missing parent.
   */
  function ParentStep(site: Site, t: Taxonomy, cs: Struct, data: Struct, creating: bool): Checked<Struct> {
    if !IsSet(cs, "parent") then Success(data)
    else if !t.hierarchical then Refused(403, NotHierarchical)
    else
      match TermAt(site, IntVal(Get(cs, "parent")), t.name)
      case TermError(message) => if creating then Refused(500, message) else Failure(Fatal(NoErrorMethod))
      case TermMissing => if creating then Refused(500, "Parent term does not exist.") else Refused(403, "Invalid parent term ID.")
      case TermFound(_) => Success(data["parent" := Get(cs, "parent")])
  }

  /** The answer to a term write: the new term's ID, the WP_Error's message, or `failed` for a falsy answer. */
  function TermWritten(reply: WriteReply, failed: string): (r: Response)
    ensures r.Ok? <==> reply.Written? && reply.id != 0
    ensures r.Ok? ==> r.value == VInt(reply.id)
  {
    match reply
    case WriteError(message) => Fail(Fault(500, message))
    case Written(id) => if id == 0 then Fail(Fault(500, failed)) else Ok(VInt(id))
  }

  /** A validated write: nothing on a refusal, else the one call and its answer. */
  function WriteOutcome(r: Checked<StoreCall>, answer: Response): Outcome {
    match r
    case Failure(e) => Outcome(e, [])
    case Success(call) => Outcome(answer, [call])
  }

  // ---------------------------------------------------------------------------
  // wp.newTerm

  /** The `wp_insert_term` call of wp.newTerm, or the first guard's error. */
  function NewTermCall(site: Site, actor: Actor, cs: Struct): Checked<StoreCall> {
    var found :- TaxonomyStep(site, actor, Get(cs, "taxonomy"), Manage);
    var name := TermName(cs);
    if Blank(name) then Refused(403, EmptyName)
    else
      var data :- ParentStep(site, found.1, cs, map["name" := VStr(name)], true);
      Success(InsertTerm(name, found.1.name, WithDefaults(data, cs)))
  }

  /** A new term's description and slug: the request's, or "" when it sets none. */
  function WithDefaults(data: Struct, cs: Struct): Struct {
    var described := data["description" := if IsSet(cs, "description") then Get(cs, "description") else VStr("")];
    described["slug" := if IsSet(cs, "slug") then Get(cs, "slug") else VStr("")]
  }

  function NewTermOutcome(site: Site, actor: Actor, cs: Struct, replies: Replies): Outcome {
    WriteOutcome(NewTermCall(site, actor, cs), TermWritten(replies.insertTerm, NewTermFailed))
  }

  method CheckTaxonomy(site: Site, actor: Actor, v: Value, c: TermCap) returns (r: Checked<(string, Taxonomy)>)
    ensures r == TaxonomyStep(site, actor, v, c)
  {
    var key := ArrayKey(v);
    if key.None? || key.value !in site.taxonomies {
      return Refused(403, if c.Assign? then "Invalid taxonomy name." else "Invalid taxonomy.");
    }
    var t := site.taxonomies[key.value];
    if !Can(actor, CapName(t, c)) {
      return Refused(401, Denied(c));
    }
    return Success((key.value, t));
  }

  method CheckTerm(site: Site, id: int, taxonomy: string) returns (r: Checked<Term>)
    ensures r == TermStep(site, id, taxonomy)
  {
    var term := TermAt(site, id, taxonomy);
    if term.TermError? {
      return Refused(500, term.message);
    }
    if term.TermMissing? {
      return Refused(404, "Invalid term ID.");
    }
    return Success(term.term);
  }

  method CheckParent(site: Site, t: Taxonomy, cs: Struct, data: Struct, creating: bool) returns (r: Checked<Struct>)
    ensures r == ParentStep(site, t, cs, data, creating)
  {
    if !IsSet(cs, "parent") {
      return Success(data);
    }
    if !t.hierarchical {
      return Refused(403, NotHierarchical);
    }
    var parent := TermAt(site, IntVal(Get(cs, "parent")), t.name);
    if parent.TermError? {
      if creating {
        return Refused(500, parent.message);
      }
      return Failure(Fatal(NoErrorMethod));
    }
    if parent.TermMissing? {
      if creating {
        return Refused(500, "Parent term does not exist.");
      }
      return Refused(403, "Invalid parent term ID.");
    }
    return Success(data["parent" := Get(cs, "parent")]);
  }

  /** The guards of wp.newTerm, growing `$term_data` as the handler does. */
  method BuildNewTerm(site: Site, actor: Actor, cs: Struct) returns (r: Checked<StoreCall>)
    ensures r == NewTermCall(site, actor, cs)
  {
    var found :- CheckTaxonomy(site, actor, Get(cs, "taxonomy"), Manage);
    var data: Struct := map[];
    data := data["name" := VStr(TermName(cs))];
    if Blank(TermName(cs)) {
      return Refused(403, EmptyName);
    }
    data :- CheckParent(site, found.1, cs, data, true);
    var description := VStr("");
    if IsSet(cs, "description") {
      description := Get(cs, "description");
    }
    data := data["description" := description];
    var slug := VStr("");
    if IsSet(cs, "slug") {
      slug := Get(cs, "slug");
    }
    data := data["slug" := slug];
    return Success(InsertTerm(TermName(cs), found.1.name, data));
  }

  /** wp.newTerm. */
  method CreateTerm(store: Store, site: Site, actor: Actor, cs: Struct) returns (response: Response)
    modifies store
    ensures response == NewTermOutcome(site, actor, cs, store.replies).response
    ensures store.log == old(store.log) + NewTermOutcome(site, actor, cs, store.replies).calls
  {
    var call := BuildNewTerm(site, actor, cs);
    if call.Failure? {
      return call.error;
    }
    store.Record(call.value);
    response := TermWritten(store.replies.insertTerm, NewTermFailed);
  }

  // ---------------------------------------------------------------------------
  // wp.editTerm

  /** The name, when the request sets one: trimmed and not empty. */
  function RenameStep(cs: Struct): Checked<Struct> {
    if !IsSet(cs, "name") then Success(map[])
    else if Blank(TermName(cs)) then Refused(403, EmptyName)
    else Success(map["name" := VStr(TermName(cs))])
  }

  /** The `wp_update_term` call of wp.editTerm, or the first guard's error. */
  function EditTermCall(site: Site, actor: Actor, termArg: Value, cs: Struct): Checked<StoreCall> {
    var found :- TaxonomyStep(site, actor, Get(cs, "taxonomy"), Edit);
    var _ :- TermStep(site, IntVal(termArg), found.0);
    var named :- RenameStep(cs);
    var data :- ParentStep(site, found.1, cs, named, false);
    Success(UpdateTerm(IntVal(termArg), found.1.name,
      CopyIf(CopyIf(data, cs, "description", "description", "description"), cs, "slug", "slug", "slug")))
  }

  function EditTermOutcome(site: Site, actor: Actor, termArg: Value, cs: Struct, replies: Replies): Outcome {
    WriteOutcome(EditTermCall(site, actor, termArg, cs), TermWritten(replies.updateTerm, EditTermFailed))
  }

  method CheckRename(cs: Struct) returns (r: Checked<Struct>)
    ensures r == RenameStep(cs)
  {
    var data: Struct := map[];
    if IsSet(cs, "name") {
      data := data["name" := VStr(TermName(cs))];
      if Blank(TermName(cs)) {
        return Refused(403, EmptyName);
      }
    }
    return Success(data);
  }

  /** The guards of wp.editTerm, growing `$term_data` as the handler does. */
  method BuildEditTerm(site: Site, actor: Actor, termArg: Value, cs: Struct) returns (r: Checked<StoreCall>)
    ensures r == EditTermCall(site, actor, termArg, cs)
  {
    var found :- CheckTaxonomy(site, actor, Get(cs, "taxonomy"), Edit);
    var _ :- CheckTerm(site, IntVal(termArg), found.0);
    var data :- CheckRename(cs);
    data :- CheckParent(site, found.1, cs, data, false);
    if IsSet(cs, "description") {
      data := data["description" := Get(cs, "description")];
    }
    if IsSet(cs, "slug") {
      data := data["slug" := Get(cs, "slug")];
    }
    return Success(UpdateTerm(IntVal(termArg), found.1.name, data));
  }

  /** wp.editTerm. */
  method EditTerm(store: Store, site: Site, actor: Actor, termArg: Value, cs: Struct) returns (response: Response)
    modifies store
    ensures response == EditTermOutcome(site, actor, termArg, cs, store.replies).response
    ensures store.log == old(store.log) + EditTermOutcome(site, actor, termArg, cs, store.replies).calls
  {
    var call := BuildEditTerm(site, actor, termArg, cs);
    if call.Failure? {
      return call.error;
    }
    store.Record(call.value);
    response := TermWritten(store.replies.updateTerm, EditTermFailed);
  }

  // ---------------------------------------------------------------------------
  // wp.deleteTerm and wp.getTerm

  /** The `wp_delete_term` call of wp.deleteTerm, or the first guard's error. */
  function DeleteTermCall(site: Site, actor: Actor, termArg: Value, taxonomyArg: Value): Checked<StoreCall> {
    var found :- TaxonomyStep(site, actor, taxonomyArg, Delete);
    var _ :- TermStep(site, IntVal(termArg), found.0);
    Success(DeleteTerm(IntVal(termArg), found.0))
  }

  /**
   * The answer to `wp_delete_term`: true, a 500 error for false, and for a
   * WP_Error the fatal error of asking the found term for its message.
   */
  function TermRemoved(reply: TermDeleteReply): (r: Response)
    ensures r.Ok? <==> reply.TermDeleted?
  {
    match reply
    case TermDeleted => Ok(VBool(true))
    case TermNotDeleted => Fail(Fault(500, DeleteTermFailed))
    case TermDeleteError(_) => Fatal(NoErrorMethod)
  }

  function DeleteTermOutcome(site: Site, actor: Actor, termArg: Value, taxonomyArg: Value, replies: Replies): Outcome {
    WriteOutcome(DeleteTermCall(site, actor, termArg, taxonomyArg), TermRemoved(replies.deleteTerm))
  }

  /** The guards of wp.deleteTerm. */
  method BuildDeleteTerm(site: Site, actor: Actor, termArg: Value, taxonomyArg: Value) returns (r: Checked<StoreCall>)
    ensures r == DeleteTermCall(site, actor, termArg, taxonomyArg)
  {
    var found :- CheckTaxonomy(site, actor, taxonomyArg, Delete);
    var _ :- CheckTerm(site, IntVal(termArg), found.0);
    return Success(DeleteTerm(IntVal(termArg), found.0));
  }

  /** wp.deleteTerm. */
  method RemoveTerm(store: Store, site: Site, actor: Actor, termArg: Value, taxonomyArg: Value) returns (response: Response)
    modifies store
    ensures response == DeleteTermOutcome(site, actor, termArg, taxonomyArg, store.replies).response
    ensures store.log == old(store.log) + DeleteTermOutcome(site, actor, termArg, taxonomyArg, store.replies).calls
  {
    var call := BuildDeleteTerm(site, actor, termArg, taxonomyArg);
    if call.Failure? {
      return call.error;
    }
    store.Record(call.value);
    response := TermRemoved(store.replies.deleteTerm);
  }

  /** wp.getTerm: the taxonomy, the assign capability, then the term's `prepare_term` struct. */
  function GetTermOutcome(site: Site, actor: Actor, taxonomyArg: Value, termArg: Value): Response {
    match TaxonomyStep(site, actor, taxonomyArg, Assign)
    case Failure(e) => e
    case Success(found) =>
      match TermStep(site, IntVal(termArg), found.0)
      case Failure(e) => e
      case Success(t) => Ok(VStruct(PrepareTerm(t)))
  }

  /** wp.getTerm. */
  method GetTerm(site: Site, actor: Actor, taxonomyArg: Value, termArg: Value) returns (response: Response)
    ensures response == GetTermOutcome(site, actor, taxonomyArg, termArg)
  {
    var found := CheckTaxonomy(site, actor, taxonomyArg, Assign);
    if found.Failure? {
      return found.error;
    }
    var term := CheckTerm(site, IntVal(termArg), found.value.0);
    if term.Failure? {
      return term.error;
    }
    return Ok(VStruct(PrepareTerm(term.value)));
  }

  // ---------------------------------------------------------------------------
  // Properties

  /** A validated write makes exactly its one call; a refusal makes none and is no answer. */
  lemma WriteOnce(r: Checked<StoreCall>, answer: Response)
    ensures var o := WriteOutcome(r, answer);
      (r.Failure? && o.calls == [] && !o.response.Ok?) || (r.Success? && o.calls == [r.value] && o.response == answer)
  {
  }

  /** What the taxonomy guard lets through: an existing taxonomy whose capability the actor holds. */
  lemma TaxonomyStepRule(site: Site, actor: Actor, v: Value, c: TermCap)
    ensures TaxonomyStep(site, actor, v, c).Success? <==>
      TaxonomyOf(site, v).Some? && Can(actor, CapName(TaxonomyOf(site, v).value, c))
    ensures TaxonomyStep(site, actor, v, c).Success? ==>
      TaxonomyStep(site, actor, v, c).value == (ArrayKey(v).value, TaxonomyOf(site, v).value)
  {
  }

  /** What the parent guard lets through: an unset parent, or one `get_term` finds in a hierarchical taxonomy. */
  lemma ParentStepRule(site: Site, t: Taxonomy, cs: Struct, data: Struct, creating: bool)
    requires ParentStep(site, t, cs, data, creating).Success?
    ensures var r := ParentStep(site, t, cs, data, creating).value;
      (!IsSet(cs, "parent") ==> r == data) &&
      (IsSet(cs, "parent") ==>
        t.hierarchical && TermAt(site, IntVal(Get(cs, "parent")), t.name).TermFound? &&
        r == data["parent" := Get(cs, "parent")])
  {
  }

  /** wp.newTerm writes only with the taxonomy's manage capability. */
  lemma NewTermNeedsCapability(site: Site, actor: Actor, cs: Struct)
    requires NewTermCall(site, actor, cs).Success?
    ensures TaxonomyOf(site, Get(cs, "taxonomy")).Some?
    ensures Can(actor, TaxonomyOf(site, Get(cs, "taxonomy")).value.cap.manageTerms)
  {
    TaxonomyStepRule(site, actor, Get(cs, "taxonomy"), Manage);
  }

  /** wp.editTerm writes only with the taxonomy's edit capability, to a term `get_term` finds. */
  lemma EditTermNeedsCapability(site: Site, actor: Actor, termArg: Value, cs: Struct)
    requires EditTermCall(site, actor, termArg, cs).Success?
    ensures TaxonomyOf(site, Get(cs, "taxonomy")).Some?
    ensures Can(actor, TaxonomyOf(site, Get(cs, "taxonomy")).value.cap.editTerms)
    ensures TermAt(site, IntVal(termArg), ArrayKey(Get(cs, "taxonomy")).value).TermFound?
  {
    TaxonomyStepRule(site, actor, Get(cs, "taxonomy"), Edit);
    var found := TaxonomyStep(site, actor, Get(cs, "taxonomy"), Edit).value;
    assert TermStep(site, IntVal(termArg), found.0).Success?;
  }

  /** wp.deleteTerm deletes only with the taxonomy's delete capability, a term `get_term` finds. */
  lemma DeleteTermNeedsCapability(site: Site, actor: Actor, termArg: Value, taxonomyArg: Value)
    requires DeleteTermCall(site, actor, termArg, taxonomyArg).Success?
    ensures TaxonomyOf(site, taxonomyArg).Some?
    ensures Can(actor, TaxonomyOf(site, taxonomyArg).value.cap.deleteTerms)
    ensures TermAt(site, IntVal(termArg), ArrayKey(taxonomyArg).value).TermFound?
    ensures DeleteTermCall(site, actor, termArg, taxonomyArg).value == DeleteTerm(IntVal(termArg), ArrayKey(taxonomyArg).value)
  {
    TaxonomyStepRule(site, actor, taxonomyArg, Delete);
    var found := TaxonomyStep(site, actor, taxonomyArg, Delete).value;
    assert TermStep(site, IntVal(termArg), found.0).Success?;
  }

  /** The parent guard keeps every key already gathered other than the parent. */
  lemma ParentStepKeeps(site: Site, t: Taxonomy, cs: Struct, data: Struct, creating: bool, k: string)
    requires ParentStep(site, t, cs, data, creating).Success?
    requires k != "parent"
    ensures var r := ParentStep(site, t, cs, data, creating).value;
      (k in r <==> k in data) && (k in data ==> r[k] == data[k])
  {
    ParentStepRule(site, t, cs, data, creating);
  }

  /** A successful wp.newTerm inserts the trimmed name, with the parent guard's data and the defaults. */
  lemma NewTermShape(site: Site, actor: Actor, cs: Struct)
    requires NewTermCall(site, actor, cs).Success?
    ensures var t := TaxonomyStep(site, actor, Get(cs, "taxonomy"), Manage).value.1;
      var named: Struct := map["name" := VStr(TermName(cs))];
      && TaxonomyStep(site, actor, Get(cs, "taxonomy"), Manage).Success?
      && !Blank(TermName(cs))
      && ParentStep(site, t, cs, named, true).Success?
      && NewTermCall(site, actor, cs).value ==
           InsertTerm(TermName(cs), t.name, WithDefaults(ParentStep(site, t, cs, named, true).value, cs))
  {
  }

  /** A new term is inserted under the request's name trimmed, neither empty nor "0". */
  lemma NewTermName(site: Site, actor: Actor, cs: Struct)
    requires NewTermCall(site, actor, cs).Success?
    ensures var call := NewTermCall(site, actor, cs).value;
      call.InsertTerm? && call.name == TermName(cs) && !Blank(call.name) && Trim(call.name) == call.name &&
      "name" in call.termData && call.termData["name"] == VStr(call.name)
  {
    NewTermShape(site, actor, cs);
    var t := TaxonomyStep(site, actor, Get(cs, "taxonomy"), Manage).value.1;
    var named: Struct := map["name" := VStr(TermName(cs))];
    var data := ParentStep(site, t, cs, named, true).value;
    ParentStepKeeps(site, t, cs, named, true, "name");
    DefaultsKeep(data, cs, "name");
  }

  /** The defaulted description and slug keep every other key. */
  lemma DefaultsKeep(data: Struct, cs: Struct, k: string)
    requires k != "description" && k != "slug"
    ensures (k in WithDefaults(data, cs) <==> k in data) && (k in data ==> WithDefaults(data, cs)[k] == data[k])
  {
  }

  /**
   * A new term has a parent exactly when the request sets one, and then the
   * taxonomy is hierarchical and `get_term` finds the parent there.
   */
  lemma NewTermParent(site: Site, actor: Actor, cs: Struct)
    requires NewTermCall(site, actor, cs).Success?
    ensures var call := NewTermCall(site, actor, cs).value;
      var t := TaxonomyOf(site, Get(cs, "taxonomy")).value;
      call.InsertTerm? && call.taxonomy == t.name &&
      ("parent" in call.termData <==> IsSet(cs, "parent")) &&
      (IsSet(cs, "parent") ==>
        t.hierarchical && TermAt(site, IntVal(Get(cs, "parent")), t.name).TermFound? &&
        call.termData["parent"] == Get(cs, "parent"))
  {
    NewTermShape(site, actor, cs);
    var found := TaxonomyStep(site, actor, Get(cs, "taxonomy"), Manage).value;
    assert found.1 == TaxonomyOf(site, Get(cs, "taxonomy")).value by {
      TaxonomyStepRule(site, actor, Get(cs, "taxonomy"), Manage);
    }
    var named: Struct := map["name" := VStr(TermName(cs))];
    var data := ParentStep(site, found.1, cs, named, true).value;
    assert ("parent" in data <==> IsSet(cs, "parent")) &&
      (IsSet(cs, "parent") ==>
        found.1.hierarchical && TermAt(site, IntVal(Get(cs, "parent")), found.1.name).TermFound? &&
        data["parent"] == Get(cs, "parent")) by {
      ParentStepRule(site, found.1, cs, named, true);
    }
    DefaultsKeep(data, cs, "parent");
  }

  /** Once the taxonomy passes, wp.newTerm refuses a name that trims to nothing or to "0". */
  lemma NewTermBlankRefused(site: Site, actor: Actor, cs: Struct)
    requires TaxonomyStep(site, actor, Get(cs, "taxonomy"), Manage).Success?
    requires Blank(TermName(cs))
    ensures NewTermCall(site, actor, cs) == Refused(403, EmptyName)
  {
  }

  /** A name sent as an array or a struct trims to null, which reads as "", so wp.newTerm refuses it. */
  lemma NewTermArrayNameRefused(site: Site, actor: Actor, cs: Struct)
    requires TaxonomyStep(site, actor, Get(cs, "taxonomy"), Manage).Success?
    requires Get(cs, "name").VList? || Get(cs, "name").VStruct?
    ensures TermName(cs) == ""
    ensures NewTermCall(site, actor, cs) == Refused(403, EmptyName)
  {
  }

  /** Copying the description and slug keeps every other key. */
  lemma DescribedKeeps(data: Struct, cs: Struct, k: string)
    requires k != "description" && k != "slug"
    ensures var r := CopyIf(CopyIf(data, cs, "description", "description", "description"), cs, "slug", "slug", "slug");
      (k in r <==> k in data) && (k in data ==> r[k] == data[k])
  {
  }

  /** A rename is sent only when the request sets a name, trimmed and neither empty nor "0". */
  lemma RenameRule(cs: Struct)
    requires RenameStep(cs).Success?
    ensures var named := RenameStep(cs).value;
      "parent" !in named && ("name" in named <==> IsSet(cs, "name")) &&
      (IsSet(cs, "name") ==>
        !Blank(TermName(cs)) && Trim(TermName(cs)) == TermName(cs) && named["name"] == VStr(TermName(cs)))
  {
  }

  /** An edit sends a name only when the request sets one, trimmed and neither empty nor "0". */
  lemma EditTermName(site: Site, actor: Actor, termArg: Value, cs: Struct)
    requires EditTermCall(site, actor, termArg, cs).Success?
    ensures var call := EditTermCall(site, actor, termArg, cs).value;
      call.UpdateTerm? && ("name" in call.termData <==> IsSet(cs, "name")) &&
      (IsSet(cs, "name") ==>
        !Blank(TermName(cs)) && Trim(TermName(cs)) == TermName(cs) && call.termData["name"] == VStr(TermName(cs)))
  {
    var found := TaxonomyStep(site, actor, Get(cs, "taxonomy"), Edit).value;
    var named := RenameStep(cs).value;
    var data := ParentStep(site, found.1, cs, named, false).value;
    var sent := CopyIf(CopyIf(data, cs, "description", "description", "description"), cs, "slug", "slug", "slug");
    assert EditTermCall(site, actor, termArg, cs).value == UpdateTerm(IntVal(termArg), found.1.name, sent) by {
      assert TermStep(site, IntVal(termArg), found.0).Success?;
    }
    assert ("name" in sent <==> "name" in named) && ("name" in named ==> sent["name"] == named["name"]) by {
      ParentStepKeeps(site, found.1, cs, named, false, "name");
      DescribedKeeps(data, cs, "name");
    }
    RenameRule(cs);
  }

  /**
   * An edit updates the named term in its taxonomy, and sends a parent exactly
   * when the request sets one; then the taxonomy is hierarchical and
   * `get_term` finds the parent there.
   */
  lemma EditTermParent(site: Site, actor: Actor, termArg: Value, cs: Struct)
    requires EditTermCall(site, actor, termArg, cs).Success?
    ensures var call := EditTermCall(site, actor, termArg, cs).value;
      var t := TaxonomyOf(site, Get(cs, "taxonomy")).value;
      call.UpdateTerm? && call.term == IntVal(termArg) && call.taxonomy == t.name &&
      ("parent" in call.termData <==> IsSet(cs, "parent")) &&
      (IsSet(cs, "parent") ==>
        t.hierarchical && TermAt(site, IntVal(Get(cs, "parent")), t.name).TermFound? &&
        call.termData["parent"] == Get(cs, "parent"))
  {
    var found := TaxonomyStep(site, actor, Get(cs, "taxonomy"), Edit).value;
    assert found.1 == TaxonomyOf(site, Get(cs, "taxonomy")).value by {
      TaxonomyStepRule(site, actor, Get(cs, "taxonomy"), Edit);
    }
    var named := RenameStep(cs).value;
    var data := ParentStep(site, found.1, cs, named, false).value;
    var sent := CopyIf(CopyIf(data, cs, "description", "description", "description"), cs, "slug", "slug", "slug");
    assert EditTermCall(site, actor, termArg, cs).value == UpdateTerm(IntVal(termArg), found.1.name, sent) by {
      assert TermStep(site, IntVal(termArg), found.0).Success?;
    }
    assert ("parent" in data <==> IsSet(cs, "parent")) &&
      (IsSet(cs, "parent") ==>
        found.1.hierarchical && TermAt(site, IntVal(Get(cs, "parent")), found.1.name).TermFound? &&
        data["parent"] == Get(cs, "parent")) by {
      RenameRule(cs);
      ParentStepRule(site, found.1, cs, named, false);
    }
    DescribedKeeps(data, cs, "parent");
  }

  /**
   * As written, wp.editTerm meets a WP_Error from the parent lookup by asking
   * the found term, not the error, for its message: a fatal error, with no
   * update sent.
   */
  lemma EditTermParentErrorIsFatal(site: Site, actor: Actor, termArg: Value, cs: Struct, replies: Replies)
    requires TaxonomyStep(site, actor, Get(cs, "taxonomy"), Edit).Success?
    requires TermAt(site, IntVal(termArg), ArrayKey(Get(cs, "taxonomy")).value).TermFound?
    requires RenameStep(cs).Success? && IsSet(cs, "parent")
    requires var t := TaxonomyOf(site, Get(cs, "taxonomy")).value;
      t.hierarchical && TermAt(site, IntVal(Get(cs, "parent")), t.name).TermError?
    ensures EditTermOutcome(site, actor, termArg, cs, replies) == Outcome(Fatal(NoErrorMethod), [])
  {
  }

  /**
   * As written, wp.deleteTerm meets a WP_Error from `wp_delete_term` the same
   * way: after the deletion was sent, the request ends in a fatal error.
   */
  lemma DeleteErrorIsFatal(site: Site, actor: Actor, termArg: Value, taxonomyArg: Value, replies: Replies)
    requires DeleteTermCall(site, actor, termArg, taxonomyArg).Success? && replies.deleteTerm.TermDeleteError?
    ensures DeleteTermOutcome(site, actor, termArg, taxonomyArg, replies) ==
      Outcome(Fatal(NoErrorMethod), [DeleteTerm(IntVal(termArg), ArrayKey(taxonomyArg).value)])
  {
  }

  /** wp.getTerm answers only for an existing term of a taxonomy the actor may assign, with its properties. */
  lemma GetTermRule(site: Site, actor: Actor, taxonomyArg: Value, termArg: Value)
    ensures GetTermOutcome(site, actor, taxonomyArg, termArg).Ok? <==>
      var t := TaxonomyOf(site, taxonomyArg);
      t.Some? && Can(actor, t.value.cap.assignTerms) &&
      TermAt(site, IntVal(termArg), ArrayKey(taxonomyArg).value).TermFound?
    ensures GetTermOutcome(site, actor, taxonomyArg, termArg).Ok? ==>
      GetTermOutcome(site, actor, taxonomyArg, termArg).value ==
        VStruct(TermAt(site, IntVal(termArg), ArrayKey(taxonomyArg).value).term.properties)
  {
  }
}
