# wp-xmlrpc-modernization, modelled in Dafny

The WordPress plugin wp-xmlrpc-modernization replaces WordPress's XML-RPC
server class with `wp_xmlrpc_server_ext`. That class publishes 21 more
methods: users, posts, terms and taxonomies, each with a richer struct
format. This project models:

- the request validation of the write handlers;
- the response projections (`prepare_post`, `prepare_user`,
  `prepare_taxonomy`, `prepare_term`, `prepare_post_type`);
- the two-pass term reconciler;
- the batch deletes;
- the query building of `wp.getPosts` and `wp.getUsers`;
- the two filters that install the plugin.

Every WordPress function a handler calls becomes part of the world the handler reads:

- a site snapshot: posts, post types and what they support, taxonomies,
  terms, users, roles, page templates, and the library predicates such as
  `is_email` as fields;
- an actor with its capability grants;
- a call log. A `Store` object records each insert, update, delete and
  assign call in order, and answers each from a fixed table of replies
  (see "## Left out" for what that table does not capture).

With the world abstract, each handler is a chain of early-return guards; each guard either passes the data it has built or stops the request with an `IXR_Error` code and message. Each handler has two parts:

- a function that computes its whole effect, as an `Outcome` (the response
  plus the calls it sends);
- an imperative method that grows `$post_data`, `$user_data` or
  `$term_data` and records its calls on the `Store`, proved to follow that
  function.

The lemmas state what each handler promises:

- the error order;
- that no call is sent before validation finishes;
- which keys a reply carries;
- that a post write comes before the sticky, custom field and term checks
  that can still refuse it.

The plugin's defects are modelled as written:

- **Undefined variables.** `$append`, `$to_ping`, `$post_id` and `$tags` read as null.
- **Author key.** The author column is stored under the key `'post_author '`, with a trailing space.
- **wp.editPost status key.** The requested status is read from the key `_status`.
- **wp.editPost support checks.** They test the request's `post_type`.
- **wp.editPost ping values.** An invalid ping value is ignored.
- **wp.editPost comment message.** Its numeric comment branch reports an invalid value with the ping message.
- **wp.editUser keys.** It reads `url` and `nicename` where the request sets `website` and `usernicename`.
- **Fatal `get_error_message`.** wp.editTerm and wp.deleteTerm call it on the found term instead of on the error, a fatal error (`Fatal(NoErrorMethod)`).

Modules, in dependency order:

- `Wrappers`: `Option`, `Result`.
- `Php`: PHP values and coercions.
  - `isset`, truthiness, `(int)`, `absint`, `is_numeric`.
  - PHP 5 loose `==`, array keys.
  - `trim`, `split`, `implode`, `htmlspecialchars`.
- `World`: the site snapshot and the actor.
- `Calls`: the columns of `$post_data`, the store calls, the `Store` class and outcomes.
- `Projection`: the `prepare_*` functions.
- `PostGuards` and `PostGuardRules`: the validation chain of wp.newPost and wp.editPost, and its properties.
- `PostWrites` and `PostWriteRules`: the write, the sticky/custom field/term/legacy tail, and the two handlers.
- `TermReconciler`: the term reconciler and wp.setPostTerms.
- `BatchDelete`: wp.deletePost and wp.deleteUser.
- `UserHandlers`: wp.newUser, wp.editUser, wp.getUser, wp.getUsers.
- `TermHandlers`: wp.newTerm, wp.editTerm, wp.deleteTerm, wp.getTerm.
- `Queries`: wp.getPost, wp.getPosts.
- `Plugin`: `replace_xmlrpc_server_class` and `xmlrpc_methods`.

## Model

| member | source | states |
|---|---|---|
| Plugin.ReplaceServerClass | wp-xmlrpc-modernization.php:17-23 | The default class name becomes `wp_xmlrpc_server_ext`; any other class name is returned unchanged. |
| Plugin.ReplaceIdempotent | wp-xmlrpc-modernization.php:17-23 | Applying the class filter twice gives the same class as applying it once. |
| Plugin.NamesDistinct | wp-xmlrpc-modernization.php:34-64 | No two of the 21 handlers are published under the same XML-RPC name. |
| Plugin.NamesResolve | wp-xmlrpc-modernization.php:34-64 | Each published name leads back to exactly its handler. |
| Plugin.Register | wp-xmlrpc-modernization.php:34-64 | The table has exactly the old keys plus the names of the registered handlers. |
| Plugin.RegisterMeaning | wp-xmlrpc-modernization.php:34-64 | A registered name maps to its own handler. Every other name keeps its presence and its callback. |
| Plugin.Registered | wp-xmlrpc-modernization.php:34-64 | Every handler is in the registration list. |
| Plugin.AllPublished | wp-xmlrpc-modernization.php:34-64 | After the `xmlrpc_methods` filter, each of the 21 names maps to this server's method, whatever the table held before. |
| Plugin.OthersKept | wp-xmlrpc-modernization.php:34-64 | A name the server does not publish is present after the filter exactly when it was before, with the same callback. |
| Plugin.XmlrpcMethodsIdempotent | wp-xmlrpc-modernization.php:34-64 | Running the method filter twice gives the same table as running it once. |
| Php.Trim | wp-xmlrpc-modernization.php:1972-1974 | `trim` returns a string with no white space at either end, no longer than its input, and leaves an already trimmed string unchanged. |
| Php.TrimIdempotent | wp-xmlrpc-modernization.php:1972-1974 | Trimming twice is trimming once. |
| Php.Split | wp-xmlrpc-modernization.php:229 | `split` on one character gives at least one piece, and no piece contains the separator. |
| Php.JoinSplit | wp-xmlrpc-modernization.php:229 | Joining the pieces of a split with the separator gives back the string. |
| Php.SplitJoin | wp-xmlrpc-modernization.php:229 | Splitting a join of separator-free pieces gives back the pieces. |
| Php.EscapedHasNoMarkup | wp-xmlrpc-modernization.php:230 | The escaped URL contains no `<`, `>` or `"`, and text with none of `&`, `"`, `<`, `>` is left unchanged. |
| Php.TrimValue | wp-xmlrpc-modernization.php:1972 | `trim` of a request value gives a trimmed string; an array or object gives null, read as "". |
| Php.ScanChecked | wp-xmlrpc-modernization.php:884 | A string is numeric exactly when the number scan takes at least one character and all of them. |
| Php.DecimalNumeric | wp-xmlrpc-modernization.php:884 | Digits, a `.` and more digits are accepted by `is_numeric`. |
| Php.DecimalIntVal | wp-xmlrpc-modernization.php:899 | `(int)` of digits, a `.` and more digits is the value of the digits before the `.`. |
| Php.SpaceBeforeNumber | wp-xmlrpc-modernization.php:884-899 | Leading white space changes neither `is_numeric`, the numeric value, nor `(int)`. |
| Php.WordHasNoNumber | wp-xmlrpc-modernization.php:884-899 | A string that starts with a letter or `_` is not numeric, and its `(int)` and numeric value are 0. |
| Php.IntToStringRoundTrip | wp-xmlrpc-modernization.php:1128 | Reading the `strval` of an integer back with `(int)` gives the integer. |
| Php.WordLooseEq | wp-xmlrpc-modernization.php:172 | A loose `==` with a string literal that starts with a letter is string equality. |
| Projection.InArrayMeans | wp-xmlrpc-modernization.php:110-111 | `in_array` on the field argument holds exactly when an element of the list, or a member value of the struct, is loosely equal to the name. A scalar holds nothing. |
| Projection.SelectionFollowsGroups | wp-xmlrpc-modernization.php:110-238 | `postid` is always present. Any other key is present exactly when its group or its own name is requested, and a present key carries its field's value. |
| Projection.DescriptionBringsTextMore | wp-xmlrpc-modernization.php:186-190 | `description` and `mt_text_more` are present together or not at all. |
| Projection.GroupsNeverSelectNamedOnly | wp-xmlrpc-modernization.php:221-238 | A request naming only groups never gets `custom_fields` or `enclosure`. |
| Projection.SelectionMonotone | wp-xmlrpc-modernization.php:110-238 | Requesting more names never removes a key and never changes a key's value. |
| Projection.StatusOut | wp-xmlrpc-modernization.php:131-137 | The reported status is never `future`; any other stored status is reported as is. |
| Projection.StatusRule | wp-xmlrpc-modernization.php:131-137 | In the reply, a stored `future` reads as `publish` and any other status as stored. |
| Projection.FormatOut | wp-xmlrpc-modernization.php:142-147 | The reported format is never empty, and a non-empty `get_post_format` answer is kept. |
| Projection.FormatRule | wp-xmlrpc-modernization.php:142-147 | The reply's `post_format` is truthy, and it equals a non-empty stored format. |
| Projection.StickyOut | wp-xmlrpc-modernization.php:170-178 | The sticky value is null exactly when the type is not loosely `post`; otherwise it is whether the post is sticky. |
| Projection.StickyRule | wp-xmlrpc-modernization.php:170-178 | The same three-state rule holds for the reply's `sticky` key. |
| Projection.KeywordsRule | wp-xmlrpc-modernization.php:198-209 | The reply's `mt_keywords` is the tag names joined with ", ": "" when the post has no tags, and the single name when it has one. |
| Projection.NamesList | wp-xmlrpc-modernization.php:212-219 | The category list has one string per name, in order. |
| Projection.CategoryNames | wp-xmlrpc-modernization.php:212-219 | The category loop builds exactly that list. |
| Projection.CategoriesRule | wp-xmlrpc-modernization.php:212-219 | The reply's `categories` are the post's category names, in order. |
| Projection.EnclosureKeyIsLooseEq | wp-xmlrpc-modernization.php:226 | The meta-key test is exactly PHP's loose `$key == 'enclosure'`, which also matches the integer key 0. |
| Projection.FirstEnclosureIsEarliest | wp-xmlrpc-modernization.php:224-238 | There is no enclosure exactly when no meta entry ends the search. Otherwise the enclosure is the first value of the earliest entry that does. |
| Projection.FindEnclosure | wp-xmlrpc-modernization.php:224-238 | The nested loop with `break 2` finds exactly that first enclosure. |
| Projection.EnclosureEntryKeys | wp-xmlrpc-modernization.php:224-238 | The `enclosure` entry is empty exactly when no enclosure was found; otherwise its keys are exactly `url`, `length` and `type`. |
| Projection.EnclosureRule | wp-xmlrpc-modernization.php:224-238 | The reply's `enclosure` comes from the first enclosure value. |
| Projection.PreparePost | wp-xmlrpc-modernization.php:108-241 | Running the loops only for selected keys gives the declarative projection. |
| Projection.LoopsOnlyFillTheirField | wp-xmlrpc-modernization.php:212-238 | A key other than `categories` and `enclosure` does not depend on the loops' results. |
| Projection.UnselectedLoopsIgnored | wp-xmlrpc-modernization.php:212-238 | The result of a loop whose key is not selected does not affect the reply. |
| Projection.FieldsOrDefault | wp-xmlrpc-modernization.php:1620-1623 | With no `fields` argument the list is `post`, `taxonomies`, `custom_fields`; a given list is used as sent. |
| Projection.DefaultNamesGroups | wp-xmlrpc-modernization.php:1620-1623 | The default list names both groups and `custom_fields`. |
| Projection.DefaultLacksEnclosure | wp-xmlrpc-modernization.php:1620-1623 | The default list does not name `enclosure`. |
| Projection.DefaultsSelectAllButEnclosure | wp-xmlrpc-modernization.php:1620-1623 | Without a field list every key but `enclosure` is in the reply. |
| Projection.CollectContacts | wp-xmlrpc-modernization.php:76-79 | The contacts map has exactly the registered contact keys, each holding the user's value. |
| Projection.PrepareUser | wp-xmlrpc-modernization.php:73-99 | The user struct carries the user's ID, login and email, and one contact entry per registered method. |
| Projection.PrepareTerm | wp-xmlrpc-modernization.php:265-269 | Computes `prepare_term`: the term's properties, unchanged. |
| Projection.PrepareTaxonomy | wp-xmlrpc-modernization.php:249-257 | The taxonomy struct is the properties minus `update_count_callback`, with every other value unchanged. |
| Projection.PreparePostType | wp-xmlrpc-modernization.php:277-283 | The post type struct is the properties plus `taxonomies`, the names of the taxonomies registered for its `name`. Other keys are unchanged. |
| PostGuards.Access | wp-xmlrpc-modernization.php:728-737 | A passing access check builds its context from the request, the mode and the actor unchanged. |
| PostGuards.Status | wp-xmlrpc-modernization.php:742-765 | The status gate stores only a status it lets through, and writes only the status column. |
| PostGuards.Credentials | wp-xmlrpc-modernization.php:767-780 | The password and slug guard writes only those two columns. |
| PostGuards.PageOrder | wp-xmlrpc-modernization.php:782-789 | The page order guard writes only the menu order. |
| PostGuards.Parent | wp-xmlrpc-modernization.php:791-812 | The parent guard writes only the parent. |
| PostGuards.Template | wp-xmlrpc-modernization.php:814-828 | The template guard writes only the template. |
| PostGuards.PageAttributes | wp-xmlrpc-modernization.php:782-828 | The page attribute guards write only the menu order, the parent and the template. |
| PostGuards.Author | wp-xmlrpc-modernization.php:830-849 | The author guard writes only the author column. |
| PostGuards.Supported | wp-xmlrpc-modernization.php:851-873 | A feature-gated copy writes only its own column. |
| PostGuards.Content | wp-xmlrpc-modernization.php:851-873 | The title, content and excerpt guards write only those three columns. |
| PostGuards.CreateOption | wp-xmlrpc-modernization.php:878-964 | A wp.newPost discussion option writes only its own column. |
| PostGuards.UpdateComments | wp-xmlrpc-modernization.php:1298-1331 | The wp.editPost comment option writes only the comment status. |
| PostGuards.UpdatePings | wp-xmlrpc-modernization.php:1335-1369 | The wp.editPost ping option writes only the ping status. |
| PostGuards.Discussion | wp-xmlrpc-modernization.php:878-964 | The discussion guards write only the comment and ping status. |
| PostGuards.Without | wp-xmlrpc-modernization.php:986 | `str_replace` of one character leaves no occurrence of it and adds no character. |
| PostGuards.Extras | wp-xmlrpc-modernization.php:966-997 | The more text, ping URLs and dates write only the more text, the content, the ping URLs and the date source. |
| PostGuards.Back | wp-xmlrpc-modernization.php:830-997 | The guards from the author on leave the status as stored. |
| PostGuards.Validated | wp-xmlrpc-modernization.php:719-998 | A validated request passed the access check, the front of the chain and the back of the chain, in source order. |
| PostGuards.BuildPostData | wp-xmlrpc-modernization.php:719-998 | Growing `$post_data` guard by guard with early returns computes exactly the validation chain. |
| PostGuards.CheckAccess | wp-xmlrpc-modernization.php:728-737 | The imperative access check computes the access guard. |
| PostGuards.CheckStatus | wp-xmlrpc-modernization.php:742-765 | The imperative status switch computes the status gate. |
| PostGuards.CheckCredentials | wp-xmlrpc-modernization.php:767-780 | The imperative password and slug steps compute their guard. |
| PostGuards.CheckPageOrder | wp-xmlrpc-modernization.php:782-789 | The imperative page order step computes its guard. |
| PostGuards.CheckParent | wp-xmlrpc-modernization.php:791-812 | The imperative parent step computes its guard. |
| PostGuards.CheckTemplate | wp-xmlrpc-modernization.php:814-828 | The imperative template step computes its guard. |
| PostGuards.CheckPageAttributes | wp-xmlrpc-modernization.php:782-828 | The three page attribute steps in turn compute their guard. |
| PostGuards.CheckAuthor | wp-xmlrpc-modernization.php:830-849 | The imperative author step computes its guard. |
| PostGuards.CheckContent | wp-xmlrpc-modernization.php:851-873 | The imperative title, content and excerpt steps compute their guard. |
| PostGuards.CheckCreateOption | wp-xmlrpc-modernization.php:878-964 | The imperative switch on one discussion option computes its guard. |
| PostGuards.CheckDiscussion | wp-xmlrpc-modernization.php:878-964 | Both discussion options in turn compute their guard. |
| PostGuards.CheckExtras | wp-xmlrpc-modernization.php:966-997 | The imperative more text, ping URLs and date steps compute their guard. |
| PostGuards.CheckFront | wp-xmlrpc-modernization.php:742-828 | The steps from the status to the page attributes compute the front of the chain. |
| PostGuards.CheckBack | wp-xmlrpc-modernization.php:830-997 | The steps from the author on compute the back of the chain. |
| PostGuardRules.AccessRule | wp-xmlrpc-modernization.php:731-1162 | wp.newPost (731-737) passes exactly when the named type exists and the actor holds its edit_posts; an unknown type is a 403 and a denial a 401. wp.editPost (1156-1162) passes exactly when the post exists, its type is registered and the actor holds edit_posts on that post; a missing post is a 404 and anything else refused a 401. The context carries the type. |
| PostGuardRules.CredentialsRule | wp-xmlrpc-modernization.php:767-780 | A password passes exactly when the actor holds publish_posts, else 401. The password and slug are stored as sent, and wp.newPost clears the slug when none is sent. Nothing else changes. |
| PostGuardRules.SupportedRule | wp-xmlrpc-modernization.php:851-873 | A feature-gated field passes exactly when it is unset or the type supports the feature, else 401 with its message. A sent field is stored as sent. |
| PostGuardRules.ContentRule | wp-xmlrpc-modernization.php:851-1296 | The title, content and excerpt (851-873, and 1272-1296 for wp.editPost, which reads `post_content` instead of `description`) pass exactly when each sent one's feature (`title`, `editor`, `excerpt`) is supported. The title is refused first, then the content. Each sent field is stored as sent, and nothing else changes. |
| PostGuards.StatusFault | wp-xmlrpc-modernization.php:747-765 | Computes the status `switch`'s refusal, comparing loosely. `draft` and `pending` pass. `private` and `publish` need publish_posts, with their own 401 messages. Anything else gives 401, with wp.newPost's message or wp.editPost's (lines 1172-1190). |
| PostGuardRules.StatusPlain | wp-xmlrpc-modernization.php:742-765 | `draft` and `pending` always pass and are stored as requested. |
| PostGuardRules.StatusNeedsPublish | wp-xmlrpc-modernization.php:742-765 | `private` and `publish` pass exactly when the actor holds the type's publish_posts capability, and are refused with 401 otherwise. |
| PostGuardRules.StatusOther | wp-xmlrpc-modernization.php:742-765 | Any other requested string is refused with 401. |
| PostGuardRules.DefaultStatusGate | wp-xmlrpc-modernization.php:742-765 | With no status requested, a truthy publish flag means `publish`, which needs the capability; otherwise the status is `draft`. |
| PostGuardRules.StatusLooseMatches | wp-xmlrpc-modernization.php:742-765 | `true` and the integer 0 match the switch's first case loosely, and are stored unchanged. |
| PostGuardRules.StatusKeys | wp-xmlrpc-modernization.php:1167-1170 | wp.editPost reads the requested status from `_status`, because `$post_data['post_type']` is unset there; wp.newPost reads the key it tested. |
| PostGuardRules.OptionTable | wp-xmlrpc-modernization.php:878-964 | A numeric value whose `(int)` is 0 or 2, `closed`, and `true` close; a numeric value whose `(int)` is 1, and `open`, open; every other value is invalid. Numeric strings follow PHP's `is_numeric`: white space first, a sign, a fraction and an exponent. |
| PostGuardRules.OptionNumeric | wp-xmlrpc-modernization.php:878-964 | A numeric string is read by its `(int)`: 0 and 2 close, 1 opens, anything else is invalid. |
| PostGuardRules.OptionLeadingSpace | wp-xmlrpc-modernization.php:878-964 | White space before a numeric string changes nothing. |
| PostGuardRules.OptionFractions | wp-xmlrpc-modernization.php:878-964 | A fraction is accepted and `(int)` drops it: `1.0` opens and `2.5` closes. |
| PostGuardRules.OptionSpaceFirst | wp-xmlrpc-modernization.php:878-964 | `1.0` after any white space character (` 1.0`, a tab then `1.0`) opens. |
| PostGuardRules.OptionTrailingSpace | wp-xmlrpc-modernization.php:878-964 | `1 ` is not numeric and matches no case, so it is invalid. |
| PostGuardRules.CreateOptionRule | wp-xmlrpc-modernization.php:878-964 | A supporting type without the option gets the site default. With the option it gets the coerced value, or 401 for an invalid one. A type without the feature refuses the option and otherwise leaves the column unset. |
| PostGuardRules.UpdateCommentsRule | wp-xmlrpc-modernization.php:1298-1331 | Without `mt_allow_comments` nothing changes. For a type without comments the answer is 401 `This post type does not support comments.`. Otherwise the option passes exactly when the option table of `PostGuardRules.OptionTable` reads it as `open` or `closed`, and then exactly that status is stored. A refused numeric option gives 401 `Invalid ping option.`, any other 401 `Invalid comment option`. |
| PostGuardRules.UpdateCommentsPingMessage | wp-xmlrpc-modernization.php:1318-1328 | A numeric comment option such as 3 is refused with the ping message `Invalid ping option.`. |
| PostGuardRules.EditIgnoresInvalidPings | wp-xmlrpc-modernization.php:1335-1369 | Once the comments pass, wp.editPost never refuses a ping value. The column keeps its value, or becomes `open` or `closed`. |
| PostGuardRules.PageAttributesRule | wp-xmlrpc-modernization.php:782-1249 | The page attributes pass exactly when every guard's condition holds. A sent menu order is then stored cast by `(int)` on wp.newPost (line 787) and as sent on wp.editPost (line 1210). The parent and template are stored as sent, and no other column changes. |
| PostGuardRules.AuthorOverrideOrder | wp-xmlrpc-modernization.php:830-849 | An override is checked for author support before the edit_others_posts check, each with its own 401. |
| PostGuardRules.AuthorOverrideTarget | wp-xmlrpc-modernization.php:830-849 | Past both checks, the override stores the requested ID when that user exists, and is a 404 otherwise. |
| PostGuardRules.AuthorDefault | wp-xmlrpc-modernization.php:830-849 | Without an override, wp.newPost names the actor and wp.editPost leaves the author alone. |
| PostGuardRules.BackKeepsStatus | wp-xmlrpc-modernization.php:830-997 | The guards after the status leave it as gated. |
| PostGuardRules.FrontStatus | wp-xmlrpc-modernization.php:742-828 | The front of the chain stores exactly the status the gate let through. |
| PostGuardRules.FrontAttributes | wp-xmlrpc-modernization.php:782-828 | The front of the chain passes only allowed page attributes. |
| PostGuardRules.ValidatedStatus | wp-xmlrpc-modernization.php:719-998 | A request that passes the whole chain wrote the requested (or defaulted) status, which the gate allows, and allowed page attributes. |
| PostGuardRules.ExtrasRule | wp-xmlrpc-modernization.php:966-982 | The more text is kept and appended to the content after `<!--more-->`. The ping URLs are stored as sent, because the `implode` tests the undefined `$to_ping`. |
| PostGuardRules.DateSourceRule | wp-xmlrpc-modernization.php:984-997 | The dates come from the GMT creation date with a forced `Z`, then the local one. On create they fall back to the clock, and on update there is no date. A set creation date that is not a date object is fatal. |
| PostWrites.CategoryIds | wp-xmlrpc-modernization.php:1085-1101 | When every category name resolves, there is one nonzero ID per name. |
| PostWrites.Step | wp-xmlrpc-modernization.php:1008-1121 | A refused tail step ends the request with no call of its own. A passing step's calls precede the rest. |
| PostWrites.CollectCategories | wp-xmlrpc-modernization.php:1090-1098 | The category loop stops at the first unknown name and otherwise collects the IDs in order. |
| PostWrites.RunSticky | wp-xmlrpc-modernization.php:1008-1031 | The imperative sticky step records exactly the sticky calls and stops exactly when the sticky rule refuses. |
| PostWrites.RunCustomFields | wp-xmlrpc-modernization.php:1034-1041 | The imperative custom field step follows its rule. |
| PostWrites.RunCategories | wp-xmlrpc-modernization.php:1085-1103 | The imperative category step follows its rule. |
| PostWrites.RunKeywords | wp-xmlrpc-modernization.php:1105-1112 | The imperative keyword step follows its rule. |
| PostWrites.RunFormat | wp-xmlrpc-modernization.php:1114-1121 | The imperative format step follows its rule. |
| PostWrites.RunFinish | wp-xmlrpc-modernization.php:1124-1126 | The enclosure and upload calls are recorded. |
| PostWrites.RunLegacy | wp-xmlrpc-modernization.php:1084-1128 | The legacy branches record their calls and answer as specified. |
| PostWrites.RunTail | wp-xmlrpc-modernization.php:1008-1128 | Everything after the write records the tail's calls and gives its answer. |
| PostWrites.RunWritten | wp-xmlrpc-modernization.php:999-1128 | The write and the tail together record the commit's calls and give its answer. |
| PostWrites.WriteOutcome | wp-xmlrpc-modernization.php:719-1524 | Computes wp.newPost's (lines 719-1129) or wp.editPost's (lines 1144-1524) response and calls. A refusal of the validation chain is answered with no call. Otherwise the post is written first. A failed write is answered with its error, and a successful one goes on to the sticky, custom field and term steps for the written ID. |
| PostWrites.WritePost | wp-xmlrpc-modernization.php:719-1129 | Either handler records exactly the calls of its outcome and answers its response. The `terms` entries it is given are those of `content_struct['terms']` (`PostWrites.TermsOf`): none when it is not set, otherwise each member of a struct once with its value, a list's items under "0", "1", …, and nothing for any other value. |
| PostWrites.NewPost | wp-xmlrpc-modernization.php:719-1129 | wp.newPost is the write chain in create mode, with the `terms` entries read from its content struct. |
| PostWrites.EditPost | wp-xmlrpc-modernization.php:1144-1524 | wp.editPost is the write chain in update mode for the `(int)` of its post argument, with the `terms` entries read from its content struct. |
| PostWriteRules.StepParts | wp-xmlrpc-modernization.php:1008-1121 | A step adds only its own calls, and answers Ok only when it passed and the rest did. |
| PostWriteRules.StepEnds | wp-xmlrpc-modernization.php:1008-1121 | Calls that end the rest of the handler still end the handler after a passed step. |
| PostWriteRules.StickyCalls | wp-xmlrpc-modernization.php:1008-1031 | The sticky step sends only `stick_post` or `unstick_post` for the written post. |
| PostWriteRules.FieldsCalls | wp-xmlrpc-modernization.php:1034-1041 | The custom field step sends only custom field calls. |
| PostWriteRules.CategoriesCalls | wp-xmlrpc-modernization.php:1085-1103 | The category step sends only `wp_set_post_categories`. |
| PostWriteRules.KeywordsCalls | wp-xmlrpc-modernization.php:1105-1112 | The keyword step sends only `wp_set_post_terms`. |
| PostWriteRules.FormatCalls | wp-xmlrpc-modernization.php:1114-1121 | The format step sends only `wp_set_post_terms`. |
| PostWriteRules.LegacyCalls | wp-xmlrpc-modernization.php:1084-1126 | The legacy branches send only legacy calls. |
| PostWriteRules.ReconcileCalls | wp-xmlrpc-modernization.php:1045-1082 | The reconciler in a post write assigns only to the written post, with a null `$append`. A refusal is an error with no call. Success answers `true`. |
| PostWriteRules.TailCalls | wp-xmlrpc-modernization.php:1008-1128 | No call of the tail writes the post. |
| PostWriteRules.NothingBeforeValidation | wp-xmlrpc-modernization.php:719-998 | A request that fails validation gets that error and sends no call. |
| PostWriteRules.ValidatedCommits | wp-xmlrpc-modernization.php:999-1005 | A validated request goes on to the write in the mode it came with. |
| PostWriteRules.WriteComesFirst | wp-xmlrpc-modernization.php:999-1128 | The first call is the write and no later call writes the post, so a refusal from a later step leaves the post written. |
| PostWriteRules.TermsReplaceLegacy | wp-xmlrpc-modernization.php:1045-1082 | With `terms`, the tail makes no legacy call and assigns only to the written post with a null `$append`. It answers `true`, and a refusal assigns nothing. |
| PostWriteRules.LegacyAnswer | wp-xmlrpc-modernization.php:1084-1128 | Without `terms`, an accepted request ends with the enclosure and upload calls and answers the ID as a string. |
| PostWriteRules.OkNeedsValidation | wp-xmlrpc-modernization.php:719-1129 | Only a request that passed validation is answered with anything but an error. |
| PostWriteRules.AnswerIsWrittenId | wp-xmlrpc-modernization.php:999-1128 | Reading the string answer back with `(int)` gives the nonzero ID the write returned. |
| PostWrites.Sticky | wp-xmlrpc-modernization.php:1007-1031 | Computes the sticky step's calls or refusal. wp.newPost refuses a set flag for a type other than `post`; wp.editPost acts only on a set flag (lines 1408-1426). A falsy flag unsticks. A truthy flag needs the status `publish` and edit_others_posts, each with its own 401, and then sticks. |
| PostWriteRules.StickyRule | wp-xmlrpc-modernization.php:1008-1031 | Sticking happens exactly when four conditions hold: the flag is truthy, the type may be sticky, the status is `publish`, and the actor holds edit_others_posts. A falsy flag on a post unsticks. Other types refuse a set flag. |
| PostWriteRules.CategoriesRule | wp-xmlrpc-modernization.php:1085-1103 | The categories pass exactly when every name is a known category. The call then carries their IDs in order, or null for an empty list. |
| PostWriteRules.KeywordsDropped | wp-xmlrpc-modernization.php:1105-1112 | The keyword call passes null for the post and the tags (`$post_id` and `$tags` are undefined). It is refused exactly when the type lacks `post_tag`. |
| TermReconciler.Unique | wp-xmlrpc-modernization.php:1074-1075 | `array_unique` keeps exactly the values of its input, each once. |
| TermReconciler.IntVals | wp-xmlrpc-modernization.php:1074 | `array_map('intval', …)` casts each ID in place. |
| TermReconciler.Assignments | wp-xmlrpc-modernization.php:1071-1078 | The applying pass sends one `wp_set_object_terms` per entry. |
| TermReconciler.TermsFaultFirst | wp-xmlrpc-modernization.php:1047-1069 | The validating pass fails exactly when some entry fails, and then reports the first failing entry's error. |
| TermReconciler.IdsFaultFirst | wp-xmlrpc-modernization.php:1058-1067 | The IDs of one taxonomy pass exactly when each resolves. |
| TermReconciler.AppliedIdsMeaning | wp-xmlrpc-modernization.php:1071-1078 | For an array, the applied IDs are exactly its items cast by `intval`, without repeats. Anything else is passed as null. |
| TermReconciler.ReconcileOutcome | wp-xmlrpc-modernization.php:1045-1082 | Computes the two term passes. The validating pass's first fault is answered with no call. Otherwise the answer is `true`, with one `wp_set_object_terms` per entry in order. |
| TermReconciler.AllOrNothing | wp-xmlrpc-modernization.php:1045-1082 | One failing taxonomy or ID means that error and no assignment; otherwise the answer is `true` and every entry is assigned, in order. |
| TermReconciler.EntryPasses | wp-xmlrpc-modernization.php:1051-1067 | A listed taxonomy whose IDs all resolve never stops the validating pass. |
| TermReconciler.ValidateIds | wp-xmlrpc-modernization.php:1058-1067 | The inner validation loop computes the first ID fault. |
| TermReconciler.Validate | wp-xmlrpc-modernization.php:1047-1069 | The outer validation loop computes the first fault. |
| TermReconciler.Apply | wp-xmlrpc-modernization.php:1071-1078 | The applying loop records exactly the assignments. |
| TermReconciler.Reconcile | wp-xmlrpc-modernization.php:1045-1082 | Both passes record the reconciliation's calls and give its answer. |
| TermReconciler.SetPostTermsOutcome | wp-xmlrpc-modernization.php:1789-1846 | Computes wp.setPostTerms' response and calls. A missing post gives 404. A post the actor may not edit gives 401. Otherwise the reconciliation runs against the stored type's taxonomies, with the truthiness of the append argument. |
| TermReconciler.SetPostTerms | wp-xmlrpc-modernization.php:1789-1846 | wp.setPostTerms records exactly its outcome's calls and answers its response. Its entries are those `array_keys` visits in its content argument (`TermReconciler.EntriesOf`). |
| TermReconciler.ReconcileAnswers | wp-xmlrpc-modernization.php:1045-1082 | The two passes answer `true` with exactly the assignments, in entry order, when every entry validates. Otherwise they answer the fault and make no call. |
| TermReconciler.SetPostTermsRule | wp-xmlrpc-modernization.php:1789-1846 | A missing post gives 404 `Invalid post ID.`, and a post the actor may not edit gives 401 `Sorry, You are not allowed to edit this post.`; neither sends a call. For a permitted post the answer is `true` exactly when every entry passes the validating pass; then the calls are the assignments to that post with the truthiness of the append argument, and otherwise there are none. |
| TermReconciler.EntriesOfForms | wp-xmlrpc-modernization.php:1044-1082 | The entries `array_keys` visits for a struct carry exactly its keys; for a value that is not an array there are none, so both passes do nothing and the answer is `true`. |
| TermReconciler.SetPostTermsGuarded | wp-xmlrpc-modernization.php:1789-1846 | A call is sent only for an existing post the actor may edit. Any assignment means the answer `true`. Every call goes to that post with the truthiness of the append argument. |
| BatchDelete.FirstFault | wp-xmlrpc-modernization.php:1550-1561 | The validating loop passes exactly when every ID passes its check. |
| BatchDelete.Survivors | wp-xmlrpc-modernization.php:1567-1575 | The answer holds exactly the requested IDs whose deletion succeeded. |
| BatchDelete.DeleteCalls | wp-xmlrpc-modernization.php:1567-1575 | One deletion per requested ID, in request order. |
| BatchDelete.Validate | wp-xmlrpc-modernization.php:1550-1561 | The validating loop returns the first fault. |
| BatchDelete.DeleteEach | wp-xmlrpc-modernization.php:1567-1575 | The deleting loop records one deletion per ID and collects the survivors. |
| BatchDelete.DeleteOutcome | wp-xmlrpc-modernization.php:1537-1576 | Computes wp.deletePost's, and wp.deleteUser's (lines 530-572), response and calls. wp.deleteUser without delete_users gives 401. The first failing ID's 404 or 401 is answered with no call. Otherwise one deletion per ID is made in order, and the answer lists the IDs whose deletion succeeded. |
| BatchDelete.DeletePosts | wp-xmlrpc-modernization.php:1537-1576 | wp.deletePost records exactly its outcome's calls and answers its response. |
| BatchDelete.DeleteUsers | wp-xmlrpc-modernization.php:530-572 | wp.deleteUser records exactly its outcome's calls and answers its response. |
| BatchDelete.FirstFaultAt | wp-xmlrpc-modernization.php:1550-1561 | The loop stops at the first failing ID, with that ID's fault. |
| BatchDelete.SurvivorsConcat | wp-xmlrpc-modernization.php:1567-1575 | Filtering keeps request order. |
| BatchDelete.AllOrNothing | wp-xmlrpc-modernization.php:1547-1575 | The batch succeeds exactly when the actor may delete users (for users) and every ID passes. A failure sends nothing; a success sends one deletion per ID. |
| BatchDelete.Answer | wp-xmlrpc-modernization.php:1564-1575 | A successful batch answers with the requested IDs whose deletion succeeded, and no others. |
| BatchDelete.ScalarBatch | wp-xmlrpc-modernization.php:1547-1548 | A single ID is deleted as its `(int)` cast, and is answered alone or not at all. |
| BatchDelete.SurvivorsOfOne | wp-xmlrpc-modernization.php:1567-1575 | A one-ID batch survives exactly when its deletion succeeded. |
| BatchDelete.PostsDeletedOnlyWhenAllowed | wp-xmlrpc-modernization.php:1550-1569 | Every deletion wp.deletePost sends is for an existing post whose delete_post capability the actor holds. |
| BatchDelete.UsersDeletedOnlyWhenAllowed | wp-xmlrpc-modernization.php:541-565 | Every deletion wp.deleteUser sends is for an existing user other than the actor, sent with delete_users. |
| UserHandlers.UserWritten | wp-xmlrpc-modernization.php:382-390 | A user write answers Ok exactly for a nonzero ID, which it answers. A WP_Error becomes a 500 with its message. |
| UserHandlers.CheckNewLogin | wp-xmlrpc-modernization.php:319-338 | The imperative capability and login steps compute their guard. |
| UserHandlers.CheckPassword | wp-xmlrpc-modernization.php:341-344 | The imperative password step computes its guard. |
| UserHandlers.CheckNewEmail | wp-xmlrpc-modernization.php:347-354 | The imperative email steps compute their guard. |
| UserHandlers.CheckRole | wp-xmlrpc-modernization.php:357-368 | The imperative role step computes its guard. |
| UserHandlers.BuildNewUser | wp-xmlrpc-modernization.php:319-380 | Growing `$user_data` step by step computes the wp.newUser guard chain. |
| UserHandlers.NewUserOutcome | wp-xmlrpc-modernization.php:306-391 | Computes wp.newUser's response and calls. The first refusal of the guard chain is answered with no call. Otherwise exactly one `wp_insert_user` of the built record is made, and its reply is answered: the new ID, or an error. |
| UserHandlers.NewUser | wp-xmlrpc-modernization.php:306-391 | wp.newUser records exactly its outcome's calls and answers its response. |
| UserHandlers.NewUserAccepts | wp-xmlrpc-modernization.php:319-368 | The guards accept exactly when: the actor holds create_users; the trimmed login is non-empty and not yet registered; the password is not empty; the email is valid and unregistered; any role is known. |
| UserHandlers.NewUserShape | wp-xmlrpc-modernization.php:322-380 | An accepted request builds exactly the flat user record. |
| UserHandlers.NewUserWritesOnce | wp-xmlrpc-modernization.php:319-391 | wp.newUser inserts once, only after every guard passed, and answers a nonzero ID or an error. |
| UserHandlers.CheckEditTarget | wp-xmlrpc-modernization.php:431-437 | The imperative target step computes its guard. |
| UserHandlers.CheckIdentity | wp-xmlrpc-modernization.php:443-456 | The imperative username and email steps compute their guard. |
| UserHandlers.CheckRoleChange | wp-xmlrpc-modernization.php:458-472 | The imperative role step computes its guard. |
| UserHandlers.CopyContacts | wp-xmlrpc-modernization.php:493-503 | The contact loop copies every entry when all keys are registered, and is a 401 otherwise. |
| UserHandlers.CheckContacts | wp-xmlrpc-modernization.php:493-503 | The imperative contacts step computes its guard. |
| UserHandlers.BuildEditUser | wp-xmlrpc-modernization.php:431-506 | Growing `$user_data` step by step computes the wp.editUser guard chain. |
| UserHandlers.EditUserOutcome | wp-xmlrpc-modernization.php:417-517 | Computes wp.editUser's response and calls. The first refusal of the guard chain is answered with no call. Otherwise exactly one `wp_update_user` of the built record is made, and its reply is answered. |
| UserHandlers.EditUser | wp-xmlrpc-modernization.php:417-517 | wp.editUser records exactly its outcome's calls and answers its response. |
| UserHandlers.EditUserAccepts | wp-xmlrpc-modernization.php:431-503 | The guards accept exactly when all of these hold. The user exists. The actor is that user or holds edit_users. Any username equals the current login. Any email is valid and is the user's own or unregistered. A role change needs edit_users and a known role. Contact keys are registered. |
| UserHandlers.EditUserSendsOnlyGiven | wp-xmlrpc-modernization.php:474-506 | Every key of the update is the ID, a contact entry, or a key copied because the request set its source key. |
| UserHandlers.EditUserMisreadsKeys | wp-xmlrpc-modernization.php:481-488 | A set `website` sends the request's `url`, and a set `usernicename` sends the request's `nicename`, as written. |
| UserHandlers.EditUserWritesOnce | wp-xmlrpc-modernization.php:431-516 | wp.editUser updates once, only after every guard passed, and answers a nonzero ID or an error. |
| UserHandlers.GetUserOutcome | wp-xmlrpc-modernization.php:596-618 | Computes the wp.getUser answer. A missing user gives 404. Someone other than the actor, without edit_users, gives 401. Otherwise the answer is the user's `prepare_user` struct. |
| UserHandlers.GetUser | wp-xmlrpc-modernization.php:596-618 | The imperative handler computes the wp.getUser answer. |
| UserHandlers.GetUserRule | wp-xmlrpc-modernization.php:607-617 | wp.getUser answers exactly for an existing user who is the actor or when the actor holds edit_users. The answer is that user's `prepare_user` struct. A missing user is a 404. |
| UserHandlers.PreparedUsers | wp-xmlrpc-modernization.php:674-677 | One `prepare_user` struct per listed user, in listing order. |
| UserHandlers.PrepareAll | wp-xmlrpc-modernization.php:674-677 | The listing loop builds exactly those structs. |
| UserHandlers.GetUsersOutcome | wp-xmlrpc-modernization.php:638-680 | Computes wp.getUsers' response and calls. Without edit_users the answer is 401, and an unknown role filter gives 403; neither makes a query. Otherwise there is one `get_users` call, and the answer has one `prepare_user` struct per listed user. |
| UserHandlers.ListUsers | wp-xmlrpc-modernization.php:638-680 | wp.getUsers records exactly its outcome's calls and answers its response. |
| UserHandlers.GetUsersQuery | wp-xmlrpc-modernization.php:649-679 | The one query needs edit_users. It asks for 50 users from offset 0 unless the filter says otherwise, through `absint`. A role filter must be registered. The answer has one struct per listed user, in order. |
| UserHandlers.GetUsersAgreesWithGetUser | wp-xmlrpc-modernization.php:674-677 | A listed user is answered exactly as wp.getUser answers for its ID. |
| TermHandlers.TermWritten | wp-xmlrpc-modernization.php:2000-2008 | A term write answers Ok exactly for a nonzero term ID, which it answers. |
| TermHandlers.TermRemoved | wp-xmlrpc-modernization.php:2148-2156 | The delete answers Ok exactly when `wp_delete_term` succeeded. |
| TermHandlers.WriteOnce | wp-xmlrpc-modernization.php:2000-2008 | A validated term write sends exactly its one call. A refusal sends none and is not Ok. |
| TermHandlers.TaxonomyStepRule | wp-xmlrpc-modernization.php:1958-1965 | The taxonomy guard passes exactly for an existing taxonomy whose capability the actor holds. |
| TermHandlers.ParentStepRule | wp-xmlrpc-modernization.php:1976-1990 | The parent guard passes an unset parent unchanged, or a parent found in a hierarchical taxonomy, which it stores. |
| TermHandlers.ParentStepKeeps | wp-xmlrpc-modernization.php:1976-1990 | The parent guard keeps every other key. |
| TermHandlers.CheckTaxonomy | wp-xmlrpc-modernization.php:1958-1965 | The imperative taxonomy step computes its guard. |
| TermHandlers.CheckTerm | wp-xmlrpc-modernization.php:2059-2064 | The imperative term lookup computes its guard. |
| TermHandlers.CheckParent | wp-xmlrpc-modernization.php:1976-1990 | The imperative parent step computes its guard. |
| TermHandlers.BuildNewTerm | wp-xmlrpc-modernization.php:1958-2000 | Growing `$term_data` step by step computes the wp.newTerm call. |
| TermHandlers.NewTermOutcome | wp-xmlrpc-modernization.php:1946-2009 | Computes wp.newTerm's response and calls. The first refusal of the guards is answered with no call. Otherwise exactly one `wp_insert_term` is made, and its reply is answered. |
| TermHandlers.CreateTerm | wp-xmlrpc-modernization.php:1946-2009 | wp.newTerm records exactly its outcome's calls and answers its response. |
| TermHandlers.NewTermNeedsCapability | wp-xmlrpc-modernization.php:1958-1965 | wp.newTerm writes only with the taxonomy's manage_terms capability. |
| TermHandlers.NewTermName | wp-xmlrpc-modernization.php:1972-1974 | A new term is inserted under the request's name trimmed, which is neither empty nor `0`. |
| TermHandlers.NewTermBlankRefused | wp-xmlrpc-modernization.php:1972-1974 | A name that trims to nothing or to `0` is refused with 403. |
| TermHandlers.NewTermArrayNameRefused | wp-xmlrpc-modernization.php:1972-1974 | A name sent as an array or a struct trims to null, read as "", and is refused with 403. |
| TermHandlers.NewTermParent | wp-xmlrpc-modernization.php:1976-1990 | A new term has a parent exactly when the request sets one. The taxonomy is then hierarchical and `get_term` finds the parent there. |
| TermHandlers.DefaultsKeep | wp-xmlrpc-modernization.php:1992-1998 | Defaulting the description and slug changes no other key. |
| TermHandlers.DescribedKeeps | wp-xmlrpc-modernization.php:2089-2093 | Copying an optional description and slug changes no other key. |
| TermHandlers.CheckRename | wp-xmlrpc-modernization.php:2066-2071 | The imperative rename step computes its guard. |
| TermHandlers.RenameRule | wp-xmlrpc-modernization.php:2066-2071 | A name is sent only when the request sets one, trimmed and neither empty nor `0`. |
| TermHandlers.BuildEditTerm | wp-xmlrpc-modernization.php:2044-2095 | Growing `$term_data` step by step computes the wp.editTerm call. |
| TermHandlers.EditTermOutcome | wp-xmlrpc-modernization.php:2031-2104 | Computes wp.editTerm's response and calls. The first refusal of the guards is answered with no call. Otherwise exactly one `wp_update_term` is made, and its reply is answered. |
| TermHandlers.EditTerm | wp-xmlrpc-modernization.php:2031-2104 | wp.editTerm records exactly its outcome's calls and answers its response. |
| TermHandlers.EditTermNeedsCapability | wp-xmlrpc-modernization.php:2044-2064 | wp.editTerm writes only with the taxonomy's edit_terms capability, to a term `get_term` finds. |
| TermHandlers.EditTermName | wp-xmlrpc-modernization.php:2066-2071 | An edit sends a name exactly when the request sets one, trimmed and neither empty nor `0`. |
| TermHandlers.EditTermParent | wp-xmlrpc-modernization.php:2073-2095 | An edit updates the named term in its taxonomy, and sends a parent exactly when the request sets one. The taxonomy is then hierarchical and the parent found. |
| TermHandlers.EditTermParentErrorIsFatal | wp-xmlrpc-modernization.php:2079-2081 | A WP_Error from the parent lookup is met by asking the found term for its message: a fatal error, with no update sent. |
| TermHandlers.BuildDeleteTerm | wp-xmlrpc-modernization.php:2131-2148 | The imperative guards compute the wp.deleteTerm call. |
| TermHandlers.DeleteTermOutcome | wp-xmlrpc-modernization.php:2118-2157 | Computes wp.deleteTerm's response and calls. The first refusal of the guards is answered with no call. Otherwise exactly one `wp_delete_term` is made, and it answers `true`, a 500, or the fatal `get_error_message` call. |
| TermHandlers.RemoveTerm | wp-xmlrpc-modernization.php:2118-2157 | wp.deleteTerm records exactly its outcome's calls and answers its response. |
| TermHandlers.DeleteTermNeedsCapability | wp-xmlrpc-modernization.php:2131-2148 | wp.deleteTerm deletes only with the taxonomy's delete_terms capability, a term `get_term` finds, by its ID in that taxonomy. |
| TermHandlers.DeleteErrorIsFatal | wp-xmlrpc-modernization.php:2148-2151 | A WP_Error from `wp_delete_term` is met the same way: the deletion was sent and the request ends in a fatal error. |
| TermHandlers.GetTermOutcome | wp-xmlrpc-modernization.php:2180-2211 | Computes the wp.getTerm answer. The taxonomy check (403, or 401 without assign_terms) comes first, then the term lookup. Otherwise the answer is the term's `prepare_term` struct. |
| TermHandlers.GetTerm | wp-xmlrpc-modernization.php:2180-2211 | The imperative handler computes the wp.getTerm answer. |
| TermHandlers.GetTermRule | wp-xmlrpc-modernization.php:2193-2210 | wp.getTerm answers exactly for an existing term of a taxonomy whose assign_terms capability the actor holds, with the term's properties. |
| Queries.GetPostOutcome | wp-xmlrpc-modernization.php:1613-1639 | Computes the wp.getPost answer. A post missing at the `(int)` of the ID gives 404. A post whose type is unregistered, or on which the actor lacks edit_posts, gives 401. Otherwise the answer is the `prepare_post` struct for the requested or default fields. |
| Queries.GetPost | wp-xmlrpc-modernization.php:1613-1639 | The imperative handler computes the wp.getPost answer. |
| Queries.GetPostRule | wp-xmlrpc-modernization.php:1629-1638 | wp.getPost answers exactly for an existing post whose type's edit_posts capability the actor holds on it. The answer is its `prepare_post` struct for the requested or default fields. A missing post is a 404. |
| Queries.CheckTypeFilter | wp-xmlrpc-modernization.php:1685-1693 | The imperative post type filter computes its guard. |
| Queries.Kept | wp-xmlrpc-modernization.php:1725-1731 | The kept posts are no more than the listed ones. |
| Queries.Prepared | wp-xmlrpc-modernization.php:1725-1731 | One `prepare_post` struct per kept post, in order. |
| Queries.KeptStep | wp-xmlrpc-modernization.php:1725-1731 | One more loop iteration keeps the post or `continue`s past it. |
| Queries.PreparedSnoc | wp-xmlrpc-modernization.php:1731 | Appending a post appends its struct. |
| Queries.KeptConcat | wp-xmlrpc-modernization.php:1725-1731 | Filtering a concatenation filters each part, in order. |
| Queries.KeptExactlyEditable | wp-xmlrpc-modernization.php:1725-1731 | A post is kept exactly when it is listed and the actor may edit it, checked against its own ID. |
| Queries.KeptAllEditable | wp-xmlrpc-modernization.php:1725-1731 | When every listed post is editable, all are kept in order. |
| Queries.PrepareEditable | wp-xmlrpc-modernization.php:1722-1733 | The loop with `continue` builds exactly the structs of the kept posts. |
| Queries.GetPostsOutcome | wp-xmlrpc-modernization.php:1663-1734 | Computes wp.getPosts' response and calls. A type filter naming an unregistered type gives 403 and one without edit_posts gives 401, with no query. Otherwise there is one `wp_get_recent_posts` call, and the answer lists the `prepare_post` structs of the editable listed posts. |
| Queries.ListPosts | wp-xmlrpc-modernization.php:1663-1734 | wp.getPosts records exactly its outcome's call and answers its response. |
| Queries.GetPostsAnswer | wp-xmlrpc-modernization.php:1716-1733 | The answer is, in listing order, the structs of exactly the listed posts the actor may edit. |
| Queries.GetPostsRefusals | wp-xmlrpc-modernization.php:1685-1693 | The one query is made unless the type filter refuses. A refusal names an unregistered type (403) or one whose edit_posts the actor lacks (401). |
| Queries.GetPostsQuery | wp-xmlrpc-modernization.php:1683-1712 | The query carries each filter entry exactly when it is set, the counts through `absint`, and `order` only beside `orderby`. |
| Queries.GetPostsAgreesWithGetPost | wp-xmlrpc-modernization.php:1725-1731 | A post wp.getPosts keeps is answered exactly as wp.getPost answers for its ID. |

## Left out

- Transport, dispatch, `login()` and `escape()` belong to the parent XML-RPC class. A handler starts with an authenticated actor, and the escaping is identity.
- The `apply_filters` and `do_action` hooks are identity and no-ops.
- Date arithmetic (`mysql2date`, `IXR_Date`, `iso8601_to_datetime`, `get_date_from_gmt`, `current_time`) is library code. The model records only which source the dates come from. Reply date fields are the stored values.
- Several library functions are fields of the site snapshot or the post view, for lack of their code:
  - `sanitize_user`, `is_email`, `get_extended`, `post_permalink`;
  - `get_post_format`, `is_sticky`, `get_page_templates`, `WP_Roles`;
  - `_wp_get_user_contactmethods`.
- Custom fields, uploads and enclosures on write (`set_custom_fields`, `get_custom_fields`, `attach_uploads`, `add_enclosure_if_new`) are defined in the unseen parent class. They appear only as recorded calls.
- The order of keys in a reply struct is not modelled, and neither is PHP array order beyond sequences: replies are maps, and so is the method table.
- TermReconciler.AppliedIds: a `terms` entry whose value is an XML-RPC struct counts as not an array. Its IDs are then passed on as null.
- UserHandlers.ContactsArg: a `user_contacts` value that is a list rather than a struct counts as having no entries.
- BatchDelete.DeleteOutcome: the answer to a deletion is decided by the `(int)` of the raw ID, and the raw value is answered.
- BatchDelete.DeleteOutcome: whether a deletion succeeds is a fixed set of IDs, and does not depend on earlier deletions in the same batch. A repeated ID gets the same answer each time. In WordPress a second `wp_delete_post` of a post the first call removed outright answers falsy, while one the first call only trashed is deleted again; that depends on library code not part of this model.
- UserHandlers.GetUsersOutcome: the rows `get_users` returns are full user records, not the `get_userdata` lookup of each ID.
- Queries.GetPostsOutcome: the `wp.getPosts` filter is taken to be a struct.
- The handlers wp.getPostTerms, wp.getPostType, wp.getPostTypes, wp.getTerms, wp.getTaxonomy and wp.getTaxonomies (wp-xmlrpc-modernization.php:1747-1779, 1868-1929, 2224-2336) are not part of this model. Only the projections they share are in it.
- IDs and counts are unbounded integers: PHP's 64-bit integer overflow is not modelled.
- Php.IsNumeric: the model has no XML-RPC `<double>` value (floating point), so a double is never one of its inputs. Numeric strings, with white space first, a sign, a fraction and an exponent, are covered.
- Php.IsNumeric: hexadecimal strings such as `0x1A`, which PHP 5's `is_numeric` accepts, are not numeric in the model.
- Php.IntVal: a double's `(int)` truncation is not modelled, for the same reason. `(int)` of a string follows PHP 5: it reads only the leading integer, so `1e3` gives 1.
- PostGuardRules.OptionTable: it does not cover a `<double>` option or a hexadecimal string. A double 1.0 would open, while the model has no such value.
- PostGuardRules.CreateOptionRule: it does not cover a `<double>` option or a hexadecimal string, as for the option table.
- PostWrites.WriteOutcome: the `terms` entries are a parameter. `PostWrites.TermsOf` fixes which entries there are and their values, but not their order: a struct's entries come in the order sent, and the map model of a struct does not keep it. The properties of the write chain hold for every order.
- TermReconciler.SetPostTermsOutcome: the same holds for wp.setPostTerms's entries, tied to its content argument by `TermReconciler.EntriesOf`.
- PostWriteRules.CategoriesRule: `categories` sent as an XML-RPC struct is taken as no names. PHP's `foreach` would walk the struct's values in the order they were sent, and the map model does not keep that order.
