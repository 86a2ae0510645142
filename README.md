# BlueKing PaaS open API views, modelled in Dafny

This project models the API views of the BlueKing PaaS console in
`paas-ce/paas/paas/api/views.py`. The model covers:

- **App listing, v1** (`AppInfoAPIView.get`): the apps whose code is one of
  the `;`-separated pieces of `target_app_code`, or every app when that
  parameter is absent or empty. They come newest `created_date` first, each
  as `{app_code, app_name}`, inside the `"00"` / `"SUCCESS"` envelope.
- **App listing, v2** (`AppInfoV2APIView.get`): the same query. Each item
  has `bk_app_code` and `bk_app_name`. It also has each of `introduction`,
  `creator` and `developer` that the `;`-separated `fields` parameter asks
  for. The envelope is `bk_error_msg = ""`, `bk_error_code = 0`.
- **Light apps** (`LightAppView`): `dispatch` picks one of four handlers by
  the second-to-last segment of the request path. `set_body_params` parses
  the body leniently. The handlers work on the useful-links table:
  - `post` creates a SAAS link;
  - `put` merges the non-empty fields into a link;
  - `put_logo` stores a decoded logo;
  - `delete` marks a link inactive.

Files:

- `wrappers.dfy`: `Option` and `Result`.
- `text.dfy`: Python's `str.split` with a one-character separator, its
  inverse `join`, and the ASCII part of `str.lower`, with their round-trip
  lemmas.
- `app_info.dfy`: the App rows, the shared query (filter, then a stable sort
  newest first), the two listings and `App.objects.get`. It ends with the
  listing example from the v1 view's doc comment.
- `light_app.dfy`: the light-app views. Each handler is a function from the
  table before to the response and the table after (`CreateStep`,
  `EditStep`, `LogoStep`, `DeleteStep`, and `Outcome` for a whole request).
  Each handler is also a method of the class `LightAppView`. That method
  updates a `LinkStore` in place and is proved to agree with the function.
  What the view calls but does not define is passed in as `Collaborators`:
  - JSON decoding;
  - the four validation forms (each returns cleaned data or its first error message);
  - the lookup test of `UsefulLinks.objects.is_useful_link`;
  - base64 logo decoding;
  - whether the database accepts a write.

Exceptions the view does not catch become `Unhandled(fault)` responses, so
the model states exactly where the view fails:

- a path without `/` (`IndexError`);
- a segment missing from the handler map (`TypeError` from `getattr(self, None, …)`);
- a parent app that `App.objects.get` cannot find;
- a link the manager does not hand back;
- a failed write.

`put_logo` is the exception to this. Its `try` encloses the assignment to
the link, so a missing link, a logo that does not decode and a failed write
all end in the fixed "logo 数据格式不合法" failure.

## Model

| member | source | states |
|---|---|---|
| Text.Split | paas-ce/paas/paas/api/views.py:76 | splitting always yields at least one piece |
| Text.SplitPiecesLackSeparator | paas-ce/paas/paas/api/views.py:76 | no piece of a split contains the separator |
| Text.JoinSplit | paas-ce/paas/paas/api/views.py:76 | joining the pieces of a split with the separator gives back the original string |
| Text.SplitJoin | paas-ce/paas/paas/api/views.py:76 | splitting pieces that were joined, none of which holds the separator, gives the pieces back |
| Text.SplitWithoutSeparator | paas-ce/paas/paas/api/views.py:76 | a string without the separator splits into itself alone |
| Text.SplitAround | paas-ce/paas/paas/api/views.py:76 | splitting `a + sep + b` is the split of `a` followed by the split of `b` |
| Text.SplitSingleIff | paas-ce/paas/paas/api/views.py:145 | a split has exactly one piece if and only if the separator does not occur |
| Text.LowerKeepsLowerCase | paas-ce/paas/paas/api/views.py:144 | a string without upper-case ASCII letters is its own lower case |
| Text.Lower | paas-ce/paas/paas/api/views.py:144 | same length; upper-case ASCII letters map to lower case, every other character is kept |
| AppInfo.Filter | paas-ce/paas/paas/api/views.py:78 | `filter(code__in=codes)` yields no more apps than are stored, each with a listed code; its exact content is stated by `FilterCounts` |
| AppInfo.FilterCounts | paas-ce/paas/paas/api/views.py:75-78 | `filter(code__in=…)` keeps every app whose code is listed, as often as it is stored, and no other app |
| AppInfo.FilterNothing | paas-ce/paas/paas/api/views.py:78 | filtering by codes no stored app has yields nothing |
| AppInfo.Selected | paas-ce/paas/paas/api/views.py:75-78 | the selection is no longer than the registry and holds only apps whose code is wanted (every app when `target_app_code` is absent or empty); its exact content is stated by `SelectedCounts` |
| AppInfo.SelectedCounts | paas-ce/paas/paas/api/views.py:71-78 | the selection holds each app exactly as often as it is stored when its code is wanted (no filter when `target_app_code` is absent or empty), else not at all |
| AppInfo.InsertByNewest | paas-ce/paas/paas/api/views.py:81 | inserting into a newest-first list keeps it newest first and adds exactly that app |
| AppInfo.HeadStaysNewest | paas-ce/paas/paas/api/views.py:81 | inserting an older app after the head keeps the list newest first and adds exactly that app |
| AppInfo.ByNewest | paas-ce/paas/paas/api/views.py:81 | `order_by('-created_date')` is newest first and a permutation of its input |
| AppInfo.Query | paas-ce/paas/paas/api/views.py:71-81 | the query is newest first and holds exactly the wanted apps, each as often as stored |
| AppInfo.V1Item | paas-ce/paas/paas/api/views.py:82-85 | a v1 item has exactly the keys `app_code` and `app_name`, holding the app's code and name |
| AppInfo.GetV1 | paas-ce/paas/paas/api/views.py:69-87 | the envelope is `result` true, `code` "00", `message` "SUCCESS"; the data is one item per queried app, in query order, carrying that app's code and name |
| AppInfo.V1ItemsAreWanted | paas-ce/paas/paas/api/views.py:71-85 | every v1 item belongs to a stored app whose code was asked for |
| AppInfo.WantedAppsAreListed | paas-ce/paas/paas/api/views.py:71-85 | every stored app whose code was asked for has its item in the v1 data |
| AppInfo.V1ItemCount | paas-ce/paas/paas/api/views.py:71-85 | the v1 data has exactly as many items as there are wanted stored apps |
| AppInfo.ExtraFields | paas-ce/paas/paas/api/views.py:106 | the extra-field set is the `fields` pieces intersected with `{introduction, creator, developer}`, and empty when `fields` is absent or empty |
| AppInfo.ExtraFieldsOfJoined | paas-ce/paas/paas/api/views.py:106 | asking for names joined with `;` selects exactly the known names among them |
| AppInfo.NewV2Item | paas-ce/paas/paas/api/views.py:112-121 | a v2 item has the keys `bk_app_code`, `bk_app_name` and exactly the requested extras, with values from `code`, `name`, `introduction`, `creater`, `developer_str` |
| AppInfo.GetV2 | paas-ce/paas/paas/api/views.py:97-128 | the envelope is `bk_error_msg` "", `bk_error_code` 0; the data is one item per queried app, in the v1 query order, each describing its app with exactly the requested extras |
| AppInfo.GetApp | paas-ce/paas/paas/api/views.py:164 | `App.objects.get(code=c)` returns an app with code `c` that is stored, and raises DoesNotExist if and only if no stored app has that code |
| AppInfo.FilterByUniqueCode | paas-ce/paas/paas/api/views.py:164 | with distinct codes, filtering by a stored app's code yields exactly that app |
| AppInfo.GetAppFindsStoredApp | paas-ce/paas/paas/api/views.py:164 | with distinct codes, the lookup of a stored app's code finds that app |
| AppInfo.ExampleSplit | paas-ce/paas/paas/api/views.py:40-44 | the example's `test1;test2` splits into `test1` and `test2` |
| AppInfo.ExampleFilter | paas-ce/paas/paas/api/views.py:40-44 | on the example registry, the filter keeps `test2` and `test1` in store order |
| AppInfo.ExampleOrder | paas-ce/paas/paas/api/views.py:45-61 | the newer `test1` is ordered before `test2` |
| AppInfo.ExampleSelection | paas-ce/paas/paas/api/views.py:40-44 | the example selection is `test2`, `test1` |
| AppInfo.ExampleQuery | paas-ce/paas/paas/api/views.py:40-61 | the example query is `test1`, `test2` |
| AppInfo.ListingExample | paas-ce/paas/paas/api/views.py:40-61 | the documented response data: `test1`/测试1, then `test2`/测试2 |
| LightApp.Allowed | paas-ce/paas/paas/api/views.py:144 | every name of `http_method_names` is accepted as written; `RouteOf` states that the other verbs get method-not-allowed |
| LightApp.LowerKeepsNames | paas-ce/paas/paas/api/views.py:144 | lower-casing leaves every name of `http_method_names` unchanged |
| LightApp.HandlerFor | paas-ce/paas/paas/api/views.py:138-143 | the handler map sends a segment to an operation if and only if it is that operation's segment (`create_app`, `edit_app`, `del_app`, `modify_app_logo`) |
| LightApp.SecondToLast | paas-ce/paas/paas/api/views.py:145 | `path.split('/')[-2]` fails if and only if the path has no `/` |
| LightApp.SecondToLastOf | paas-ce/paas/paas/api/views.py:145 | the segment between the last two slashes is the one taken |
| LightApp.RouteOf | paas-ce/paas/paas/api/views.py:144-149 | method-not-allowed if and only if the lowered verb is not in `http_method_names`; an operation if and only if the verb is allowed and the segment is that operation's; no segment if and only if the verb is allowed and the path has no `/` |
| LightApp.RouteBySegment | paas-ce/paas/paas/api/views.py:138-147 | for any allowed verb, a path ending in `/<segment>/<last>` routes to that segment's operation |
| LightApp.BodyParams | paas-ce/paas/paas/api/views.py:152-156 | an empty body or one that does not decode gives `{}`; otherwise the decoded JSON |
| LightApp.Resolve | paas-ce/paas/paas/api/views.py:183 | the manager returns the stored link under the code exactly when there is one it accepts |
| LightApp.NewLink | paas-ce/paas/paas/api/views.py:167-173 | the new link is SAAS, under the generated code, with the supplied name and URL, and the supplied introduction when non-empty, else the parent app's |
| LightApp.Edited | paas-ce/paas/paas/api/views.py:186-189 | each of introduction, name and link is overwritten if and only if the supplied value is non-empty; code, type, logo and is_active are unchanged |
| LightApp.EditWithBlanksIsNoOp | paas-ce/paas/paas/api/views.py:186-189 | an edit with every optional field blank leaves the link as it was |
| LightApp.EditIsIdempotent | paas-ce/paas/paas/api/views.py:186-189 | editing twice with the same input equals editing once |
| LightApp.CreateStep | paas-ce/paas/paas/api/views.py:158-175 | a rejected form gives PARAM_NOT_VALID with its message and changes nothing; for a valid form, a parent app that `App.objects.get` cannot find gives that lookup error, a refused write gives SaveFailed, and otherwise the answer is success; success holds exactly when the form passed, the parent exists and the write is accepted, and then the table gains exactly the new link and the data is `{bk_light_app_code: code}`; any non-success changes nothing; links stay keyed by code |
| LightApp.EditStep | paas-ce/paas/paas/api/views.py:177-192 | a rejected form gives PARAM_NOT_VALID and changes nothing; for a valid form, a link the manager does not hand back gives LinkMissing, a refused write gives SaveFailed, and otherwise the answer is success; success holds exactly then, and only that link is replaced, by its merged version; any non-success changes nothing |
| LightApp.LogoStep | paas-ce/paas/paas/api/views.py:194-210 | a rejected form gives PARAM_NOT_VALID and changes nothing; for a valid form, success holds exactly when the link is handed back, the logo decodes and the write is accepted, and then only that link's logo changes; every other outcome after validation is the fixed logo failure with nothing changed |
| LightApp.DeleteStep | paas-ce/paas/paas/api/views.py:212-223 | a rejected form gives PARAM_NOT_VALID and changes nothing; for a valid form, a link the manager does not hand back gives LinkMissing, a refused write gives SaveFailed, and otherwise the answer is success; success sets only that link's `is_active` to false; no row is ever removed |
| LightApp.DeleteIsIdempotent | paas-ce/paas/paas/api/views.py:218-223 | a second delete of the same link, while the manager still returns it, succeeds again and leaves the table as the first left it |
| LightApp.EditTwiceIsEditOnce | paas-ce/paas/paas/api/views.py:183-192 | a second identical edit, while the manager still returns the link, succeeds again and changes nothing more |
| LightApp.OperationStep | paas-ce/paas/paas/api/views.py:147 | whichever handler runs, every link stays stored under its own code |
| LightApp.RejectedParamsChangeNothing | paas-ce/paas/paas/api/views.py:158-216 | in all four handlers, parameters the form rejects give PARAM_NOT_VALID with the first error message and leave the table unchanged |
| LightApp.Outcome | paas-ce/paas/paas/api/views.py:137-150 | a verb outside `http_method_names` gives method-not-allowed and changes nothing; an accepted verb on a path without `/` is the `IndexError` fault, before the body is read, and changes nothing |
| LightApp.PathPicksHandler | paas-ce/paas/paas/api/views.py:138-147 | for any allowed verb, a path ending in `/<segment>/<last>` runs that segment's handler on the parsed body |
| LightApp.VerbDoesNotMatter | paas-ce/paas/paas/api/views.py:144-147 | any two allowed verbs on the same path and body give the same response and table |
| LightApp.UnmappedSegmentFails | paas-ce/paas/paas/api/views.py:147 | an unmapped segment is an unhandled error, not method-not-allowed, and changes nothing |
| LightApp.LinkStore.Save | paas-ce/paas/paas/api/views.py:190 | a write stores the row under its code when the database accepts it, and otherwise changes nothing |
| LightApp.LightAppView.constructor | paas-ce/paas/paas/api/views.py:132 | the parameters start as `{}` |
| LightApp.LightAppView.SetBodyParams | paas-ce/paas/paas/api/views.py:152-156 | the instance's parameters become `BodyParams` of the body |
| LightApp.LightAppView.Post | paas-ce/paas/paas/api/views.py:158-175 | the response and the new table are those of `CreateStep` |
| LightApp.LightAppView.Put | paas-ce/paas/paas/api/views.py:177-192 | the field-by-field update yields the response and the table of `EditStep` |
| LightApp.LightAppView.PutLogo | paas-ce/paas/paas/api/views.py:194-210 | the response and the new table are those of `LogoStep` |
| LightApp.LightAppView.Delete | paas-ce/paas/paas/api/views.py:212-223 | the response and the new table are those of `DeleteStep` |
| LightApp.LightAppView.Dispatch | paas-ce/paas/paas/api/views.py:137-150 | the response and the new table are those of `Outcome`; the body is parsed exactly when the verb is allowed and the path has a `/`, and otherwise the parameters are untouched |

## Left out

- Django plumbing is not modelled: `View`, the `csrf_exempt` and `login_exempt` decorators, and the JSON serialisation of responses. Responses are a datatype.
- The gateway checks `esb_required` and `esb_required_v2` are not modelled. Their code is outside this model, and they are taken as passed.
- The rules of the four light-app forms are abstract functions. So are `first_error_message` and `json.loads`. Their code is outside this model.
- `generate_file_by_base64` is an abstract function that may fail. Only the resulting responses are modelled.
- `UsefulLinks.objects.is_useful_link` is a lookup by code filtered by an abstract acceptance test. Its `is_ok` flag is ignored, as in the view.
- LightApp.CreateStep: the code that `UsefulLinks.objects.create` generates for a new link is a parameter. It is required to be unused, which stands for the generator's guarantee.
- The defaults of the useful-links model (`home/models.py`) are not part of this model. A new link is active and has an empty logo.
- LightApp.DeleteIsIdempotent, LightApp.EditTwiceIsEditOnce: whether a write is accepted depends only on the row written, not on the rest of the table or on time, so a repeated identical write is accepted again; a real second `save()` can still raise.
- Logging and transactions are left out. So is the concurrency of `save()`.
- AppInfo.ByNewest: the database leaves the order of apps created at the same moment unspecified. The model keeps them in store order.
- AppInfo.Wanted: code matching is exact string equality. Database collation is not modelled.
- Text.Lower: covers ASCII letters only, not the full Unicode case mapping of `str.lower`.
- A repeated query parameter yields its last value in Django. The model takes the value already chosen.
- JSON numbers keep their source text, because nothing in these views reads them.
- Apps and links are stored in immutable values: `seq` for the App table, `map` from code to row for the useful-links table. The `link` row objects that the handlers mutate are modelled as values that are written back by `LinkStore.Save`. No other object can alias a row.
