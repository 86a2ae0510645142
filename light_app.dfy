/**
 * The light-app endpoints (`LightAppView`): one view that picks among four
 * operations (create, edit, change logo, delete) by the second-to-last
 * segment of the request path, parses the request body leniently, and then
 * reads and writes the useful-links table in which light apps are stored.
 *
 * What the view calls but does not define is a parameter (`Collaborators`):
 * JSON decoding, the four validation forms (each either cleans its input or
 * yields its first error message), the acceptance test of
 * `UsefulLinks.objects.is_useful_link`, base64 logo decoding and whether the
 * database accepts a write.
 *
 * Each handler is stated twice: as a function from the table before to the
 * response and the table after (`CreateStep`, `EditStep`, `LogoStep`,
 * `DeleteStep`, and `Outcome` for a whole request), and as a method of
 * `LightAppView` that updates a `LinkStore` in place and is proved to follow
 * that function.
 */
module LightApp {
  import opened Wrappers
  import opened Text
  import AppInfo

  newtype byte = x: int | 0 <= x < 256

  /** A decoded JSON document. Numbers keep their source text. */
  datatype Json =
    | JNull
    | JBool(b: bool)
    | JNumber(text: string)
    | JString(s: string)
    | JArray(items: seq<Json>)
    | JObject(members: map<string, Json>)

  /** The empty parameter map `{}`. */
  const EmptyParams: Json := JObject(map[])

  /** `LinkTypeEnum`; light apps are always written as SAAS links. */
  datatype LinkType = Saas | OtherLinkType

  /** A row of the useful-links table, keyed by its generated `code`. */
  datatype UsefulLink = UsefulLink(
    code: string,
    name: string,
    link: string,
    linkType: LinkType,
    introduction: string,
    logo: string,
    isActive: bool)

  /** The cleaned data of `LightAppCreationForm`; a blank introduction is "". */
  datatype CreationInput = CreationInput(bkAppCode: string, lightAppName: string, appUrl: string, introduction: string)

  /** The cleaned data of `LightAppEditionForm`; a field left blank is "". */
  datatype EditionInput = EditionInput(lightAppCode: string, lightAppName: string, appUrl: string, introduction: string)

  /** The cleaned data of `LightAppLogoModifiedForm`; `logo` is base64 text. */
  datatype LogoInput = LogoInput(lightAppCode: string, logo: string)

  /** The cleaned data of `LightAppChangeBaseInfoForm`. */
  datatype BaseInfoInput = BaseInfoInput(lightAppCode: string)

  /** The code the view calls but that is not part of this model. */
  datatype Collaborators = Collaborators(
    decodeJson: seq<byte> -> Option<Json>,                 // json.loads; None when it raises
    creationForm: Json -> Result<CreationInput, string>,   // Failure carries the first error message
    editionForm: Json -> Result<EditionInput, string>,
    logoForm: Json -> Result<LogoInput, string>,
    baseInfoForm: Json -> Result<BaseInfoInput, string>,
    isUsefulLink: UsefulLink -> bool,                     // which stored links is_useful_link hands back
    decodeLogo: string -> Option<string>,                 // generate_file_by_base64; None when it raises
    saves: UsefulLink -> bool)                            // whether writing this row succeeds

  /** `ApiErrorCodeEnumV2`, of which only PARAM_NOT_VALID is used. */
  datatype ErrorCode = ParamNotValid

  /** An exception the view does not catch; the client sees a server error. */
  datatype Fault =
    | PathTooShort                            // IndexError from `split('/')[-2]`
    | NoHandler(segment: string)              // TypeError from `getattr(self, None, …)`
    | ParentApp(error: AppInfo.LookupError)   // from `App.objects.get`
    | LinkMissing                             // AttributeError on the None link
    | SaveFailed                              // from the database write

  /** What a light-app request answers. */
  datatype Response =
    | ApiV2Ok(message: string, data: map<string, string>)
    | ApiV2Fail(message: string, code: ErrorCode)
    | MethodNotAllowed
    | Unhandled(fault: Fault)

  const CreatedMessage := "创建轻应用成功"
  const EditedMessage := "app 修改成功"
  const LogoChangedMessage := "app logo修改成功"
  const LogoInvalidMessage := "logo 数据格式不合法"
  const DeletedMessage := "app 下架成功"

  /** The parts of an HTTP request the view reads. */
  datatype Request = Request(verb: string, path: string, body: seq<byte>)

  /** `View.http_method_names`. */
  const HttpMethodNames: seq<string> := ["get", "post", "put", "patch", "delete", "head", "options", "trace"]

  /**
   * Whether the lower-cased verb is one the view accepts at all; every
   * name in the list is accepted as written.
   */
  predicate Allowed(verb: string): (r: bool)
    ensures verb in HttpMethodNames ==> r
  {
    LowerKeepsNames();

    Lower(verb) in HttpMethodNames
  }

  /** Lower-casing leaves each accepted name as it is. */
  lemma LowerKeepsNames()
    ensures forall k :: 0 <= k < |HttpMethodNames| ==> Lower(HttpMethodNames[k]) == HttpMethodNames[k]
  {
    forall k | 0 <= k < |HttpMethodNames|
      ensures Lower(HttpMethodNames[k]) == HttpMethodNames[k]
    {
      LowerKeepsLowerCase(HttpMethodNames[k]);
    }
  }

  /** The four operations, named after the handler each runs. */
  datatype Operation = Create | Edit | ChangeLogo | Delete

  /** The path segment `handler_map` assigns to each operation. */
  function SegmentOf(op: Operation): (segment: string)
  {
    match op
    case Create => "create_app"
    case Edit => "edit_app"
    case Delete => "del_app"
    case ChangeLogo => "modify_app_logo"
  }

  /** `handler_map.get(segment)`. */
  function HandlerFor(segment: string): (r: Option<Operation>)
    ensures forall op :: r == Some(op) <==> segment == SegmentOf(op)
  {
    if segment == "create_app" then Some(Create)
    else if segment == "edit_app" then Some(Edit)
    else if segment == "del_app" then Some(Delete)
    else if segment == "modify_app_logo" then Some(ChangeLogo)
    else None
  }

  /** `path.split('/')[-2]`, or None where Python raises IndexError. */
  function SecondToLast(path: string): (r: Option<string>)
    ensures r.None? <==> '/' !in path
  {
    SplitSingleIff(path, '/');
    var segments := Split(path, '/');
    if |segments| >= 2 then Some(segments[|segments| - 2]) else None
  }

  /** The segment between the last two slashes is the one picked. */
  lemma SecondToLastOf(prefix: string, segment: string, last: string)
    requires '/' !in segment && '/' !in last
    ensures SecondToLast(prefix + "/" + segment + "/" + last) == Some(segment)
  {
    var path := prefix + "/" + segment + "/" + last;
    assert path == prefix + ['/'] + (segment + ['/'] + last);
    SplitAround(prefix, segment + ['/'] + last, '/');
    SplitAround(segment, last, '/');
    SplitWithoutSeparator(segment, '/');
    SplitWithoutSeparator(last, '/');
  }

  /** Where `dispatch` sends a request. */
  datatype Route = To(op: Operation) | NotAllowed | NoSegment | Unmapped(segment: string)

  /** The routing part of `LightAppView.dispatch`. */
  function RouteOf(verb: string, path: string): (r: Route)
    ensures r == NotAllowed <==> !Allowed(verb)
    ensures forall op :: r == To(op) <==> Allowed(verb) && SecondToLast(path) == Some(SegmentOf(op))
    ensures r == NoSegment <==> Allowed(verb) && '/' !in path
  {
    if !Allowed(verb) then NotAllowed
    else
      match SecondToLast(path)
      case None => NoSegment
      case Some(segment) =>
        match HandlerFor(segment)
        case None => Unmapped(segment)
        case Some(op) => To(op)
  }

  /** For any accepted verb, a path ending in `/<segment of op>/<last>` runs op. */
  lemma RouteBySegment(verb: string, prefix: string, op: Operation, last: string)
    requires Allowed(verb)
    requires '/' !in last
    ensures RouteOf(verb, prefix + "/" + SegmentOf(op) + "/" + last) == To(op)
  {
    assert '/' !in SegmentOf(op);
    SecondToLastOf(prefix, SegmentOf(op), last);
  }

  /** `set_body_params`: the decoded body, or `{}` when it is empty or does not decode. */
  function BodyParams(body: seq<byte>, decode: seq<byte> -> Option<Json>): (p: Json)
    ensures |body| == 0 || decode(body).None? ==> p == EmptyParams
    ensures |body| > 0 && decode(body).Some? ==> p == decode(body).value
  {
    if |body| == 0 then EmptyParams
    else
      match decode(body)
      case None => EmptyParams
      case Some(v) => v
  }

  /** Every stored link sits under its own code. */
  ghost predicate KeyedByCode(links: map<string, UsefulLink>)
  {
    forall c :: c in links ==> links[c].code == c
  }

  /** `UsefulLinks.objects.is_useful_link(code)`: the stored link, when the manager hands it back. */
  function Resolve(links: map<string, UsefulLink>, code: string, accepts: UsefulLink -> bool): (r: Option<UsefulLink>)
    ensures r.Some? <==> code in links && accepts(links[code])
    ensures r.Some? ==> r.value == links[code]
  {
    if code in links && accepts(links[code]) then Some(links[code]) else None
  }

  /** The row `post` creates: a SAAS link whose introduction falls back to the parent app's. */
  function NewLink(code: string, input: CreationInput, parent: AppInfo.App): (l: UsefulLink)
    ensures l.code == code && l.linkType == Saas
    ensures l.name == input.lightAppName && l.link == input.appUrl
    ensures input.introduction != "" ==> l.introduction == input.introduction
    ensures input.introduction == "" ==> l.introduction == parent.introduction
  {
    UsefulLink(code, input.lightAppName, input.appUrl, Saas,
      if input.introduction != "" then input.introduction else parent.introduction,
      "", true)
  }

  /** What `put` writes back: each of introduction, name and URL replaced only by a non-empty value. */
  function Edited(l: UsefulLink, input: EditionInput): (r: UsefulLink)
    ensures r.introduction == if input.introduction != "" then input.introduction else l.introduction
    ensures r.name == if input.lightAppName != "" then input.lightAppName else l.name
    ensures r.link == if input.appUrl != "" then input.appUrl else l.link
    ensures r.code == l.code && r.linkType == l.linkType && r.logo == l.logo && r.isActive == l.isActive
  {
    l.(introduction := if input.introduction != "" then input.introduction else l.introduction,
       name := if input.lightAppName != "" then input.lightAppName else l.name,
       link := if input.appUrl != "" then input.appUrl else l.link)
  }

  /** An edit that supplies no value leaves the link as it was. */
  lemma EditWithBlanksIsNoOp(l: UsefulLink, code: string)
    ensures Edited(l, EditionInput(code, "", "", "")) == l
  {
  }

  /** Editing twice with the same input gives the same link as editing once. */
  lemma EditIsIdempotent(l: UsefulLink, input: EditionInput)
    ensures Edited(Edited(l, input), input) == Edited(l, input)
  {
  }

  /** The response and the table after a handler ran. */
  datatype Step = Step(response: Response, links: map<string, UsefulLink>)

  /** `post`: validate, find the parent app, store a new SAAS link under `code`. */
  function CreateStep(links: map<string, UsefulLink>, apps: seq<AppInfo.App>, params: Json, env: Collaborators, code: string): (s: Step)
    requires KeyedByCode(links) && code !in links
    ensures KeyedByCode(s.links)
    ensures env.creationForm(params).Failure? ==>
      s == Step(ApiV2Fail(env.creationForm(params).error, ParamNotValid), links)
    ensures s.response.ApiV2Ok? ==>
      && env.creationForm(params).Success?
      && var input := env.creationForm(params).value;
      && AppInfo.GetApp(apps, input.bkAppCode).Success?
      && var l := NewLink(code, input, AppInfo.GetApp(apps, input.bkAppCode).value);
      && env.saves(l)
      && s.links == links[code := l]
      && s.response == ApiV2Ok(CreatedMessage, map["bk_light_app_code" := code])
    ensures env.creationForm(params).Success? ==>
      var input := env.creationForm(params).value;
      var parent := AppInfo.GetApp(apps, input.bkAppCode);
      && (parent.Failure? ==> s == Step(Unhandled(ParentApp(parent.error)), links))
      && (parent.Success? && !env.saves(NewLink(code, input, parent.value)) ==> s == Step(Unhandled(SaveFailed), links))
      && (parent.Success? && env.saves(NewLink(code, input, parent.value)) ==> s.response.ApiV2Ok?)
    ensures !s.response.ApiV2Ok? ==> s.links == links
  {
    match env.creationForm(params)
    case Failure(message) => Step(ApiV2Fail(message, ParamNotValid), links)
    case Success(input) =>
      match AppInfo.GetApp(apps, input.bkAppCode)
      case Failure(e) => Step(Unhandled(ParentApp(e)), links)
      case Success(parent) =>
        var l := NewLink(code, input, parent);
        if !env.saves(l) then Step(Unhandled(SaveFailed), links)
        else Step(ApiV2Ok(CreatedMessage, map["bk_light_app_code" := code]), links[code := l])
  }

  /** `put`: validate, fetch the link, merge the non-empty fields into it. */
  function EditStep(links: map<string, UsefulLink>, params: Json, env: Collaborators): (s: Step)
    requires KeyedByCode(links)
    ensures KeyedByCode(s.links)
    ensures env.editionForm(params).Failure? ==>
      s == Step(ApiV2Fail(env.editionForm(params).error, ParamNotValid), links)
    ensures s.response.ApiV2Ok? ==>
      && env.editionForm(params).Success?
      && var input := env.editionForm(params).value;
      && var c := input.lightAppCode;
      && c in links && env.isUsefulLink(links[c]) && env.saves(Edited(links[c], input))
      && s.links == links[c := Edited(links[c], input)]
      && s.response == ApiV2Ok(EditedMessage, map[])
    ensures env.editionForm(params).Success? ==>
      var input := env.editionForm(params).value;
      var c := input.lightAppCode;
      && (!(c in links && env.isUsefulLink(links[c])) ==> s == Step(Unhandled(LinkMissing), links))
      && (c in links && env.isUsefulLink(links[c]) && !env.saves(Edited(links[c], input)) ==>
            s == Step(Unhandled(SaveFailed), links))
      && (c in links && env.isUsefulLink(links[c]) && env.saves(Edited(links[c], input)) ==> s.response.ApiV2Ok?)
    ensures !s.response.ApiV2Ok? ==> s.links == links
  {
    match env.editionForm(params)
    case Failure(message) => Step(ApiV2Fail(message, ParamNotValid), links)
    case Success(input) =>
      match Resolve(links, input.lightAppCode, env.isUsefulLink)
      case None => Step(Unhandled(LinkMissing), links)
      case Some(l) =>
        var l' := Edited(l, input);
        if !env.saves(l') then Step(Unhandled(SaveFailed), links)
        else Step(ApiV2Ok(EditedMessage, map[]), links[l.code := l'])
  }

  /**
   * `put_logo`: validate, fetch the link, store the decoded logo. A logo
   * that does not decode, a link that is not found (the assignment to the
   * None link raises inside the same `try`) and a failed write all end in
   * the one fixed failure.
   */
  function LogoStep(links: map<string, UsefulLink>, params: Json, env: Collaborators): (s: Step)
    requires KeyedByCode(links)
    ensures KeyedByCode(s.links)
    ensures env.logoForm(params).Failure? ==>
      s == Step(ApiV2Fail(env.logoForm(params).error, ParamNotValid), links)
    ensures s.response.ApiV2Ok? ==>
      && env.logoForm(params).Success?
      && var input := env.logoForm(params).value;
      && var c := input.lightAppCode;
      && c in links && env.isUsefulLink(links[c])
      && env.decodeLogo(input.logo).Some?
      && var l := links[c].(logo := env.decodeLogo(input.logo).value);
      && env.saves(l)
      && s.links == links[c := l]
      && s.response == ApiV2Ok(LogoChangedMessage, map[])
    ensures env.logoForm(params).Success? ==>
      var input := env.logoForm(params).value;
      var c := input.lightAppCode;
      && c in links && env.isUsefulLink(links[c])
      && env.decodeLogo(input.logo).Some?
      && env.saves(links[c].(logo := env.decodeLogo(input.logo).value))
      ==> s.response.ApiV2Ok?
    ensures env.logoForm(params).Success? && !s.response.ApiV2Ok? ==>
      s == Step(ApiV2Fail(LogoInvalidMessage, ParamNotValid), links)
  {
    match env.logoForm(params)
    case Failure(message) => Step(ApiV2Fail(message, ParamNotValid), links)
    case Success(input) =>
      var found := Resolve(links, input.lightAppCode, env.isUsefulLink);
      var file := env.decodeLogo(input.logo);
      if file.None? || found.None? then Step(ApiV2Fail(LogoInvalidMessage, ParamNotValid), links)
      else
        var l' := found.value.(logo := file.value);
        if !env.saves(l') then Step(ApiV2Fail(LogoInvalidMessage, ParamNotValid), links)
        else Step(ApiV2Ok(LogoChangedMessage, map[]), links[l'.code := l'])
  }

  /** `delete`: validate, fetch the link, mark it inactive; the row is kept. */
  function DeleteStep(links: map<string, UsefulLink>, params: Json, env: Collaborators): (s: Step)
    requires KeyedByCode(links)
    ensures KeyedByCode(s.links)
    ensures env.baseInfoForm(params).Failure? ==>
      s == Step(ApiV2Fail(env.baseInfoForm(params).error, ParamNotValid), links)
    ensures s.response.ApiV2Ok? ==>
      && env.baseInfoForm(params).Success?
      && var c := env.baseInfoForm(params).value.lightAppCode;
      && c in links && env.isUsefulLink(links[c]) && env.saves(links[c].(isActive := false))
      && s.links == links[c := links[c].(isActive := false)]
      && s.response == ApiV2Ok(DeletedMessage, map[])
    ensures env.baseInfoForm(params).Success? ==>
      var c := env.baseInfoForm(params).value.lightAppCode;
      && (!(c in links && env.isUsefulLink(links[c])) ==> s == Step(Unhandled(LinkMissing), links))
      && (c in links && env.isUsefulLink(links[c]) && !env.saves(links[c].(isActive := false)) ==>
            s == Step(Unhandled(SaveFailed), links))
      && (c in links && env.isUsefulLink(links[c]) && env.saves(links[c].(isActive := false)) ==> s.response.ApiV2Ok?)
    ensures !s.response.ApiV2Ok? ==> s.links == links
    ensures s.links.Keys == links.Keys
  {
    match env.baseInfoForm(params)
    case Failure(message) => Step(ApiV2Fail(message, ParamNotValid), links)
    case Success(input) =>
      match Resolve(links, input.lightAppCode, env.isUsefulLink)
      case None => Step(Unhandled(LinkMissing), links)
      case Some(l) =>
        var l' := l.(isActive := false);
        if !env.saves(l') then Step(Unhandled(SaveFailed), links)
        else Step(ApiV2Ok(DeletedMessage, map[]), links[l.code := l'])
  }

  /**
   * Deleting a light app a second time, while the manager still hands the
   * inactive link back, answers success again and leaves the table as the
   * first delete left it.
   */
  lemma DeleteIsIdempotent(links: map<string, UsefulLink>, params: Json, env: Collaborators)
    requires KeyedByCode(links)
    requires DeleteStep(links, params, env).response.ApiV2Ok?
    requires var c := env.baseInfoForm(params).value.lightAppCode;
      env.isUsefulLink(links[c].(isActive := false))
    ensures var first := DeleteStep(links, params, env);
      DeleteStep(first.links, params, env) == first
  {
    var c := env.baseInfoForm(params).value.lightAppCode;
    var first := DeleteStep(links, params, env);
    var l' := links[c].(isActive := false);
    assert first.links[c] == l';
    assert l'.(isActive := false) == l';
    assert first.links[c := l'] == first.links;
  }

  /**
   * Editing a light app a second time with the same input, while the
   * manager still hands the edited link back, answers success again and
   * changes nothing more.
   */
  lemma EditTwiceIsEditOnce(links: map<string, UsefulLink>, params: Json, env: Collaborators)
    requires KeyedByCode(links)
    requires EditStep(links, params, env).response.ApiV2Ok?
    requires var input := env.editionForm(params).value;
      env.isUsefulLink(Edited(links[input.lightAppCode], input))
    ensures var first := EditStep(links, params, env);
      EditStep(first.links, params, env) == first
  {
    var input := env.editionForm(params).value;
    var c := input.lightAppCode;
    var first := EditStep(links, params, env);
    var l' := Edited(links[c], input);
    assert first.links[c] == l';
    EditIsIdempotent(links[c], input);
    assert first.links[c := l'] == first.links;
  }

  /** The handler chosen for an operation, run on the parsed parameters. */
  function OperationStep(op: Operation, links: map<string, UsefulLink>, apps: seq<AppInfo.App>, params: Json, env: Collaborators, code: string): (s: Step)
    requires KeyedByCode(links) && code !in links
    ensures KeyedByCode(s.links)
  {
    match op
    case Create => CreateStep(links, apps, params, env, code)
    case Edit => EditStep(links, params, env)
    case ChangeLogo => LogoStep(links, params, env)
    case Delete => DeleteStep(links, params, env)
  }

  /** The first error message of the form an operation validates with, if it rejects the parameters. */
  function FormError(op: Operation, params: Json, env: Collaborators): (message: Option<string>)
  {
    match op
    case Create => if env.creationForm(params).Failure? then Some(env.creationForm(params).error) else None
    case Edit => if env.editionForm(params).Failure? then Some(env.editionForm(params).error) else None
    case ChangeLogo => if env.logoForm(params).Failure? then Some(env.logoForm(params).error) else None
    case Delete => if env.baseInfoForm(params).Failure? then Some(env.baseInfoForm(params).error) else None
  }

  /** In every operation, parameters the form rejects get PARAM_NOT_VALID with the first message, and nothing is written. */
  lemma RejectedParamsChangeNothing(op: Operation, links: map<string, UsefulLink>, apps: seq<AppInfo.App>, params: Json, env: Collaborators, code: string)
    requires KeyedByCode(links) && code !in links
    requires FormError(op, params, env).Some?
    ensures OperationStep(op, links, apps, params, env, code)
      == Step(ApiV2Fail(FormError(op, params, env).value, ParamNotValid), links)
  {
  }

  /** A whole request through `LightAppView.dispatch`. */
  function Outcome(req: Request, links: map<string, UsefulLink>, apps: seq<AppInfo.App>, env: Collaborators, code: string): (s: Step)
    requires KeyedByCode(links) && code !in links
    ensures KeyedByCode(s.links)
    ensures !Allowed(req.verb) ==> s == Step(MethodNotAllowed, links)
    ensures Allowed(req.verb) && '/' !in req.path ==> s == Step(Unhandled(PathTooShort), links)
  {
    match RouteOf(req.verb, req.path)
    case NotAllowed => Step(MethodNotAllowed, links)
    case NoSegment => Step(Unhandled(PathTooShort), links)
    case Unmapped(segment) => Step(Unhandled(NoHandler(segment)), links)
    case To(op) => OperationStep(op, links, apps, BodyParams(req.body, env.decodeJson), env, code)
  }

  /** Among accepted verbs, the verb makes no difference: only the path and the body do. */
  lemma VerbDoesNotMatter(m1: string, m2: string, path: string, body: seq<byte>, links: map<string, UsefulLink>, apps: seq<AppInfo.App>, env: Collaborators, code: string)
    requires KeyedByCode(links) && code !in links
    requires Allowed(m1) && Allowed(m2)
    ensures Outcome(Request(m1, path, body), links, apps, env, code)
         == Outcome(Request(m2, path, body), links, apps, env, code)
  {
  }

  /** For any accepted verb, a path ending in `/<segment of op>/<last>` runs op's handler on the parsed body. */
  lemma PathPicksHandler(req: Request, prefix: string, op: Operation, last: string, links: map<string, UsefulLink>, apps: seq<AppInfo.App>, env: Collaborators, code: string)
    requires KeyedByCode(links) && code !in links
    requires Allowed(req.verb) && '/' !in last
    requires req.path == prefix + "/" + SegmentOf(op) + "/" + last
    ensures Outcome(req, links, apps, env, code) == OperationStep(op, links, apps, BodyParams(req.body, env.decodeJson), env, code)
  {
    RouteBySegment(req.verb, prefix, op, last);
  }

  /** A path whose second-to-last segment is not in the handler map is a server error, and nothing is written. */
  lemma UnmappedSegmentFails(req: Request, links: map<string, UsefulLink>, apps: seq<AppInfo.App>, env: Collaborators, code: string)
    requires KeyedByCode(links) && code !in links
    requires Allowed(req.verb)
    requires SecondToLast(req.path).Some? && HandlerFor(SecondToLast(req.path).value).None?
    ensures Outcome(req, links, apps, env, code) == Step(Unhandled(NoHandler(SecondToLast(req.path).value)), links)
  {
  }

  /** Whether `dispatch` gets as far as parsing the body. */
  predicate BodyParsed(req: Request)
  {
    Allowed(req.verb) && '/' in req.path
  }

  /** The useful-links table, updated in place. */
  class LinkStore {
    var links: map<string, UsefulLink>

    ghost predicate Valid()
      reads this
    {
      KeyedByCode(links)
    }

    constructor (initial: map<string, UsefulLink>)
      requires KeyedByCode(initial)
      ensures Valid() && links == initial
    {
      links := initial;
    }

    /** `save()` / `objects.create`: writes the row under its code when the database accepts it. */
    method Save(l: UsefulLink, saves: UsefulLink -> bool) returns (ok: bool)
      requires Valid()
      modifies this
      ensures Valid()
      ensures ok == saves(l)
      ensures links == if ok then old(links)[l.code := l] else old(links)
    {
      ok := saves(l);
      if ok {
        links := links[l.code := l];
      }
    }
  }

  /** `LightAppView`: one instance serves one request. */
  class LightAppView {
    var requestBodyParams: Json

    constructor ()
      ensures requestBodyParams == EmptyParams
    {
      requestBodyParams := EmptyParams;
    }

    /** `set_body_params`. */
    method SetBodyParams(body: seq<byte>, decode: seq<byte> -> Option<Json>)
      modifies this
      ensures requestBodyParams == BodyParams(body, decode)
    {
      if |body| == 0 {
        requestBodyParams := EmptyParams;
      } else {
        var decoded := decode(body);
        if decoded.None? {
          requestBodyParams := EmptyParams;
        } else {
          requestBodyParams := decoded.value;
        }
      }
    }

    /** `post`. */
    method Post(store: LinkStore, apps: seq<AppInfo.App>, env: Collaborators, code: string) returns (resp: Response)
      requires store.Valid() && code !in store.links
      modifies store
      ensures store.Valid()
      ensures Step(resp, store.links) == CreateStep(old(store.links), apps, requestBodyParams, env, code)
    {
      var form := env.creationForm(requestBodyParams);
      if form.Failure? {
        resp := ApiV2Fail(form.error, ParamNotValid);
        return;
      }
      var input := form.value;
      var parentApp := AppInfo.GetApp(apps, input.bkAppCode);
      if parentApp.Failure? {
        resp := Unhandled(ParentApp(parentApp.error));
        return;
      }
      var l := NewLink(code, input, parentApp.value);
      var ok := store.Save(l, env.saves);
      if !ok {
        resp := Unhandled(SaveFailed);
        return;
      }
      resp := ApiV2Ok(CreatedMessage, map["bk_light_app_code" := l.code]);
    }

    /** `put`: fetches the link and overwrites its fields one at a time. */
    method Put(store: LinkStore, env: Collaborators) returns (resp: Response)
      requires store.Valid()
      modifies store
      ensures store.Valid()
      ensures Step(resp, store.links) == EditStep(old(store.links), requestBodyParams, env)
    {
      var form := env.editionForm(requestBodyParams);
      if form.Failure? {
        resp := ApiV2Fail(form.error, ParamNotValid);
        return;
      }
      var input := form.value;
      var found := Resolve(store.links, input.lightAppCode, env.isUsefulLink);
      if found.None? {
        resp := Unhandled(LinkMissing);
        return;
      }
      var l := found.value;
      l := l.(introduction := if input.introduction != "" then input.introduction else l.introduction);
      l := l.(name := if input.lightAppName != "" then input.lightAppName else l.name);
      l := l.(link := if input.appUrl != "" then input.appUrl else l.link);
      var ok := store.Save(l, env.saves);
      if !ok {
        resp := Unhandled(SaveFailed);
        return;
      }
      resp := ApiV2Ok(EditedMessage, map[]);
    }

    /** `put_logo`. */
    method PutLogo(store: LinkStore, env: Collaborators) returns (resp: Response)
      requires store.Valid()
      modifies store
      ensures store.Valid()
      ensures Step(resp, store.links) == LogoStep(old(store.links), requestBodyParams, env)
    {
      var form := env.logoForm(requestBodyParams);
      if form.Failure? {
        resp := ApiV2Fail(form.error, ParamNotValid);
        return;
      }
      var input := form.value;
      var found := Resolve(store.links, input.lightAppCode, env.isUsefulLink);
      var file := env.decodeLogo(input.logo);
      if file.None? || found.None? {
        resp := ApiV2Fail(LogoInvalidMessage, ParamNotValid);
        return;
      }
      var l := found.value.(logo := file.value);
      var ok := store.Save(l, env.saves);
      if !ok {
        resp := ApiV2Fail(LogoInvalidMessage, ParamNotValid);
        return;
      }
      resp := ApiV2Ok(LogoChangedMessage, map[]);
    }

    /** `delete`. */
    method Delete(store: LinkStore, env: Collaborators) returns (resp: Response)
      requires store.Valid()
      modifies store
      ensures store.Valid()
      ensures Step(resp, store.links) == DeleteStep(old(store.links), requestBodyParams, env)
    {
      var form := env.baseInfoForm(requestBodyParams);
      if form.Failure? {
        resp := ApiV2Fail(form.error, ParamNotValid);
        return;
      }
      var found := Resolve(store.links, form.value.lightAppCode, env.isUsefulLink);
      if found.None? {
        resp := Unhandled(LinkMissing);
        return;
      }
      var l := found.value.(isActive := false);
      var ok := store.Save(l, env.saves);
      if !ok {
        resp := Unhandled(SaveFailed);
        return;
      }
      resp := ApiV2Ok(DeletedMessage, map[]);
    }

    /**
     * `dispatch`: a verb outside `http_method_names` is refused before the
     * body is read; otherwise the path picks the handler, the body is parsed
     * into `requestBodyParams`, and the handler runs whatever the verb was.
     */
    method Dispatch(req: Request, store: LinkStore, apps: seq<AppInfo.App>, env: Collaborators, code: string) returns (resp: Response)
      requires store.Valid() && code !in store.links
      modifies this, store
      ensures store.Valid()
      ensures Step(resp, store.links) == Outcome(req, old(store.links), apps, env, code)
      ensures requestBodyParams == if BodyParsed(req) then BodyParams(req.body, env.decodeJson) else old(requestBodyParams)
    {
      if !Allowed(req.verb) {
        resp := MethodNotAllowed;
        return;
      }
      var handlerPath := SecondToLast(req.path);
      if handlerPath.None? {
        resp := Unhandled(PathTooShort);
        return;
      }
      SetBodyParams(req.body, env.decodeJson);
      var handler := HandlerFor(handlerPath.value);
      if handler.None? {
        resp := Unhandled(NoHandler(handlerPath.value));
        return;
      }
      match handler.value
      case Create => resp := Post(store, apps, env, code);
      case Edit => resp := Put(store, env);
      case ChangeLogo => resp := PutLogo(store, env);
      case Delete => resp := Delete(store, env);
    }
  }
}
