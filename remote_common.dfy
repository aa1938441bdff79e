/**
 * What the two remote providers have in common: the requests they send, the
 * outcome of a request (the network is a parameter), the error rule for
 * commands, and how a fetched or created tab is read out of a response.
 */
module Remote {
  import opened Wrappers
  import opened Js
  import opened BrowserTypes
  import TabNormalizer

  datatype HttpMethod = GET | POST | DELETE

  /** A request: method, full url and JSON body (absent for bodiless requests). */
  datatype Request = Request(verb: HttpMethod, url: string, body: Option<JsValue>)

  /** A response: the `ok` flag, the status code, and the parsed body (`None` when `json()` throws). */
  datatype Response = Response(ok: bool, status: int, json: Option<JsValue>)

  /** What `fetch` delivers: a rejection (network error, timeout) or a response. */
  datatype Outcome = Rejected | Answered(response: Response)

  /** Why an operation threw. */
  datatype Failure =
    | NetworkError               // `fetch` rejected
    | HttpError(status: int)     // `Failed to …: <status>`
    | MalformedBody              // `json()` or the normaliser threw

  /** `apiUrl.replace(/\/$/, '')`: one trailing slash removed, nothing else. */
  function TrimTrailingSlash(url: string): (r: string)
    ensures r == url || r + "/" == url
    ensures (|url| > 0 && url[|url| - 1] == '/') <==> r + "/" == url
  {
    if |url| > 0 && url[|url| - 1] == '/' then url[..|url| - 1] else url
  }

  function HealthUrl(api: string): string { api + "/health" }
  function TabsUrl(api: string): string { api + "/tabs" }
  function TabUrl(api: string, id: string): string { api + "/tabs/" + id }
  function ActivateUrl(api: string, id: string): string { api + "/tabs/" + id + "/activate" }
  function NavigateUrl(api: string): string { api + "/navigate" }
  function AudioUrl(api: string, id: string): string { api + "/tabs/" + id + "/audio" }

  const HealthCheckPeriod := 10000
  const HealthCheckTimeout := 5000

  /** The body of `createTab`: the requested url, or `about:blank` when it is absent or empty. */
  function CreateBody(command: TabCommand): JsValue
  {
    Obj(map["url" := Str(if command.url.Some? && command.url.value != "" then command.url.value else "about:blank")])
  }

  /** The body of `navigate`; `JSON.stringify` drops an undefined `tabId`. */
  function NavigateBody(command: NavigationCommand): JsValue
  {
    Obj(map["url" := Str(command.url)] + (if command.tabId.Some? then map["tabId" := Str(command.tabId.value)] else map[]))
  }

  function AudioBody(command: AudioCommand): JsValue
  {
    Obj(map["muted" := Bool(command.muted)])
  }

  /** The rule every command follows: it throws unless `fetch` answered with an ok response. */
  function CommandResult(outcome: Outcome): Result<(), Failure>
  {
    match outcome
    case Rejected => Err(NetworkError)
    case Answered(resp) => if resp.ok then Ok(()) else Err(HttpError(resp.status))
  }

  /** The parsed body of an ok response, or why it could not be had. */
  function OkBody(outcome: Outcome): Result<JsValue, Failure>
  {
    match outcome
    case Rejected => Err(NetworkError)
    case Answered(resp) =>
      if !resp.ok then Err(HttpError(resp.status))
      else if resp.json.None? then Err(MalformedBody)
      else Ok(resp.json.value)
  }

  /** `normalizeTabs(data.tabs || data)`; reading `.tabs` of `null` throws. */
  function TabsOf(data: JsValue): Result<seq<Tab>, Failure>
  {
    if IsNullish(data) then Err(MalformedBody)
    else match TabNormalizer.NormalizeTabs(Or(Get(data, "tabs"), data))
      case None => Err(MalformedBody)
      case Some(tabs) => Ok(tabs)
  }

  /** `normalizeTab(data.tab || data)`. */
  function TabOf(data: JsValue): Result<Tab, Failure>
  {
    if IsNullish(data) then Err(MalformedBody)
    else match TabNormalizer.NormalizeTab(Or(Get(data, "tab"), data))
      case None => Err(MalformedBody)
      case Some(t) => Ok(t)
  }

  function FetchResult(outcome: Outcome): Result<seq<Tab>, Failure>
  {
    match OkBody(outcome)
    case Err(e) => Err(e)
    case Ok(data) => TabsOf(data)
  }

  function CreateResult(outcome: Outcome): Result<Tab, Failure>
  {
    match OkBody(outcome)
    case Err(e) => Err(e)
    case Ok(data) => TabOf(data)
  }

  /** The health probe's verdict: connected exactly when the server answered ok. */
  function HealthStatus(outcome: Outcome): (st: ConnectionStatus)
    ensures st == Connected <==> outcome.Answered? && outcome.response.ok
    ensures st != Connecting
  {
    if outcome.Answered? && outcome.response.ok then Connected else Disconnected
  }

  /** A command succeeds exactly on an ok answer; a non-ok answer reports its status. */
  lemma CommandResultSpec(outcome: Outcome)
    ensures CommandResult(outcome).Ok? <==> outcome.Answered? && outcome.response.ok
    ensures outcome.Answered? && !outcome.response.ok ==>
      CommandResult(outcome) == Err(HttpError(outcome.response.status))
  {
  }

  /**
   * A fetch succeeds only on an ok answer with a parsable body; the list is
   * read from `tabs` when that field is truthy, otherwise from the body
   * itself, and a server list written from tabs comes back unchanged.
   */
  lemma FetchResultSpec(outcome: Outcome, tabs: seq<Tab>)
    ensures FetchResult(outcome).Ok? ==> outcome.Answered? && outcome.response.ok && outcome.response.json.Some?
    ensures outcome.Answered? && !outcome.response.ok ==> FetchResult(outcome) == Err(HttpError(outcome.response.status))
    ensures (forall i :: 0 <= i < |tabs| ==>
               tabs[i].id != "" && tabs[i].title != "" && tabs[i].url != "" && tabs[i].icon != ""
               && tabs[i].hasAudio.Some? && tabs[i].isMuted.Some?) ==>
      && FetchResult(Answered(Response(true, 200, Some(Obj(map["tabs" := TabNormalizer.TabsToJson(tabs)]))))) == Ok(tabs)
      && FetchResult(Answered(Response(true, 200, Some(TabNormalizer.TabsToJson(tabs))))) == Ok(tabs)
  {
    if forall i :: 0 <= i < |tabs| ==>
         tabs[i].id != "" && tabs[i].title != "" && tabs[i].url != "" && tabs[i].icon != ""
         && tabs[i].hasAudio.Some? && tabs[i].isMuted.Some? {
      TabNormalizer.NormalizeTabsToJson(tabs);
      var arr := TabNormalizer.TabsToJson(tabs);
      assert Get(Obj(map["tabs" := arr]), "tabs") == arr;
      assert Get(arr, "tabs") == Undefined;
    }
  }

  /** A created tab is read from `tab` when that field is truthy, otherwise from the body itself. */
  lemma CreateResultSpec(outcome: Outcome, t: Tab)
    ensures CreateResult(outcome).Ok? ==> outcome.Answered? && outcome.response.ok && outcome.response.json.Some?
    ensures outcome.Answered? && !outcome.response.ok ==> CreateResult(outcome) == Err(HttpError(outcome.response.status))
    ensures t.id != "" && t.title != "" && t.url != "" && t.icon != "" && t.hasAudio.Some? && t.isMuted.Some? ==>
      && CreateResult(Answered(Response(true, 201, Some(Obj(map["tab" := TabNormalizer.TabToJson(t)]))))) == Ok(t)
      && CreateResult(Answered(Response(true, 201, Some(TabNormalizer.TabToJson(t))))) == Ok(t)
  {
    if t.id != "" && t.title != "" && t.url != "" && t.icon != "" && t.hasAudio.Some? && t.isMuted.Some? {
      TabOfWrapped(t);
      TabOfBare(t);
    }
  }

  lemma TabOfWrapped(t: Tab)
    requires t.id != "" && t.title != "" && t.url != "" && t.icon != "" && t.hasAudio.Some? && t.isMuted.Some?
    ensures TabOf(Obj(map["tab" := TabNormalizer.TabToJson(t)])) == Ok(t)
  {
    TabNormalizer.NormalizeTabToJson(t);
    var j := TabNormalizer.TabToJson(t);
    var w := Obj(map["tab" := j]);
    assert Get(w, "tab") == j;
    TabOfRecord(w, j, t);
  }

  lemma TabOfBare(t: Tab)
    requires t.id != "" && t.title != "" && t.url != "" && t.icon != "" && t.hasAudio.Some? && t.isMuted.Some?
    ensures TabOf(TabNormalizer.TabToJson(t)) == Ok(t)
  {
    TabNormalizer.NormalizeTabToJson(t);
    var j := TabNormalizer.TabToJson(t);
    NoTabField(t);
    TabOfRecord(j, j, t);
  }

  /** A tab's own record has no `tab` field. */
  lemma NoTabField(t: Tab)
    ensures Get(TabNormalizer.TabToJson(t), "tab") == Undefined
  {
    assert "tab" !in TabNormalizer.TabToJson(t).fields;
  }

  /** `data.tab || data` picks the record that is normalised. */
  lemma TabOfRecord(data: JsValue, raw: JsValue, t: Tab)
    requires !IsNullish(data) && Or(Get(data, "tab"), data) == raw
    requires TabNormalizer.NormalizeTab(raw) == Some(t)
    ensures TabOf(data) == Ok(t)
  {
  }
}
