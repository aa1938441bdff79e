/**
 * The remote provider that also reports to the agent backend. It sends the
 * same requests and keeps the same status as the plain remote provider; in
 * addition every successful operation, and only a successful one, appends a
 * record to the backend log after its response has been checked. The
 * backend's own write failures are swallowed there, so recording never throws.
 */
module AgentIntegratedData {
  import opened Wrappers
  import opened BrowserTypes
  import opened Remote
  import LiveData
  import Js

  /** `recordBrowserCommand`'s payload. */
  datatype CommandRecord =
    | CreateTabCommand(requestedUrl: Option<string>)
    | CloseTabCommand(tabId: string)
    | SwitchTabCommand(tabId: string)
    | NavigateCommand(url: string, targetTab: Option<string>)
    | ToggleMuteCommand(tabId: string, muted: bool)

  /** One call into the agent backend. */
  datatype BackendRecord =
    | SessionStatus(status: ConnectionStatus)
    | TabsUpdate(tabs: seq<Tab>)
    | Command(command: CommandRecord)

  /** The record appended after a command: one entry when it succeeded, none when it threw. */
  function RecordedIf<T>(result: Result<T, Failure>, r: BackendRecord): (log: seq<BackendRecord>)
    ensures |log| <= 1
    ensures log == [r] <==> result.Ok?
  {
    if result.Ok? then [r] else []
  }

  class AgentIntegratedDataSource {
    const apiUrl: string
    var connectionStatus: ConnectionStatus
    var healthCheckInterval: Option<nat>
    /** What has been sent to the agent backend, oldest first. */
    var records: seq<BackendRecord>

    constructor (apiUrl: string, interval: nat)
      ensures this.apiUrl == TrimTrailingSlash(apiUrl)
      ensures connectionStatus == Disconnected
      ensures healthCheckInterval == Some(interval)
      ensures records == []
    {
      this.apiUrl := TrimTrailingSlash(apiUrl);
      connectionStatus := Disconnected;
      healthCheckInterval := Some(interval);
      records := [];
    }

    /** One run of the periodic probe: the status is set from the answer and reported as it is. */
    method HealthProbe(outcome: Outcome) returns (request: Request)
      modifies this`connectionStatus, this`records
      ensures request == Request(GET, HealthUrl(apiUrl), None)
      ensures connectionStatus == HealthStatus(outcome)
      ensures records == old(records) + [SessionStatus(connectionStatus)]
    {
      request := Request(GET, HealthUrl(apiUrl), None);
      if outcome.Answered? {
        connectionStatus := if outcome.response.ok then Connected else Disconnected;
        records := records + [SessionStatus(connectionStatus)];
      } else {
        connectionStatus := Disconnected;
        records := records + [SessionStatus(Disconnected)];
      }
    }

    method FetchTabs(outcome: Outcome) returns (request: Request, result: Result<seq<Tab>, Failure>)
      modifies this`connectionStatus, this`records
      ensures request == Request(GET, TabsUrl(apiUrl), None)
      ensures result == FetchResult(outcome)
      ensures connectionStatus == if result.Ok? then Connected else Disconnected
      ensures records == old(records) + if result.Ok? then [TabsUpdate(result.value)] else []
    {
      connectionStatus := Connecting;
      request := Request(GET, TabsUrl(apiUrl), None);
      var body := OkBody(outcome);
      if body.Err? {
        connectionStatus := Disconnected;
        result := Err(body.error);
        return;
      }
      connectionStatus := Connected;
      result := TabsOf(body.value);
      if result.Err? {
        connectionStatus := Disconnected;
        return;
      }
      records := records + [TabsUpdate(result.value)];
    }

    /** The request carries `url || 'about:blank'`; the record carries the url exactly as requested. */
    method CreateTab(command: TabCommand, outcome: Outcome) returns (request: Request, result: Result<Tab, Failure>)
      modifies this`records
      ensures request == Request(POST, TabsUrl(apiUrl), Some(CreateBody(command)))
      ensures result == CreateResult(outcome)
      ensures records == old(records) + RecordedIf(result, Command(CreateTabCommand(command.url)))
    {
      request := Request(POST, TabsUrl(apiUrl), Some(CreateBody(command)));
      var body := OkBody(outcome);
      if body.Err? {
        return request, Err(body.error);
      }
      result := TabOf(body.value);
      if result.Ok? {
        records := records + [Command(CreateTabCommand(command.url))];
      }
    }

    method CloseTab(tabId: string, outcome: Outcome) returns (request: Request, result: Result<(), Failure>)
      modifies this`records
      ensures request == Request(DELETE, TabUrl(apiUrl, tabId), None)
      ensures result == CommandResult(outcome)
      ensures records == old(records) + RecordedIf(result, Command(CloseTabCommand(tabId)))
    {
      request := Request(DELETE, TabUrl(apiUrl, tabId), None);
      result := LiveData.CheckOk(outcome);
      if result.Ok? {
        records := records + [Command(CloseTabCommand(tabId))];
      }
    }

    method SwitchTab(tabId: string, outcome: Outcome) returns (request: Request, result: Result<(), Failure>)
      modifies this`records
      ensures request == Request(POST, ActivateUrl(apiUrl, tabId), None)
      ensures result == CommandResult(outcome)
      ensures records == old(records) + RecordedIf(result, Command(SwitchTabCommand(tabId)))
    {
      request := Request(POST, ActivateUrl(apiUrl, tabId), None);
      result := LiveData.CheckOk(outcome);
      if result.Ok? {
        records := records + [Command(SwitchTabCommand(tabId))];
      }
    }

    method Navigate(command: NavigationCommand, outcome: Outcome) returns (request: Request, result: Result<(), Failure>)
      modifies this`records
      ensures request == Request(POST, NavigateUrl(apiUrl), Some(NavigateBody(command)))
      ensures result == CommandResult(outcome)
      ensures records == old(records) + RecordedIf(result, Command(NavigateCommand(command.url, command.tabId)))
    {
      request := Request(POST, NavigateUrl(apiUrl), Some(NavigateBody(command)));
      result := LiveData.CheckOk(outcome);
      if result.Ok? {
        records := records + [Command(NavigateCommand(command.url, command.tabId))];
      }
    }

    method ToggleMute(command: AudioCommand, outcome: Outcome) returns (request: Request, result: Result<(), Failure>)
      modifies this`records
      ensures request == Request(POST, AudioUrl(apiUrl, command.tabId), Some(AudioBody(command)))
      ensures result == CommandResult(outcome)
      ensures records == old(records) + RecordedIf(result, Command(ToggleMuteCommand(command.tabId, command.muted)))
    {
      request := Request(POST, AudioUrl(apiUrl, command.tabId), Some(AudioBody(command)));
      result := LiveData.CheckOk(outcome);
      if result.Ok? {
        records := records + [Command(ToggleMuteCommand(command.tabId, command.muted))];
      }
    }

    function GetConnectionStatus(): ConnectionStatus
      reads this
    {
      connectionStatus
    }

    method Cleanup() returns (cleared: Option<nat>)
      modifies this`healthCheckInterval
      ensures cleared == old(healthCheckInterval)
      ensures healthCheckInterval.None?
    {
      cleared := healthCheckInterval;
      if healthCheckInterval.Some? {
        healthCheckInterval := None;
      }
    }
  }

  /** The create record keeps an absent or empty url as it was, although the request sent `about:blank`. */
  lemma CreateRecordKeepsRequestedUrl(command: TabCommand)
    requires command.url.None? || command.url == Some("")
    ensures CreateBody(command) == Js.Obj(map["url" := Js.Str("about:blank")])
    ensures CreateTabCommand(command.url).requestedUrl != Some("about:blank")
  {
  }
}
