/**
 * The provider that talks to a browser-control server over HTTP. Each
 * operation takes the outcome of its `fetch` as a parameter and returns the
 * request it sends together with its result (`Err` where the program throws).
 */
module LiveData {
  import opened Wrappers
  import opened BrowserTypes
  import opened Remote

  class LiveDataSource {
    const apiUrl: string
    var connectionStatus: ConnectionStatus
    /** The handle of the periodic health probe, `None` once cleaned up. */
    var healthCheckInterval: Option<nat>

    /** Trims one trailing slash and starts the health probe, whose timer handle is `interval`. */
    constructor (apiUrl: string, interval: nat)
      ensures this.apiUrl == TrimTrailingSlash(apiUrl)
      ensures connectionStatus == Disconnected
      ensures healthCheckInterval == Some(interval)
    {
      this.apiUrl := TrimTrailingSlash(apiUrl);
      connectionStatus := Disconnected;
      healthCheckInterval := Some(interval);
    }

    /** One run of the periodic probe: it never throws. */
    method HealthProbe(outcome: Outcome) returns (request: Request)
      modifies this`connectionStatus
      ensures request == Request(GET, HealthUrl(apiUrl), None)
      ensures connectionStatus == HealthStatus(outcome)
    {
      request := Request(GET, HealthUrl(apiUrl), None);
      if outcome.Answered? {
        connectionStatus := if outcome.response.ok then Connected else Disconnected;
      } else {
        connectionStatus := Disconnected;
      }
    }

    /** Status goes to `connecting` while waiting, then `connected` on success and `disconnected` on any failure. */
    method FetchTabs(outcome: Outcome) returns (request: Request, result: Result<seq<Tab>, Failure>)
      modifies this`connectionStatus
      ensures request == Request(GET, TabsUrl(apiUrl), None)
      ensures result == FetchResult(outcome)
      ensures connectionStatus == if result.Ok? then Connected else Disconnected
    {
      connectionStatus := Connecting;
      request := Request(GET, TabsUrl(apiUrl), None);
      var body := OkBody(outcome);
      if body.Err? {
        connectionStatus := Disconnected;
        result := Err(body.error);
        return;
      }
      connectionStatus := Connected;
      result := TabsOf(body.value);
      if result.Err? {
        connectionStatus := Disconnected;
      }
    }

    method CreateTab(command: TabCommand, outcome: Outcome) returns (request: Request, result: Result<Tab, Failure>)
      ensures request == Request(POST, TabsUrl(apiUrl), Some(CreateBody(command)))
      ensures result == CreateResult(outcome)
    {
      request := Request(POST, TabsUrl(apiUrl), Some(CreateBody(command)));
      var body := OkBody(outcome);
      if body.Err? {
        return request, Err(body.error);
      }
      result := TabOf(body.value);
    }

    method CloseTab(tabId: string, outcome: Outcome) returns (request: Request, result: Result<(), Failure>)
      ensures request == Request(DELETE, TabUrl(apiUrl, tabId), None)
      ensures result == CommandResult(outcome)
    {
      request := Request(DELETE, TabUrl(apiUrl, tabId), None);
      result := CheckOk(outcome);
    }

    method SwitchTab(tabId: string, outcome: Outcome) returns (request: Request, result: Result<(), Failure>)
      ensures request == Request(POST, ActivateUrl(apiUrl, tabId), None)
      ensures result == CommandResult(outcome)
    {
      request := Request(POST, ActivateUrl(apiUrl, tabId), None);
      result := CheckOk(outcome);
    }

    method Navigate(command: NavigationCommand, outcome: Outcome) returns (request: Request, result: Result<(), Failure>)
      ensures request == Request(POST, NavigateUrl(apiUrl), Some(NavigateBody(command)))
      ensures result == CommandResult(outcome)
    {
      request := Request(POST, NavigateUrl(apiUrl), Some(NavigateBody(command)));
      result := CheckOk(outcome);
    }

    method ToggleMute(command: AudioCommand, outcome: Outcome) returns (request: Request, result: Result<(), Failure>)
      ensures request == Request(POST, AudioUrl(apiUrl, command.tabId), Some(AudioBody(command)))
      ensures result == CommandResult(outcome)
    {
      request := Request(POST, AudioUrl(apiUrl, command.tabId), Some(AudioBody(command)));
      result := CheckOk(outcome);
    }

    function GetConnectionStatus(): ConnectionStatus
      reads this
    {
      connectionStatus
    }

    /** Stops the probe; a second call finds no handle and does nothing. */
    method Cleanup() returns (cleared: Option<nat>)
      modifies this`healthCheckInterval
      ensures cleared == old(healthCheckInterval)
      ensures healthCheckInterval.None?
    {
      cleared := healthCheckInterval;
      if healthCheckInterval.Some? {
        healthCheckInterval := None;
      }
    }
  }

  /** `if (!response.ok) throw …` after awaiting the request. */
  method CheckOk(outcome: Outcome) returns (result: Result<(), Failure>)
    ensures result == CommandResult(outcome)
  {
    match outcome {
      case Rejected => result := Err(NetworkError);
      case Answered(resp) =>
        if !resp.ok {
          result := Err(HttpError(resp.status));
        } else {
          result := Ok(());
        }
    }
  }
}
