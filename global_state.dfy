/**
 * The process-wide state both refresh loops and the HTTP handlers share: the settings,
 * the application cache and the current Graph API token.
 *
 * Each mutable cell is behind its own reader/writer lock in the source. What a loop does
 * while holding a write lock is a method, or part of one, that no other code interleaves
 * with: the token write is one assignment, the cache replacement a clear followed by one
 * insertion per application. The HTTP client is represented only by its request timeout.
 */
module State {
  import opened Applications
  import Settings

  /** The outcome label a refresh cycle is recorded under. */
  datatype Status = Success | Fail
  {
    function Label(): (r: string)
      ensures r == "success" <==> this == Success
      ensures r == "fail" <==> this == Fail
    {
      match this
      case Success => "success"
      case Fail => "fail"
    }
  }

  /** The overall timeout every outbound request is built with, in milliseconds. */
  const RequestTimeoutMillis: nat := 2 * 60 * 1000

  class GlobalState {
    /** Fixed at start-up; the source never takes a lock on it, so it is never written. */
    const settings: Settings.Settings
    const requestTimeoutMillis: nat
    /** Application id -> application, as last published by the applications updater. */
    var applications: map<string, AzureApplication>
    /** The bearer token; empty until the token updater first succeeds. */
    var azureApiToken: string

    constructor (settings: Settings.Settings)
      ensures this.settings == settings
      ensures requestTimeoutMillis == RequestTimeoutMillis
      ensures applications == map[]
      ensures azureApiToken == ""
    {
      this.settings := settings;
      requestTimeoutMillis := RequestTimeoutMillis;
      applications := map[];
      azureApiToken := "";
    }
  }
}
