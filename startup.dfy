/**
 * The server's one piece of state: the global client configuration, empty
 * until `startup_event` loads it from the configuration file.
 */
module Startup {
  import opened PyJson
  import opened Protocol
  import Gateway

  /** What reading and parsing the configuration file gave. */
  datatype ConfigSource =
    | FileMissing       // FileNotFoundError
    | ReadFailed        // any other error while opening, reading or parsing
    | Parsed(doc: Json) // the decoded document

  /** The fallback configuration: a dict with an empty client table. */
  const EmptyConfig: Json := JObj(map["clients" := JObj(map[])])

  /** A value Python's `len` accepts, among decoded JSON values. */
  predicate Sized(j: Json) {
    j.JObj? || j.JArr? || j.JStr?
  }

  /**
   * A document the startup log line can count the clients of: a dict whose
   * `clients`, if present, has a length. Any other document makes that line
   * raise inside the `try`, and the fallback is installed instead.
   */
  predicate Loadable(doc: Json) {
    doc.JObj? && ("clients" in doc.fields ==> Sized(doc.fields["clients"]))
  }

  /** The configuration `startup_event` leaves behind. */
  function LoadedConfig(source: ConfigSource): (config: Json)
    ensures Loadable(config)
    ensures source.Parsed? && Loadable(source.doc) ==> config == source.doc
    ensures !(source.Parsed? && Loadable(source.doc)) ==>
      Gateway.DictConfig(config) && Gateway.Table(config) == map[]
  {
    match source
    case Parsed(doc) => if Loadable(doc) then doc else EmptyConfig
    case _ => EmptyConfig
  }

  class Server {
    var config: Json

    /** The configuration has a shape the gate can evaluate without a top-level exception. */
    ghost predicate Valid()
      reads this
    {
      Loadable(config)
    }

    /** The module-level `client_config = {}` before startup. */
    constructor ()
      ensures Valid()
      ensures config == EmptyObject
    {
      config := EmptyObject;
    }

    /** `startup_event`: installs the parsed document, or the fallback when anything failed. */
    method Startup(source: ConfigSource)
      modifies this
      ensures Valid()
      ensures config == LoadedConfig(source)
    {
      match source {
        case FileMissing =>
          config := EmptyConfig;
        case ReadFailed =>
          config := EmptyConfig;
        case Parsed(doc) =>
          config := doc;
          if !Loadable(config) {
            // the log line's len(client_config.get('clients', {})) raised
            config := EmptyConfig;
          }
      }
    }

    /**
     * `mcp_endpoint` on the current configuration. On a configuration that
     * startup accepted, the only exceptions that escape are indexing a list
     * or string client table that contains the id, and a record that is not
     * a dict.
     */
    method Post(clientId: string, request: Request) returns (o: Outcome)
      requires Valid()
      ensures o == Gateway.Endpoint(config, clientId, request)
      ensures o.Crashed? ==> o.fault == NotSubscriptable(clientId) || o.fault == NoGet("active")
    {
      o := Gateway.Endpoint(config, clientId, request);
    }
  }

  /** A missing or unreadable configuration file makes every later MCP request a 404. */
  lemma FailedLoadRejectsAll(source: ConfigSource, clientId: string, request: Request)
    requires !source.Parsed?
    ensures Gateway.Endpoint(LoadedConfig(source), clientId, request) == NotFound
  {
  }

  /** So does a document startup could not count the clients of. */
  lemma UnloadableDocRejectsAll(doc: Json, clientId: string, request: Request)
    requires !Loadable(doc)
    ensures Gateway.Endpoint(LoadedConfig(Parsed(doc)), clientId, request) == NotFound
  {
  }

  /**
   * A client table that is a list or a string passes the membership test by
   * element or by substring, and the lookup that follows raises: such an id
   * gets a 500, every other id a 404.
   */
  lemma NonDictTableOutcome(config: Json, clientId: string, request: Request)
    requires Loadable(config) && "clients" in config.fields
    requires config.fields["clients"].JArr? || config.fields["clients"].JStr?
    ensures Gateway.Endpoint(config, clientId, request) ==
      if Contains(config.fields["clients"], clientId) == Wrappers.Ok(true)
      then Crashed(NotSubscriptable(clientId))
      else NotFound
  {
  }
}
