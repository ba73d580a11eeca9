/**
 * The host services the library runs against: the durable option store
 * (`get_option`, `update_option`, `delete_option`), the transient cache
 * (`get_transient`, `set_transient`, `delete_transient`), the site
 * transients, the outbound HTTP transport to the licensing service
 * (`wp_remote_get`), the request being served, and the few library
 * functions whose results the core only passes along.
 */
module Wordpress {
  import opened Php

  /** A cached entry: the value and the expiration, in seconds, it was stored with.
      Time does not pass in this model; the host owns expiry. */
  datatype Transient = Transient(value: Value, ttl: int)

  /** `get_option($name)`: the stored value, or false when there is none. */
  function OptionValue(options: map<string, Value>, name: string): (v: Value)
    ensures name !in options ==> v == Bool(false)
  {
    if name in options then options[name] else Bool(false)
  }

  /** `get_transient($key)`: the stored value, or false on a miss. */
  function TransientValue(store: map<string, Transient>, key: string): (v: Value)
    ensures key !in store ==> v == Bool(false)
  {
    if key in store then store[key].value else Bool(false)
  }

  /** The host's stores, as one mutable object. */
  class Host {
    var options: map<string, Value>
    var transients: map<string, Transient>
    var siteTransients: map<string, Value>

    constructor (options: map<string, Value>, transients: map<string, Transient>, siteTransients: map<string, Value>)
      ensures this.options == options && this.transients == transients
      ensures this.siteTransients == siteTransients
    {
      this.options := options;
      this.transients := transients;
      this.siteTransients := siteTransients;
    }

    function GetOption(name: string): Value
      reads this
    {
      OptionValue(options, name)
    }

    method UpdateOption(name: string, value: Value)
      modifies this
      ensures options == old(options)[name := value]
      ensures transients == old(transients) && siteTransients == old(siteTransients)
    {
      options := options[name := value];
    }

    method DeleteOption(name: string)
      modifies this
      ensures options == old(options) - {name}
      ensures transients == old(transients) && siteTransients == old(siteTransients)
    {
      options := options - {name};
    }

    function GetTransient(key: string): Value
      reads this
    {
      TransientValue(transients, key)
    }

    method SetTransient(key: string, value: Value, ttl: int)
      modifies this
      ensures transients == old(transients)[key := Transient(value, ttl)]
      ensures options == old(options) && siteTransients == old(siteTransients)
    {
      transients := transients[key := Transient(value, ttl)];
    }

    method DeleteTransient(key: string)
      modifies this
      ensures transients == old(transients) - {key}
      ensures options == old(options) && siteTransients == old(siteTransients)
    {
      transients := transients - {key};
    }

    method DeleteSiteTransient(key: string)
      modifies this
      ensures siteTransients == old(siteTransients) - {key}
      ensures options == old(options) && transients == old(transients)
    {
      siteTransients := siteTransients - {key};
    }
  }

  /** What `wp_remote_get` hands back: a transport failure (`WP_Error`) with its
      message, or a reply whose body is given as the value `json_decode($body, true)`
      produces (null for a body that does not decode). */
  datatype Transport = TransportError(message: string) | Reply(body: Value)

  /** One GET request to the licensing service: the path relative to the API
      base URL and the query parameters. */
  datatype Call = Call(path: string, params: map<string, Value>)

  /** The licensing service behind `wp_remote_get`. Its answers are an oracle
      of the call and of how many calls came before it; every call is logged. */
  class Remote {
    const respond: (nat, Call) -> Transport
    var log: seq<Call>

    constructor (respond: (nat, Call) -> Transport)
      ensures this.respond == respond && log == []
    {
      this.respond := respond;
      log := [];
    }

    /** The answer the next call `c` would receive. */
    function Next(c: Call): Transport
      reads this
    {
      respond(|log|, c)
    }

    method Get(c: Call) returns (t: Transport)
      modifies this
      ensures log == old(log) + [c]
      ensures t == old(Next(c))
    {
      t := respond(|log|, c);
      log := log + [c];
    }
  }

  /** The request being served and the environment values the core reads. */
  datatype Request = Request(
    isPost: bool,                          // $_SERVER['REQUEST_METHOD'] === 'POST'
    isAdmin: bool,                         // is_admin()
    canManageOptions: bool,                // current_user_can('manage_options')
    query: map<string, string>,            // $_GET
    dlm: map<string, map<string, string>>, // $_POST['dlm']
    homeUrl: string,                       // home_url()
    phpVersion: string,                    // PHP_VERSION
    wpVersion: Value,                      // global $wp_version
    serverSoftware: Value)                 // $_SERVER['SERVER_SOFTWARE'] ?? null

  /** Library functions whose results the core only stores or passes on. */
  datatype Library = Library(
    md5: string -> string,                                // md5()
    addQueryArg: (map<string, Value>, string) -> string,  // add_query_arg()
    formatDate: string -> string,                         // DateTime + get_option('date_format')
    daysBetween: (string, string) -> int,                 // DateTime::diff()->days
    now: string)                                          // date('Y-m-d H:i:s')
}
