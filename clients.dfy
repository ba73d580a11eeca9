/**
 * The caching API client of src/Http/Client.php: request builders for the
 * licensing service, the normalisation of every transport outcome into a
 * Response, and read-through caches for the software information and the
 * license validation, kept in the host's transient store.
 */
module Clients {
  import opened Php
  import opened Wordpress
  import opened Responses
  import opened Models

  const MinuteInSeconds := 60
  const HourInSeconds := 3600

  /** The cache lifetimes the client starts from, in the order its constructor visits them. */
  const DefaultTtls: seq<(string, int)> := [("info", MinuteInSeconds * 15), ("validateLicense", HourInSeconds * 1)]

  /** The lifetime an error response is cached for. */
  const ErrorTtl := 1

  const DecodeFailure := "Unable to decode response. (1)"
  const MissingData := "Unable to decode response. (2)"

  /** The lifetime for `name`: `cache_ttl_<name>` when it is set and numeric, else `default`. */
  function ConfiguredTtl(args: map<string, Value>, name: string, default: int): int {
    var arg := "cache_ttl_" + name;
    if IsSet(args, arg) && IsNumeric(args[arg]) then IntCast(args[arg]) else default
  }

  /** An override applies only when the matching argument is numeric; an
      integer given as a number or as its decimal string is taken as given. */
  lemma ConfiguredTtlSpec(args: map<string, Value>, name: string, default: int, n: int)
    ensures !IsSet(args, "cache_ttl_" + name) ==> ConfiguredTtl(args, name, default) == default
    ensures IsSet(args, "cache_ttl_" + name) && !IsNumeric(args["cache_ttl_" + name])
      ==> ConfiguredTtl(args, name, default) == default
    ensures "cache_ttl_" + name in args && args["cache_ttl_" + name] == Int(n)
      ==> ConfiguredTtl(args, name, default) == n
    ensures "cache_ttl_" + name in args && args["cache_ttl_" + name] == Str(IntToString(n))
      ==> ConfiguredTtl(args, name, default) == n
  {
    IntToStringRoundTrip(n);
  }

  /** `substr($s, 0, $n)`. */
  function Head(s: string, n: nat): (r: string)
    ensures r <= s && |r| == if |s| < n then |s| else n
  {
    if |s| <= n then s else s[..n]
  }

  // ---------------------------------------------------------------------
  // Requests to the licensing service

  function ActivateCall(licenseKey: Value, params: map<string, Value>): Call {
    Call("licenses/activate/" + ToStr(licenseKey), params)
  }

  function DeactivateCall(token: Value, params: map<string, Value>): Call {
    Call("licenses/deactivate/" + ToStr(token), params)
  }

  function ValidateCall(token: Value): Call {
    Call("licenses/validate/" + ToStr(token), map[])
  }

  /** The parameters of `info()`: the type, and the activation token when it is not empty. */
  function InfoParams(kind: string, token: Value): (p: map<string, Value>)
    ensures "activation_token" in p <==> !Empty(token)
    ensures "activation_token" in p ==> p["activation_token"] == token
    ensures p.Keys <= {"type", "activation_token"} && "type" in p && p["type"] == Str(kind)
  {
    var p := map["type" := Str(kind)];
    if !Empty(token) then p["activation_token" := token] else p
  }

  function InfoCall(e: Entity, kind: string, token: Value): Call {
    Call("software/" + ToStr(e.id), InfoParams(kind, token))
  }

  // ---------------------------------------------------------------------
  // Normalising the transport outcome

  /** The body carries a structured API error: a `message` and a `data.status`. */
  predicate IsStructuredError(body: Value) {
    body.Arr? && IsSet(body.entries, "message") && Dig(body, "data", "status").Some?
  }

  /** The body decodes to an array that is not a structured error and has `data`. */
  predicate IsSuccessBody(body: Value) {
    body.Arr? && !IsStructuredError(body) && IsSet(body.entries, "data")
  }

  /** `_result($response, true)` as a value: what the Response holds once built. */
  function Classify(t: Transport): Envelope {
    match t
    case TransportError(m) => Envelope(Str("http_error"), Str(m), Arr(map[]), Some(t))
    case Reply(body) =>
      if !body.Arr? then Envelope(Str(""), Str(DecodeFailure), Arr(map[]), Some(t))
      else if IsStructuredError(body) then Envelope(Lookup(body, "code"), body.entries["message"], Arr(map[]), Some(t))
      else if !IsSet(body.entries, "data") then Envelope(Str(""), Str(MissingData), Arr(map[]), Some(t))
      else Envelope(Str(""), Str(""), body.entries["data"], Some(t))
  }

  /** The four outcomes of `_result`, one for each kind of input; the raw
      transport result is always kept. */
  lemma ClassifyOutcomes(t: Transport)
    ensures Classify(t).raw == Some(t)
    ensures t.TransportError? ==> Classify(t) == Envelope(Str("http_error"), Str(t.message), Arr(map[]), Some(t))
    ensures t.Reply? && !t.body.Arr? ==> Classify(t).error == Str(DecodeFailure) && Classify(t).IsError()
    ensures t.Reply? && IsStructuredError(t.body)
      ==> Classify(t).error == t.body.entries["message"] && Classify(t).code == Lookup(t.body, "code")
    ensures t.Reply? && t.body.Arr? && !IsStructuredError(t.body) && !IsSet(t.body.entries, "data")
      ==> Classify(t).error == Str(MissingData) && Classify(t).IsError()
    ensures t.Reply? && IsSuccessBody(t.body)
      ==> Classify(t).data == t.body.entries["data"] && Classify(t).error == Str("") && !Classify(t).IsError()
  {
  }

  /** No error branch sets the payload: an error envelope carries the empty array. */
  lemma ErrorCarriesNoData(t: Transport)
    ensures Classify(t).IsError() ==> Classify(t).data == Arr(map[])
    ensures Classify(t).data != Arr(map[]) ==> t.Reply? && IsSuccessBody(t.body)
  {
  }

  /** Apart from a remote or transport message that is itself empty, an envelope
      is an error exactly when the body was not a successful one. */
  lemma ErrorIffNotSuccess(t: Transport)
    requires t.TransportError? ==> !Empty(Str(t.message))
    requires t.Reply? && IsStructuredError(t.body) ==> !Empty(t.body.entries["message"])
    ensures Classify(t).IsError() <==> !(t.Reply? && IsSuccessBody(t.body))
  {
  }

  // ---------------------------------------------------------------------
  // The read-through cache

  /** What one cached lookup returns, the store it leaves, and whether it
      called the licensing service. */
  datatype CacheRead = CacheRead(value: Value, store: map<string, Transient>, called: bool)

  /** One `prepareInfo` / `prepareValidateLicense` lookup under `key`, where
      `fetched` is what the remote call would give. */
  function ReadThrough(store: map<string, Transient>, key: string, force: bool, fetched: Envelope, ttl: int): CacheRead {
    var cached := TransientValue(store, key);
    if !force && cached != Bool(false) then CacheRead(cached, store, false)
    else CacheRead(fetched.data, store[key := Transient(fetched.data, if fetched.IsError() then ErrorTtl else ttl)], true)
  }

  /** A hit without force returns the stored value, calls nothing and changes nothing. */
  lemma ReadThroughHit(store: map<string, Transient>, key: string, fetched: Envelope, ttl: int)
    requires key in store && store[key].value != Bool(false)
    ensures ReadThrough(store, key, false, fetched, ttl) == CacheRead(store[key].value, store, false)
  {
  }

  /** On a miss, or with force, the service is called and the store maps the
      key to exactly the returned payload, for the configured lifetime on
      success and for one second on error; every other key is untouched. */
  lemma ReadThroughMiss(store: map<string, Transient>, key: string, force: bool, fetched: Envelope, ttl: int)
    requires force || TransientValue(store, key) == Bool(false)
    ensures var r := ReadThrough(store, key, force, fetched, ttl);
      && r.called && r.value == fetched.data
      && key in r.store && r.store[key] == Transient(fetched.data, if fetched.IsError() then 1 else ttl)
      && (forall k :: k != key ==> (k in r.store <==> k in store))
      && (forall k :: k != key && k in store ==> r.store[k] == store[k])
  {
  }

  /** A failed call caches (and returns) the empty array, for one second. */
  lemma ErrorIsCachedEmptyAndBriefly(store: map<string, Transient>, key: string, force: bool, t: Transport, ttl: int)
    requires force || TransientValue(store, key) == Bool(false)
    requires Classify(t).IsError()
    ensures var r := ReadThrough(store, key, force, Classify(t), ttl);
      r.value == Arr(map[]) && r.store[key] == Transient(Arr(map[]), 1)
  {
    ErrorCarriesNoData(t);
  }

  /** Once a lookup has stored a value other than false, the next lookup
      without force is answered from the cache with the same value, whatever
      the service would now say. */
  lemma ReadThroughRepeats(store: map<string, Transient>, key: string, force: bool, fetched: Envelope, later: Envelope, ttl: int)
    requires ReadThrough(store, key, force, fetched, ttl).value != Bool(false)
    ensures var first := ReadThrough(store, key, force, fetched, ttl);
      var second := ReadThrough(first.store, key, false, later, ttl);
      && !second.called && second.value == first.value && second.store == first.store
  {
  }

  /** The result of `_result`: the transport result itself, or the Response built from it. */
  datatype Outcome = Passed(transport: Transport) | Decoded(response: Response)

  class Client {
    const consumerKey: Value
    const consumerSecret: Value
    const baseUrl: Value
    const prefix: Value
    var cacheTTL: map<string, int>
    const host: Host
    const remote: Remote
    const lib: Library

    constructor (args: map<string, Value>, host: Host, remote: Remote, lib: Library)
      ensures consumerKey == ArgOr(args, "consumer_key", Str(""))
      ensures consumerSecret == ArgOr(args, "consumer_secret", Str(""))
      ensures baseUrl == ArgOr(args, "api_url", Str(""))
      ensures prefix == ArgOr(args, "prefix", Str("dlm"))
      ensures cacheTTL == map[
        "info" := ConfiguredTtl(args, "info", 900),
        "validateLicense" := ConfiguredTtl(args, "validateLicense", 3600)]
      ensures this.host == host && this.remote == remote && this.lib == lib
    {
      consumerKey := ArgOr(args, "consumer_key", Str(""));
      consumerSecret := ArgOr(args, "consumer_secret", Str(""));
      baseUrl := ArgOr(args, "api_url", Str(""));
      prefix := ArgOr(args, "prefix", Str("dlm"));
      this.host, this.remote, this.lib := host, remote, lib;
      cacheTTL := map[DefaultTtls[0].0 := DefaultTtls[0].1, DefaultTtls[1].0 := DefaultTtls[1].1];
      new;
      for i := 0 to |DefaultTtls|
        invariant cacheTTL.Keys == {"info", "validateLicense"}
        invariant cacheTTL["info"] == if i > 0 then ConfiguredTtl(args, "info", 900) else 900
        invariant cacheTTL["validateLicense"] == if i > 1 then ConfiguredTtl(args, "validateLicense", 3600) else 3600
      {
        var name := DefaultTtls[i].0;
        cacheTTL := cacheTTL[name := ConfiguredTtl(args, name, cacheTTL[name])];
      }
    }

    /** `$this->cacheTTL[$name] ?? 0`. */
    function TtlOf(name: string): int
      reads this
    {
      if name in cacheTTL then cacheTTL[name] else 0
    }

    /** `getLicenseCacheKey($token)`. */
    function LicenseCacheKey(token: Value): string {
      ToStr(prefix) + "_license_" + Head(lib.md5(ToStr(token)), 12)
    }

    /** `getUpdateCacheKey($entity)`. */
    function UpdateCacheKey(e: Entity): string {
      ToStr(prefix) + "_update_" + ToStr(e.id) + "_" + ToStr(e.version)
    }

    /** The cache after `clearCache($entity)` for an entity whose stored token is `token`. */
    function Cleared(store: map<string, Transient>, e: Entity, token: Value): map<string, Transient> {
      (if Truthy(token) then store - {LicenseCacheKey(token)} else store) - {UpdateCacheKey(e)}
    }

    /** `_get($path, $params)`: one GET to the licensing service. */
    method Get(c: Call) returns (t: Transport)
      modifies remote
      ensures remote.log == old(remote.log) + [c]
      ensures t == old(remote.Next(c))
    {
      t := remote.Get(c);
    }

    /** `_result($response, true)`: a new Response filled in through its setters. */
    method Decode(t: Transport) returns (r: Response)
      ensures fresh(r) && r.Snapshot() == Classify(t)
    {
      r := new Response();
      match t {
        case TransportError(m) =>
          r.SetCode(Str("http_error"));
          r.SetError(Str(m));
        case Reply(body) =>
          if !body.Arr? {
            r.SetError(Str(DecodeFailure));
          } else if IsSet(body.entries, "message") && Dig(body, "data", "status").Some? {
            r.SetError(body.entries["message"]);
            r.SetCode(Lookup(body, "code"));
          } else if !IsSet(body.entries, "data") {
            r.SetError(Str(MissingData));
          } else {
            r.SetData(body.entries["data"]);
          }
      }
      r.SetRaw(t);
    }

    /** `_result($response, $decode)`: without decoding the input passes through unchanged. */
    method Result(t: Transport, decode: bool) returns (out: Outcome)
      ensures !decode ==> out == Passed(t)
      ensures decode ==> out.Decoded? && fresh(out.response) && out.response.Snapshot() == Classify(t)
    {
      if decode {
        var r := Decode(t);
        out := Decoded(r);
      } else {
        out := Passed(t);
      }
    }

    /** `activateLicense($licenseKey, $params)`. */
    method ActivateLicense(licenseKey: Value, params: map<string, Value>) returns (r: Response)
      modifies remote
      ensures remote.log == old(remote.log) + [ActivateCall(licenseKey, params)]
      ensures fresh(r) && r.Snapshot() == Classify(old(remote.Next(ActivateCall(licenseKey, params))))
    {
      var t := Get(ActivateCall(licenseKey, params));
      r := Decode(t);
    }

    /** `deactivateLicense($activationToken, $params)`. */
    method DeactivateLicense(token: Value, params: map<string, Value>) returns (r: Response)
      modifies remote
      ensures remote.log == old(remote.log) + [DeactivateCall(token, params)]
      ensures fresh(r) && r.Snapshot() == Classify(old(remote.Next(DeactivateCall(token, params))))
    {
      var t := Get(DeactivateCall(token, params));
      r := Decode(t);
    }

    /** `validateLicense($activationToken)`. */
    method ValidateLicense(token: Value) returns (r: Response)
      modifies remote
      ensures remote.log == old(remote.log) + [ValidateCall(token)]
      ensures fresh(r) && r.Snapshot() == Classify(old(remote.Next(ValidateCall(token))))
    {
      var t := Get(ValidateCall(token));
      r := Decode(t);
    }

    /** `info($entity, $type)`: asks for the software record, passing the
        entity's activation token when it has one. */
    method Info(e: Entity, kind: string) returns (r: Response)
      modifies remote
      ensures remote.log == old(remote.log) + [InfoCall(e, kind, e.ActivationToken(host.options))]
      ensures fresh(r) && r.Snapshot() == Classify(old(remote.Next(InfoCall(e, kind, e.ActivationToken(host.options)))))
    {
      var token := OptionValue(host.options, e.ActivationTokenOptionName());
      var t := Get(InfoCall(e, kind, token));
      r := Decode(t);
    }

    /** `prepareInfo($entity, $type, true, $force)`: the software record,
        read through the cache under the update key. */
    method PrepareInfo(e: Entity, kind: string, force: bool) returns (data: Value)
      modifies host, remote
      ensures var c := InfoCall(e, kind, e.ActivationToken(old(host.options)));
        var read := ReadThrough(old(host.transients), UpdateCacheKey(e), force, Classify(old(remote.Next(c))), TtlOf("info"));
        && data == read.value && host.transients == read.store
        && remote.log == old(remote.log) + (if read.called then [c] else [])
      ensures host.options == old(host.options) && host.siteTransients == old(host.siteTransients)
    {
      var ttl := TtlOf("info");
      var key := UpdateCacheKey(e);
      if !force {
        var cached := host.GetTransient(key);
        if cached != Bool(false) {
          return cached;
        }
      }
      var response := Info(e, kind);
      if response.IsError() {
        ttl := ErrorTtl;
      }
      data := response.GetData("");
      host.SetTransient(key, data, ttl);
    }

    /** `prepareValidateLicense($token, true, $force)`: the validation record,
        read through the cache under the license key. */
    method PrepareValidateLicense(token: Value, force: bool) returns (data: Value)
      modifies host, remote
      ensures var c := ValidateCall(token);
        var read := ReadThrough(old(host.transients), LicenseCacheKey(token), force, Classify(old(remote.Next(c))), TtlOf("validateLicense"));
        && data == read.value && host.transients == read.store
        && remote.log == old(remote.log) + (if read.called then [c] else [])
      ensures host.options == old(host.options) && host.siteTransients == old(host.siteTransients)
    {
      var ttl := TtlOf("validateLicense");
      var key := LicenseCacheKey(token);
      if !force {
        var cached := host.GetTransient(key);
        if cached != Bool(false) {
          return cached;
        }
      }
      var response := ValidateLicense(token);
      if response.IsError() {
        ttl := ErrorTtl;
      }
      data := response.GetData("");
      host.SetTransient(key, data, ttl);
    }

    /** `clearCache($entity)`: drops the license entry when a token is stored,
        the update entry, and the host's `update_plugins` site transient. */
    method ClearCache(e: Entity)
      modifies host
      ensures host.transients == Cleared(old(host.transients), e, e.ActivationToken(old(host.options)))
      ensures host.siteTransients == old(host.siteTransients) - {"update_plugins"}
      ensures host.options == old(host.options)
    {
      var token := OptionValue(host.options, e.ActivationTokenOptionName());
      if Truthy(token) {
        host.DeleteTransient(LicenseCacheKey(token));
      }
      host.DeleteTransient(UpdateCacheKey(e));
      host.DeleteSiteTransient("update_plugins");
    }
  }

  /** The license key is the prefix, "_license_" and the first 12 characters
      of the token's digest: its length does not depend on the token, and two
      tokens share a key exactly when their digests agree on those 12 characters. */
  lemma LicenseCacheKeySpec(c: Client, t1: Value, t2: Value)
    requires |c.lib.md5(ToStr(t1))| >= 12 && |c.lib.md5(ToStr(t2))| >= 12
    ensures |c.LicenseCacheKey(t1)| == |ToStr(c.prefix)| + 21
    ensures c.LicenseCacheKey(t1) == c.LicenseCacheKey(t2)
      <==> c.lib.md5(ToStr(t1))[..12] == c.lib.md5(ToStr(t2))[..12]
  {
    var head := ToStr(c.prefix) + "_license_";
    if c.LicenseCacheKey(t1) == c.LicenseCacheKey(t2) {
      AppendCancel(head, Head(c.lib.md5(ToStr(t1)), 12), Head(c.lib.md5(ToStr(t2)), 12));
    }
  }

  /** For one entity id, a different version gives a different update key,
      and the same version the same key. */
  lemma UpdateCacheKeyByVersion(c: Client, e: Entity, f: Entity)
    requires ToStr(e.id) == ToStr(f.id)
    ensures c.UpdateCacheKey(e) == c.UpdateCacheKey(f) <==> ToStr(e.version) == ToStr(f.version)
  {
    var head := ToStr(c.prefix) + "_update_" + ToStr(e.id) + "_";
    assert c.UpdateCacheKey(e) == head + ToStr(e.version);
    assert c.UpdateCacheKey(f) == head + ToStr(f.version);
    if c.UpdateCacheKey(e) == c.UpdateCacheKey(f) {
      AppendCancel(head, ToStr(e.version), ToStr(f.version));
    }
  }

  /** License entries and update entries never share a key. */
  lemma CacheKeysDisjoint(c: Client, token: Value, e: Entity)
    ensures c.LicenseCacheKey(token) != c.UpdateCacheKey(e)
  {
    var p := ToStr(c.prefix);
    assert c.LicenseCacheKey(token)[|p| + 1] == 'l';
    assert c.UpdateCacheKey(e)[|p| + 1] == 'u';
  }

  /** After `clearCache`, the next lookups of the entity's software record and
      (when a token is stored) of its validation record go to the service. */
  lemma ClearedForcesFreshLookups(c: Client, store: map<string, Transient>, e: Entity, token: Value,
                                  fetched: Envelope, ttl: int)
    ensures ReadThrough(c.Cleared(store, e, token), c.UpdateCacheKey(e), false, fetched, ttl).called
    ensures Truthy(token) ==> ReadThrough(c.Cleared(store, e, token), c.LicenseCacheKey(token), false, fetched, ttl).called
  {
  }

  /** `clearCache` removes at most the two entries and keeps every other one as it was. */
  lemma ClearedKeepsOtherEntries(c: Client, store: map<string, Transient>, e: Entity, token: Value, k: string)
    requires k != c.UpdateCacheKey(e) && (Truthy(token) ==> k != c.LicenseCacheKey(token))
    ensures k in c.Cleared(store, e, token) <==> k in store
    ensures k in store ==> c.Cleared(store, e, token)[k] == store[k]
  {
  }
}
