/**
 * The license activator of src/Core/Activator.php: the guard chain that turns
 * a posted form into an activate or deactivate command, the effects of those
 * commands on the stored key and token, the cache-clear flag and the flash
 * message slot, the one-shot migration of legacy keys, and the view model of
 * the activation form.
 */
module Activators {
  import opened Php
  import opened Wordpress
  import opened Responses
  import opened Models
  import opened Clients
  import opened Configurations

  /** The transient that carries one message to the next page view, and its lifetime. */
  const FlashKey := "cv_flash"
  const FlashTtl := 320

  const NoPermission := "Sorry, you dont have enough permissions to manage those settings."
  const InvalidAction := "Invalid action."
  const InvalidKey := "Please provide valid product key."
  const Activated := "Congrats! Your key is valid and your product will receive future updates."
  const Removed := "The license key is now removed."

  /** The length of a legacy key in the XXXX-XXXX-XXXX-XXXX format. */
  const LegacyKeyLength := 19

  /** The error codes on which the legacy migration drops the stored key. */
  const ExpiryCodes: seq<string> := [
    "dlm_rest_license_expired",
    "dlm_rest_license_disabled",
    "dlm_rest_license_activation_limit_reached",
    "wlm_rest_license_expired",
    "wlm_rest_license_disabled",
    "wlm_rest_license_activation_limit_reached"]

  lemma ExpiryCodesAreWords()
    ensures forall i :: 0 <= i < |ExpiryCodes| ==> ExpiryCodes[i] != "" && !NumericString(ExpiryCodes[i])
  {
    forall i | 0 <= i < |ExpiryCodes|
      ensures ExpiryCodes[i] != "" && !NumericString(ExpiryCodes[i])
    {
      assert ExpiryCodes[i][0] == 'd' || ExpiryCodes[i][0] == 'w';
      LetterLedIsNotNumeric(ExpiryCodes[i]);
    }
  }

  /** `in_array($code, $codes)`, loosely compared. */
  predicate InExpiryCodes(code: Value) {
    ExpiryCodesAreWords();
    exists i :: 0 <= i < |ExpiryCodes| && LooseEqualsWord(code, ExpiryCodes[i])
  }

  /** A string code matches exactly when it is one of the six; under loose
      comparison `true` matches too, and null and integers never do. */
  lemma InExpiryCodesSpec(code: Value)
    ensures code.Str? ==> (InExpiryCodes(code) <==> code.s in ExpiryCodes)
    ensures code == Bool(true) ==> InExpiryCodes(code)
    ensures code.Null? || code.Int? || code == Bool(false) ==> !InExpiryCodes(code)
  {
    ExpiryCodesAreWords();
    if code == Bool(true) {
      assert LooseEqualsWord(code, ExpiryCodes[0]);
    }
    if code.Str? && code.s in ExpiryCodes {
      var i :| 0 <= i < |ExpiryCodes| && ExpiryCodes[i] == code.s;
      assert LooseEqualsWord(code, ExpiryCodes[i]);
    }
  }

  // ---------------------------------------------------------------------
  // The flash slot

  /** The value a flash message is stored as. */
  function FlashValue(kind: string, message: Value): Value {
    Arr(map["type" := Str(kind), "message" := message])
  }

  /** The transients after `setFlashMessage($type, $message)`. */
  function Flash(store: map<string, Transient>, kind: string, message: Value): map<string, Transient> {
    store[FlashKey := Transient(FlashValue(kind, message), FlashTtl)]
  }

  /** The transients after the error branch: a flash only for a non-empty message. */
  function FlashError(store: map<string, Transient>, message: Value): map<string, Transient> {
    if !Empty(message) then Flash(store, "error", message) else store
  }

  /** A written flash is read back once as `{type, message}`; the read that
      removes it leaves the slot empty, so a second read gives false. */
  lemma FlashReadOnce(store: map<string, Transient>, kind: string, message: Value)
    ensures TransientValue(Flash(store, kind, message), FlashKey) == Arr(map["type" := Str(kind), "message" := message])
    ensures TransientValue(Flash(store, kind, message) - {FlashKey}, FlashKey) == Bool(false)
    ensures forall k :: k != FlashKey && k in store ==> k in Flash(store, kind, message) && Flash(store, kind, message)[k] == store[k]
  {
  }

  /** Clearing the client cache never touches the flash slot. */
  lemma FlashSurvivesClearCache(c: Client, store: map<string, Transient>, e: Entity, token: Value)
    ensures FlashKey in c.Cleared(store, e, token) <==> FlashKey in store
    ensures FlashKey in store ==> c.Cleared(store, e, token)[FlashKey] == store[FlashKey]
  {
    assert |c.LicenseCacheKey(token)| >= 9 && |c.UpdateCacheKey(e)| >= 9;
  }

  // ---------------------------------------------------------------------
  // The posted command

  /** `getPostData()`: `$_POST['dlm'][<entity id>]` on a POST request. */
  function PostData(req: Request, id: Value): Option<map<string, string>> {
    if req.isPost && ArrayKey(id) in req.dlm then Some(req.dlm[ArrayKey(id)]) else None
  }

  /** A posted field, when present. */
  function Field(post: Option<map<string, string>>, k: string): Option<string> {
    if post.Some? && k in post.value then Some(post.value[k]) else None
  }

  /** The posted `plugin_id` cast to int, or null when it is absent. */
  function PostedId(post: Option<map<string, string>>): Value {
    var f := Field(post, "plugin_id");
    if f.Some? then Int(IntCast(Str(f.value))) else Null
  }

  /** The posted `license_key`, trimmed, when present. */
  function PostedKey(post: Option<map<string, string>>): Option<string> {
    var f := Field(post, "license_key");
    if f.Some? then Some(Trim(f.value)) else None
  }

  /** What the form asks for once the guards have run. */
  datatype Command = Ignore | Reject(message: string) | Activate(licenseKey: string) | Deactivate

  /** The guard chain of `handleLicneseActivation`, in the source's order. */
  function ParseCommand(req: Request, id: Value): (c: Command)
    ensures c == Ignore <==> !req.isPost || PostedId(PostData(req, id)) != id
    ensures c == Reject(NoPermission) <==> req.isPost && PostedId(PostData(req, id)) == id && !req.canManageOptions
    ensures c.Activate? ==> (Field(PostData(req, id), "action") == Some("activate")
      && PostedKey(PostData(req, id)) == Some(c.licenseKey) && !Empty(Str(c.licenseKey)))
    ensures c.Deactivate? ==> (Field(PostData(req, id), "action") == Some("deactivate")
      && PostedKey(PostData(req, id)).Some? && !Empty(Str(PostedKey(PostData(req, id)).value)))
    ensures c.Activate? || c.Deactivate? ==> req.canManageOptions
    ensures var post := PostData(req, id);
      var key := PostedKey(post);
      req.isPost && PostedId(post) == id && req.canManageOptions && key.Some? && !Empty(Str(key.value))
      ==> (Field(post, "action") == Some("activate") ==> c == Activate(key.value))
          && (Field(post, "action") == Some("deactivate") ==> c == Deactivate)
  {
    if !req.isPost then Ignore
    else
      var post := PostData(req, id);
      var action := Field(post, "action");
      var key := PostedKey(post);
      if PostedId(post) != id then Ignore
      else if !req.canManageOptions then Reject(NoPermission)
      else if action != Some("activate") && action != Some("deactivate") then Reject(InvalidAction)
      else if key.None? || Empty(Str(key.value)) then Reject(InvalidKey)
      else if action == Some("activate") then Activate(key.value)
      else Deactivate
  }

  /** A permitted POST for the entity with an action other than the two is
      rejected as invalid, and one with an empty key as an invalid key,
      whichever of the two actions it names. */
  lemma ParseCommandRejects(req: Request, id: Value)
    requires req.isPost && PostedId(PostData(req, id)) == id && req.canManageOptions
    ensures var action := Field(PostData(req, id), "action");
      var key := PostedKey(PostData(req, id));
      && (action != Some("activate") && action != Some("deactivate") ==> ParseCommand(req, id) == Reject(InvalidAction))
      && ((action == Some("activate") || action == Some("deactivate")) && (key.None? || Empty(Str(key.value)))
          ==> ParseCommand(req, id) == Reject(InvalidKey))
  {
  }

  /** A request that is not a POST, or whose posted `plugin_id` is not the
      entity's id, changes no option, no flash and not the clear-cache flag,
      and calls nothing. */
  lemma IgnoredRequestChangesNothing(req: Request, e: Entity, s: State, reply: Envelope)
    requires !req.isPost || PostedId(PostData(req, e.id)) != e.id
    ensures AfterCommand(e, ParseCommand(req, e.id), s, reply) == s
    ensures CommandCall(e, ParseCommand(req, e.id), s.options, req).None?
  {
  }

  /** The activated key is stored trimmed: trimming it again changes nothing. */
  lemma ActivatedKeyIsTrimmed(req: Request, id: Value)
    requires ParseCommand(req, id).Activate?
    ensures Trim(ParseCommand(req, id).licenseKey) == ParseCommand(req, id).licenseKey
  {
    TrimIdempotent(Field(PostData(req, id), "license_key").value);
  }

  /** The parameters `activateLicense` sends: the site's home URL and PHP version. */
  function ActivationParams(req: Request): map<string, Value> {
    map["label" := Str(req.homeUrl), "meta" := Arr(map["php" := Str(req.phpVersion)])]
  }

  /** The call a command makes to the licensing service, if any. */
  function CommandCall(e: Entity, cmd: Command, options: map<string, Value>, req: Request): (c: Option<Call>)
    ensures c.Some? <==> cmd.Activate? || cmd.Deactivate?
  {
    match cmd
    case Activate(k) => Some(ActivateCall(Str(k), ActivationParams(req)))
    case Deactivate => Some(DeactivateCall(e.ActivationToken(options), map[]))
    case _ => None
  }

  /** The part of the host and of the activator a command changes. */
  datatype State = State(options: map<string, Value>, transients: map<string, Transient>, clearCache: bool)

  /** The state after a command whose call (if any) was answered with `reply`. */
  function AfterCommand(e: Entity, cmd: Command, s: State, reply: Envelope): State {
    var keyName, tokenName := e.LicenseKeyOptionName(), e.ActivationTokenOptionName();
    match cmd
    case Ignore => s
    case Reject(m) => s.(transients := Flash(s.transients, "error", Str(m)))
    case Activate(k) =>
      if !reply.IsError() then
        State(s.options[keyName := Str(k)][tokenName := reply.GetData("token")],
              Flash(s.transients, "success", Str(Activated)), true)
      else State(s.options - {keyName} - {tokenName}, FlashError(s.transients, reply.error), s.clearCache)
    case Deactivate =>
      var options := s.options - {keyName} - {tokenName};
      if !reply.IsError() then State(options, Flash(s.transients, "success", Str(Removed)), true)
      else State(options, FlashError(s.transients, reply.error), s.clearCache)
  }

  /** Only the entity's two options and the flash slot can change. */
  lemma AfterCommandFrame(e: Entity, cmd: Command, s: State, reply: Envelope, n: string)
    ensures var t := AfterCommand(e, cmd, s, reply);
      && ((n != e.LicenseKeyOptionName() && n != e.ActivationTokenOptionName())
          ==> (n in t.options <==> n in s.options) && (n in s.options ==> t.options[n] == s.options[n]))
      && (n != FlashKey ==> (n in t.transients <==> n in s.transients) && (n in s.transients ==> t.transients[n] == s.transients[n]))
  {
  }

  /** A rejected command sets an error flash and leaves the key, the token and
      the clear-cache flag as they were. */
  lemma RejectOnlyFlashes(e: Entity, m: string, s: State, reply: Envelope)
    ensures var t := AfterCommand(e, Reject(m), s, reply);
      && t.options == s.options && t.clearCache == s.clearCache
      && TransientValue(t.transients, FlashKey) == FlashValue("error", Str(m))
  {
  }

  /** A successful activation stores the submitted key and the returned token,
      asks for the cache to be cleared and flashes success. */
  lemma ActivationSucceeds(e: Entity, k: string, s: State, reply: Envelope)
    requires !reply.IsError()
    ensures var t := AfterCommand(e, Activate(k), s, reply);
      && e.LicenseKey(t.options) == Str(k)
      && e.ActivationToken(t.options) == reply.GetData("token")
      && t.clearCache
      && TransientValue(t.transients, FlashKey) == FlashValue("success", Str(Activated))
  {
    OptionNamesDistinct(e);
  }

  /** A failed activation deletes both the key and the token and flashes the
      error; the flash always happens, because an error response has a
      non-empty message by definition. */
  lemma ActivationFails(e: Entity, k: string, s: State, reply: Envelope)
    requires reply.IsError()
    ensures var t := AfterCommand(e, Activate(k), s, reply);
      && e.LicenseKey(t.options) == Bool(false) && e.ActivationToken(t.options) == Bool(false)
      && t.clearCache == s.clearCache
      && TransientValue(t.transients, FlashKey) == FlashValue("error", reply.error)
  {
  }

  /** A deactivation deletes the key and the token whatever the service says;
      the flag is set and success flashed exactly when it did not fail. */
  lemma DeactivationClears(e: Entity, s: State, reply: Envelope)
    ensures var t := AfterCommand(e, Deactivate, s, reply);
      && e.LicenseKey(t.options) == Bool(false) && e.ActivationToken(t.options) == Bool(false)
      && (t.clearCache <==> s.clearCache || !reply.IsError())
      && TransientValue(t.transients, FlashKey)
         == if reply.IsError() then FlashValue("error", reply.error) else FlashValue("success", Str(Removed))
  {
  }

  // ---------------------------------------------------------------------
  // The legacy migration

  /** The migration runs only on a privileged admin GET, for a stored key
      of 19 bytes after trimming, and when no token is stored. */
  predicate LegacyEligible(req: Request, key: Value, token: Value) {
    !req.isPost && req.isAdmin && req.canManageOptions
    && !Empty(key) && ByteLength(Trim(ToStr(key))) == LegacyKeyLength
    && token == Bool(false)
  }

  /** The options and site transients after the migration's activation call
      was answered with `reply`. */
  function AfterMigration(e: Entity, options: map<string, Value>, site: map<string, Value>, reply: Envelope)
    : (map<string, Value>, map<string, Value>)
  {
    if !reply.IsError() then
      var token := reply.GetData("token");
      if !Empty(token) then (options[e.ActivationTokenOptionName() := token], site - {"update_plugins"})
      else (options, site)
    else if InExpiryCodes(reply.code) then (options - {e.LicenseKeyOptionName()}, site)
    else (options, site)
  }

  /** A successful migration sets only the token, and only a non-empty one,
      and then drops the cached `update_plugins` site transient; a failed one
      never sets the token, deletes the key exactly when the code is one of
      the six, and leaves the site transients alone. No other option changes. */
  lemma MigrationEffects(e: Entity, options: map<string, Value>, site: map<string, Value>, reply: Envelope)
    ensures var (o, st) := AfterMigration(e, options, site, reply);
      var tokenSet := !reply.IsError() && !Empty(reply.GetData("token"));
      && e.ActivationToken(o) == (if tokenSet then reply.GetData("token") else e.ActivationToken(options))
      && (!reply.IsError() ==> e.LicenseKey(o) == e.LicenseKey(options))
      && (reply.IsError() ==> (e.LicenseKey(o) == Bool(false) <==> InExpiryCodes(reply.code) || e.LicenseKey(options) == Bool(false)))
      && (reply.IsError() && !InExpiryCodes(reply.code) ==> o == options)
      && st == (if tokenSet then site - {"update_plugins"} else site)
      && ("update_plugins" !in st <==> tokenSet || "update_plugins" !in site)
  {
    OptionNamesDistinct(e);
    MigrationFrame(e, options, site, reply);
  }

  /** The migration touches no option but the entity's key and token. */
  lemma MigrationFrame(e: Entity, options: map<string, Value>, site: map<string, Value>, reply: Envelope)
    ensures var (o, _) := AfterMigration(e, options, site, reply);
      && (forall n :: n in options && n != e.LicenseKeyOptionName() && n != e.ActivationTokenOptionName()
            ==> n in o && o[n] == options[n])
      && (forall n :: n in o ==> n in options || n == e.ActivationTokenOptionName())
  {
  }

  // ---------------------------------------------------------------------
  // The activation form

  /** The notice printed under the key input. */
  datatype Notice = NoNotice | ValidUntil(expiry: Value) | ExpiredOrInvalid(purchaseUrl: Value)

  /** What `renderActivationForm` prints, without the markup. */
  datatype FormView = FormView(
    isExpired: bool,
    action: string,
    button: string,
    licenseKey: Value,
    readonly: bool,
    notice: Notice,
    purchaseButton: bool)

  /** The view model of the form for a validation record and the stored token. */
  function FormViewOf(license: Value, token: Value, purchaseUrl: Value, lib: Library): FormView {
    var expired := Dig(license, "license", "is_expired");
    var isExpired := if expired.Some? then Truthy(expired.value) else true;
    var licenseKey := DigOr(license, "license", "license_key", Str(""));
    var readonly := !Empty(licenseKey) && !Empty(Lookup(license, "token"));
    if !isExpired then
      var expiresAt := DigOr(license, "license", "expires_at", Str(""));
      FormView(false, "deactivate", "Deactivate", licenseKey, readonly,
               ValidUntil(Utilities.FormattedDate(expiresAt, lib)), false)
    else
      FormView(true, "activate", "Activate", licenseKey, readonly,
               if Truthy(token) then ExpiredOrInvalid(purchaseUrl) else NoNotice, true)
  }

  /** The form offers deactivation exactly for a record that says it has not
      expired; otherwise it offers activation and the purchase button, and a
      record without `is_expired` counts as expired. */
  lemma FormViewSpec(license: Value, token: Value, purchaseUrl: Value, lib: Library)
    ensures var v := FormViewOf(license, token, purchaseUrl, lib);
      && (v.isExpired <==> Dig(license, "license", "is_expired").None? || Truthy(Dig(license, "license", "is_expired").value))
      && (v.action == "deactivate" <==> !v.isExpired)
      && (v.action == "activate" <==> v.isExpired)
      && (v.purchaseButton <==> v.isExpired)
      && v.licenseKey == DigOr(license, "license", "license_key", Str(""))
      && (v.readonly <==> !Empty(v.licenseKey) && !Empty(Lookup(license, "token")))
      && (v.notice.ExpiredOrInvalid? <==> v.isExpired && Truthy(token))
  {
  }

  /** A failed validation is cached as the empty array, so the form then shows
      the key as expired and offers activation. */
  lemma FailedValidationRendersExpired(store: map<string, Transient>, key: string, force: bool, t: Transport, ttl: int,
                                       token: Value, purchaseUrl: Value, lib: Library)
    requires force || TransientValue(store, key) == Bool(false)
    requires Classify(t).IsError()
    ensures var v := FormViewOf(ReadThrough(store, key, force, Classify(t), ttl).value, token, purchaseUrl, lib);
      v.isExpired && v.action == "activate" && v.purchaseButton && !v.readonly
  {
    ErrorIsCachedEmptyAndBriefly(store, key, force, t, ttl);
  }

  // ---------------------------------------------------------------------
  // The findings

  /** The outcome of constructing the activator. */
  datatype Construction = Fatal(error: string) | Constructed(entity: Entity)

  /** The activator's `application` property as its constructor finds it:
      the constructor takes the configuration as a parameter but never stores
      it, so the property keeps its initial null. */
  const UnassignedApplication: Option<Configuration> := None

  /** The constructor as written: it reads the entity from its `application`
      property, which is a call on null unless something had assigned it. */
  function ConstructorAsWritten(application: Option<Configuration>): Construction {
    match application
    case None => Fatal("Call to a member function getEntity() on null")
    case Some(c) => Constructed(c.entity)
  }

  /** Whatever configuration it is passed, the constructor as written fails;
      had it stored that configuration first, it would have built its entity. */
  lemma ConstructorAsWrittenFails(config: Configuration)
    ensures ConstructorAsWritten(UnassignedApplication).Fatal?
    ensures ConstructorAsWritten(Some(config)) == Constructed(config.entity)
  {
  }

  /** The cached lookups the client defines, by method name. */
  datatype CachedQuery = InfoQuery | ValidationQuery

  function ClientQueryNamed(name: string): Option<CachedQuery> {
    if name == "prepareInfo" then Some(InfoQuery)
    else if name == "prepareValidateLicense" then Some(ValidationQuery)
    else None
  }

  /** The form as written asks the client for `prepareLicense`, which it does
      not define; the form here uses `prepareValidateLicense`. */
  lemma RenderAsWrittenCallsUndefined()
    ensures ClientQueryNamed("prepareLicense").None?
    ensures ClientQueryNamed("prepareValidateLicense") == Some(ValidationQuery)
  {
  }

  // ---------------------------------------------------------------------
  // The activator

  class Activator {
    const config: Configuration
    const request: Request
    const isHttpPost: bool := request.isPost
    var clearCache: bool

    /** `new Activator($configuration)`, keeping the configuration it is given. */
    constructor (config: Configuration, request: Request)
      ensures this.config == config && this.request == request
      ensures isHttpPost == request.isPost
      ensures clearCache <==> "dlm_clear_cache" in request.query
    {
      this.config := config;
      this.request := request;
      clearCache := "dlm_clear_cache" in request.query;
    }

    /** `setFlashMessage($type, $message)`. */
    method SetFlashMessage(kind: string, message: Value)
      modifies config.client.host
      ensures config.client.host.transients == Flash(old(config.client.host.transients), kind, message)
      ensures config.client.host.options == old(config.client.host.options)
      ensures config.client.host.siteTransients == old(config.client.host.siteTransients)
    {
      config.client.host.SetTransient(FlashKey, FlashValue(kind, message), FlashTtl);
    }

    /** `getFlashedMessage($remove)`: the flash, removed when asked. */
    method GetFlashedMessage(remove: bool) returns (message: Value)
      modifies config.client.host
      ensures message == TransientValue(old(config.client.host.transients), FlashKey)
      ensures config.client.host.transients
        == if remove then old(config.client.host.transients) - {FlashKey} else old(config.client.host.transients)
      ensures config.client.host.options == old(config.client.host.options)
      ensures config.client.host.siteTransients == old(config.client.host.siteTransients)
    {
      message := config.client.host.GetTransient(FlashKey);
      if remove {
        config.client.host.DeleteTransient(FlashKey);
      }
    }

    /** A flash written and then read twice: `{type, message}` first, false after. */
    method FlashTwice(kind: string, message: Value) returns (first: Value, second: Value)
      modifies config.client.host
      ensures first == FlashValue(kind, message) && second == Bool(false)
      ensures config.client.host.options == old(config.client.host.options)
    {
      SetFlashMessage(kind, message);
      first := GetFlashedMessage(true);
      second := GetFlashedMessage(true);
    }

    /** `handleAfterActivation()`: clears the client cache. */
    method HandleAfterActivation()
      modifies config.client.host
      ensures config.client.host.transients == config.client.Cleared(
        old(config.client.host.transients), config.entity, config.entity.ActivationToken(old(config.client.host.options)))
      ensures config.client.host.siteTransients == old(config.client.host.siteTransients) - {"update_plugins"}
      ensures config.client.host.options == old(config.client.host.options)
    {
      config.ClearCache();
    }

    /** `handleLicneseActivation()`: runs the guard chain, then the command. */
    method HandleLicenseActivation()
      modifies config.client.host, config.client.remote, this
      ensures var e := config.entity;
        var cmd := ParseCommand(request, e.id);
        var call := CommandCall(e, cmd, old(config.client.host.options), request);
        var reply := if call.Some? then Classify(old(config.client.remote.Next(call.value))) else Blank;
        && State(config.client.host.options, config.client.host.transients, clearCache)
           == AfterCommand(e, cmd, old(State(config.client.host.options, config.client.host.transients, clearCache)), reply)
        && config.client.remote.log == old(config.client.remote.log) + (if call.Some? then [call.value] else [])
      ensures config.client.host.siteTransients == old(config.client.host.siteTransients)
    {
      var e := config.entity;
      var host := config.client.host;
      if !isHttpPost {
        return;
      }
      var post := PostData(request, e.id);
      var action := Field(post, "action");
      var licenseKey := PostedKey(post);
      if PostedId(post) != e.id {
        return;
      }
      if !request.canManageOptions {
        SetFlashMessage("error", Str(NoPermission));
        return;
      }
      if action != Some("activate") && action != Some("deactivate") {
        SetFlashMessage("error", Str(InvalidAction));
        return;
      }
      if licenseKey.None? || Empty(Str(licenseKey.value)) {
        SetFlashMessage("error", Str(InvalidKey));
        return;
      }
      if action == Some("activate") {
        RunActivate(licenseKey.value);
      } else {
        RunDeactivate();
      }
    }

    /** The `activate` branch: on success stores the key and the returned
        token, on failure deletes both. */
    method RunActivate(k: string)
      modifies config.client.host, config.client.remote, this
      ensures var call := ActivateCall(Str(k), ActivationParams(request));
        && State(config.client.host.options, config.client.host.transients, clearCache)
           == AfterCommand(config.entity, Activate(k),
                           old(State(config.client.host.options, config.client.host.transients, clearCache)),
                           Classify(old(config.client.remote.Next(call))))
        && config.client.remote.log == old(config.client.remote.log) + [call]
      ensures config.client.host.siteTransients == old(config.client.host.siteTransients)
    {
      var e := config.entity;
      var host := config.client.host;
      var result := config.client.ActivateLicense(Str(k), ActivationParams(request));
      if !result.IsError() {
        clearCache := true;
        e.SetLicenseKey(host, Str(k));
        e.SetActivationToken(host, result.GetData("token"));
        SetFlashMessage("success", Str(Activated));
      } else {
        e.DeleteLicenseKey(host);
        e.DeleteActivationToken(host);
        var message := result.GetError();
        if !Empty(message) {
          SetFlashMessage("error", message);
        }
      }
    }

    /** The `deactivate` branch: deletes the key and the token whatever the
        service answers. */
    method RunDeactivate()
      modifies config.client.host, config.client.remote, this
      ensures var call := DeactivateCall(config.entity.ActivationToken(old(config.client.host.options)), map[]);
        && State(config.client.host.options, config.client.host.transients, clearCache)
           == AfterCommand(config.entity, Deactivate,
                           old(State(config.client.host.options, config.client.host.transients, clearCache)),
                           Classify(old(config.client.remote.Next(call))))
        && config.client.remote.log == old(config.client.remote.log) + [call]
      ensures config.client.host.siteTransients == old(config.client.host.siteTransients)
    {
      var e := config.entity;
      var host := config.client.host;
      var token := e.ActivationToken(host.options);
      var result := config.client.DeactivateLicense(token, map[]);
      e.DeleteLicenseKey(host);
      e.DeleteActivationToken(host);
      if !result.IsError() {
        clearCache := true;
        SetFlashMessage("success", Str(Removed));
      } else {
        var message := result.GetError();
        if !Empty(message) {
          SetFlashMessage("error", message);
        }
      }
    }

    /** `handleLegacyMigration()`: trades an old stored key for a token, once. */
    method HandleLegacyMigration()
      modifies config.client.host, config.client.remote
      ensures var e := config.entity;
        var key := e.LicenseKey(old(config.client.host.options));
        var eligible := LegacyEligible(request, key, e.ActivationToken(old(config.client.host.options)));
        var call := ActivateCall(key, ActivationParams(request));
        && config.client.remote.log == old(config.client.remote.log) + (if eligible then [call] else [])
        && (config.client.host.options, config.client.host.siteTransients)
           == if eligible then AfterMigration(e, old(config.client.host.options), old(config.client.host.siteTransients),
                                              Classify(old(config.client.remote.Next(call))))
              else (old(config.client.host.options), old(config.client.host.siteTransients))
      ensures config.client.host.transients == old(config.client.host.transients)
    {
      var e := config.entity;
      var host := config.client.host;
      if isHttpPost || !request.isAdmin || !request.canManageOptions {
        return;
      }
      var licenseKey := e.LicenseKey(host.options);
      var activationToken := e.ActivationToken(host.options);
      if Empty(licenseKey) || ByteLength(Trim(ToStr(licenseKey))) != LegacyKeyLength {
        return;
      }
      if activationToken != Bool(false) {
        return;
      }
      var result := config.client.ActivateLicense(licenseKey, ActivationParams(request));
      if !result.IsError() {
        var token := result.GetData("token");
        if !Empty(token) {
          e.SetActivationToken(host, token);
          host.DeleteSiteTransient("update_plugins");
        }
      } else {
        if InExpiryCodes(result.GetCode()) {
          e.DeleteLicenseKey(host);
        }
      }
    }

    /** `renderActivationForm()` without the markup: clears the cache when
        asked, takes the flash, and derives the form from the cached
        validation record of the stored token. */
    method RenderActivationForm() returns (flash: Value, view: FormView)
      modifies config.client.host, config.client.remote
      ensures var e := config.entity;
        var token := e.ActivationToken(old(config.client.host.options));
        var cleared := if clearCache then config.client.Cleared(old(config.client.host.transients), e, token)
                       else old(config.client.host.transients);
        var call := ValidateCall(token);
        var read := ReadThrough(cleared - {FlashKey}, config.client.LicenseCacheKey(token), false,
                                Classify(old(config.client.remote.Next(call))), config.client.TtlOf("validateLicense"));
        && flash == TransientValue(cleared, FlashKey)
        && view == FormViewOf(read.value, token, e.purchaseUrl, config.client.lib)
        && config.client.host.transients == read.store
        && config.client.remote.log == old(config.client.remote.log) + (if read.called then [call] else [])
        && config.client.host.options == old(config.client.host.options)
        && config.client.host.siteTransients
           == if clearCache then old(config.client.host.siteTransients) - {"update_plugins"} else old(config.client.host.siteTransients)
    {
      if clearCache {
        config.ClearCache();
      }
      flash := GetFlashedMessage(true);
      var token := config.entity.ActivationToken(config.client.host.options);
      var license := config.client.PrepareValidateLicense(token, false);
      view := FormViewOf(license, token, config.entity.purchaseUrl, config.client.lib);
    }
  }
}
