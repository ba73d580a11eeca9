/**
 * The update integration of src/Core/Updater.php: it turns the cached
 * software record into the descriptor the host's updater expects, answers
 * the "plugin details" query for this entity's slug, inserts the descriptor
 * into the host's update transient, and picks the notice shown under the
 * plugin's update row.
 */
module Updaters {
  import opened Php
  import opened Wordpress
  import opened Models
  import opened Clients
  import opened Configurations
  import opened Versions
  import Utilities

  const EmptyArray := Arr(map[])

  /** `$data['details'][$k]` when set, else ''. */
  function DetailOr(data: Value, k: string): Value {
    DigOr(data, "details", k, Str(""))
  }

  /** The query arguments `format_plugin_update` adds to the package URL. */
  function PackageParams(env: Request): map<string, Value> {
    map["meta" := Arr(map[
      "wp_version" := env.wpVersion,
      "php_version" := Str(env.phpVersion),
      "web_server" := env.serverSoftware])]
  }

  /** `format_plugin_update($data)`: the update descriptor, or the empty
      array when there is no newer version. */
  function FormatPluginUpdate(data: Value, e: Entity, env: Request, lib: Library): Value {
    if Empty(data) then EmptyArray
    else
      var newVersion := DetailOr(data, "stable_tag");
      if !VersionGreater(ToStr(newVersion), ToStr(e.version)) then EmptyArray
      else
        var update := map[
          "slug" := Str(e.Slug()),
          "plugin" := e.basename,
          "url" := e.purchaseUrl,
          "new_version" := newVersion,
          "tested" := DetailOr(data, "tested")];
        if data.Arr? && IsSet(data.entries, "download_url") && !Empty(data.entries["download_url"]) then
          Arr(update["package" := Str(lib.addQueryArg(PackageParams(env), ToStr(data.entries["download_url"])))])
        else Arr(update)
  }

  /** There is an update exactly when the record is not empty and its stable
      tag (or '' when it has none) is a newer version than the entity's. */
  lemma FormatPluginUpdateDecides(data: Value, e: Entity, env: Request, lib: Library)
    ensures FormatPluginUpdate(data, e, env, lib) != EmptyArray
      <==> !Empty(data) && VersionGreater(ToStr(DetailOr(data, "stable_tag")), ToStr(e.version))
  {
    var u := FormatPluginUpdate(data, e, env, lib);
    if !Empty(data) && VersionGreater(ToStr(DetailOr(data, "stable_tag")), ToStr(e.version)) {
      assert "slug" in u.entries;
    }
  }

  /** The descriptor of an update: the entity's slug, basename and purchase
      URL, the stable tag as the new version, the tested version or '', and a
      package URL exactly when the record has a non-empty download URL. */
  lemma FormatPluginUpdateDescriptor(data: Value, e: Entity, env: Request, lib: Library)
    requires !Empty(data) && VersionGreater(ToStr(DetailOr(data, "stable_tag")), ToStr(e.version))
    ensures var u := FormatPluginUpdate(data, e, env, lib);
      && u.Arr? && u.entries.Keys <= {"slug", "plugin", "url", "new_version", "tested", "package"}
      && "new_version" in u.entries && u.entries["new_version"] == DetailOr(data, "stable_tag")
      && "slug" in u.entries && u.entries["slug"] == Str(e.Slug())
      && "plugin" in u.entries && u.entries["plugin"] == e.basename
      && "url" in u.entries && u.entries["url"] == e.purchaseUrl
      && "tested" in u.entries && u.entries["tested"] == DetailOr(data, "tested")
      && ("package" in u.entries <==> data.Arr? && IsSet(data.entries, "download_url") && !Empty(data.entries["download_url"]))
  {
  }

  /** A software record that carries only a stable tag. */
  function StableTagRecord(tag: string): Value {
    Arr(map["details" := Arr(map["stable_tag" := Str(tag)])])
  }

  /** A record whose only detail is a newer stable tag (2.2.0 for an entity at
      2.1.0, say) is offered as exactly that version, without a package URL. */
  lemma UpdateOffered(e: Entity, tag: string, env: Request, lib: Library)
    requires VersionGreater(tag, ToStr(e.version))
    ensures var u := FormatPluginUpdate(StableTagRecord(tag), e, env, lib);
      && u.Arr? && "new_version" in u.entries && u.entries["new_version"] == Str(tag)
      && "package" !in u.entries
  {
    var data := StableTagRecord(tag);
    assert DetailOr(data, "stable_tag") == Str(tag);
    assert !IsSet(data.entries, "download_url");
    FormatPluginUpdateDescriptor(data, e, env, lib);
  }

  /** An entity already at the stable tag is offered nothing. */
  lemma NoUpdateWhenCurrent(e: Entity, tag: string, env: Request, lib: Library)
    requires ToStr(e.version) == tag
    ensures FormatPluginUpdate(StableTagRecord(tag), e, env, lib) == EmptyArray
  {
    var data := StableTagRecord(tag);
    assert DetailOr(data, "stable_tag") == Str(tag);
    VersionGreaterIsStrictOrder(tag, tag, tag);
    FormatPluginUpdateDecides(data, e, env, lib);
  }

  /** `format_plugin_details($data)`: the `details` array, when the record has
      a non-empty one. */
  function FormatPluginDetails(data: Value): (r: Option<Value>)
    ensures r.Some? <==> !Empty(data) && Lookup(data, "details").Arr? && !Empty(Lookup(data, "details"))
    ensures r.Some? ==> r.value == Lookup(data, "details")
  {
    if Empty(data) then None
    else
      var details := Lookup(data, "details");
      if Empty(details) || !details.Arr? then None else Some(details)
  }

  /** The `$args` of the `plugins_api` filter: an object, an array, or neither. */
  datatype ApiArgs = ObjectArgs(props: map<string, Value>) | ArrayArgs(entries: map<string, Value>) | OtherArgs

  /** The requested slug: the object's or the array's `slug` when set, else ''. */
  function SlugArg(args: ApiArgs): Value {
    match args
    case ObjectArgs(props) => if IsSet(props, "slug") then props["slug"] else Str("")
    case ArrayArgs(entries) => if IsSet(entries, "slug") then entries["slug"] else Str("")
    case OtherArgs => Str("")
  }

  /** Whether `modify_plugin_details` looks the entity up at all. */
  predicate AsksForDetails(action: Value, args: ApiArgs, e: Entity) {
    action == Str("plugin_information") && SlugArg(args) == Str(e.Slug())
  }

  /** The filter's answer once the software record `info` is known. */
  function DetailsFrom(result: Value, info: Value): Value {
    if Empty(info) then result
    else
      var details := FormatPluginDetails(info);
      if details.None? then result else details.value
  }

  /** The filter replaces the host's value only by a non-empty `details`
      array of the record, and then by exactly that array. */
  lemma DetailsFromSpec(result: Value, info: Value)
    ensures var details := Lookup(info, "details");
      && (details.Arr? && !Empty(details) ==> DetailsFrom(result, info) == details)
      && (!(details.Arr? && !Empty(details)) ==> DetailsFrom(result, info) == result)
  {
  }

  /** `isset($_GET['force-check']) && 1 === (int) $_GET['force-check']`. */
  predicate ForceCheck(env: Request) {
    "force-check" in env.query && IntCast(Str(env.query["force-check"])) == 1
  }

  /** The notice under the plugin's update row, with the URL printed in each
      of its two links. */
  datatype UpdateNotice =
    | ActivateNotice(settingsLink: Value, purchaseLink: Value)
    | ExpiredNotice(expiredOn: Option<Value>, purchaseLink: Value, settingsLink: Value)
    | NoNotice

  /** The notice for a stored token and, when the token is not empty, its
      validation record. */
  function UpdateNoticeFor(token: Value, license: Value, e: Entity, lib: Library): UpdateNotice {
    if Empty(token) then ActivateNotice(e.purchaseUrl, e.settingsUrl)
    else
      var flag := Dig(license, "license", "is_expired");
      var expired := if flag.Some? then Truthy(flag.value) else true;
      if !expired then NoNotice
      else
        var expiresAt := DigOr(license, "license", "expires_at", Str(""));
        var formatted := if Truthy(expiresAt) then Utilities.FormattedDate(expiresAt, lib) else EmptyArray;
        var expiredOn := if formatted.Arr? && IsSet(formatted.entries, "default_format") then Some(formatted.entries["default_format"]) else None;
        ExpiredNotice(expiredOn, e.purchaseUrl, e.settingsUrl)
  }

  /** The three outcomes: no token asks for activation; a token whose record
      is expired, or says nothing about expiry, gets the expired notice,
      dated exactly when the record has an expiry date; otherwise nothing. */
  lemma UpdateNoticeSelection(token: Value, license: Value, e: Entity, lib: Library)
    ensures var n := UpdateNoticeFor(token, license, e, lib);
      var flag := Dig(license, "license", "is_expired");
      && (n.ActivateNotice? <==> Empty(token))
      && (n.ExpiredNotice? <==> !Empty(token) && (flag.None? || Truthy(flag.value)))
      && (n.NoNotice? <==> !Empty(token) && flag.Some? && !Truthy(flag.value))
      && (n.ExpiredNotice? ==> (n.expiredOn.Some? <==> Truthy(DigOr(license, "license", "expires_at", Str("")))))
  {
  }

  /** A failed validation is cached as the empty array, so the notice for a
      stored token is then the undated expired one. */
  lemma FailedValidationNotice(store: map<string, Transient>, key: string, t: Transport, ttl: int,
                               token: Value, e: Entity, lib: Library)
    requires TransientValue(store, key) == Bool(false) && Classify(t).IsError() && !Empty(token)
    ensures UpdateNoticeFor(token, ReadThrough(store, key, false, Classify(t), ttl).value, e, lib)
      == ExpiredNotice(None, e.purchaseUrl, e.settingsUrl)
  {
    ErrorIsCachedEmptyAndBriefly(store, key, false, t, ttl);
  }

  /** Where each link of a notice points, for an entity built from `args`.
      The activation notice prints the getters' URLs in the opposite roles,
      which undoes the entity's own swap of `url_settings` and `url_purchase`,
      so its links are right; the expired notice prints them in their
      named roles and so keeps the swap. */
  lemma NoticeLinksFromArgs(kind: Kind, args: map<string, Value>, token: Value, license: Value, lib: Library)
    ensures var n := UpdateNoticeFor(token, license, FromArgs(kind, args), lib);
      && (n.ActivateNotice? ==> n.settingsLink == ArgOr(args, "url_settings", Null)
                                && n.purchaseLink == ArgOr(args, "url_purchase", Null))
      && (n.ExpiredNotice? ==> n.purchaseLink == ArgOr(args, "url_settings", Null)
                               && n.settingsLink == ArgOr(args, "url_purchase", Null))
  {
  }

  /** The host's `update_plugins` site transient, an object whose `response`
      property may be unset. */
  class PluginsTransient {
    var response: Option<map<string, Value>>

    constructor (response: Option<map<string, Value>>)
      ensures this.response == response
    {
      this.response := response;
    }
  }

  /** The response list after inserting `update` for `basename`, when it is an
      update descriptor. */
  function WithUpdate(response: map<string, Value>, basename: Value, update: Value): map<string, Value> {
    if update.Arr? && IsSet(update.entries, "new_version") then response[ArrayKey(basename) := update] else response
  }

  /** Only the entry under the basename can change, and it changes to the
      descriptor exactly when the descriptor has a new version. */
  lemma WithUpdateFrame(response: map<string, Value>, basename: Value, update: Value, k: string)
    ensures k != ArrayKey(basename) ==> (k in WithUpdate(response, basename, update) <==> k in response)
    ensures k != ArrayKey(basename) && k in response ==> WithUpdate(response, basename, update)[k] == response[k]
    ensures update.Arr? && IsSet(update.entries, "new_version")
      ==> WithUpdate(response, basename, update)[ArrayKey(basename)] == update
    ensures !(update.Arr? && IsSet(update.entries, "new_version")) ==> WithUpdate(response, basename, update) == response
  {
  }

  class Updater {
    const config: Configuration
    const request: Request

    constructor (config: Configuration, request: Request)
      ensures this.config == config && this.request == request
    {
      this.config := config;
      this.request := request;
    }

    /** `check_update($force)`: the cached software record, turned into a
        descriptor when it is a non-empty array. */
    method CheckUpdate(force: bool) returns (update: Value)
      modifies config.client.host, config.client.remote
      ensures var e := config.entity;
        var call := InfoCall(e, "wp", e.ActivationToken(old(config.client.host.options)));
        var read := ReadThrough(old(config.client.host.transients), config.client.UpdateCacheKey(e), force,
                                Classify(old(config.client.remote.Next(call))), config.client.TtlOf("info"));
        && update == (if !Empty(read.value) && read.value.Arr? then FormatPluginUpdate(read.value, e, request, config.client.lib) else read.value)
        && config.client.host.transients == read.store
        && config.client.remote.log == old(config.client.remote.log) + (if read.called then [call] else [])
      ensures config.client.host.options == old(config.client.host.options)
      ensures config.client.host.siteTransients == old(config.client.host.siteTransients)
    {
      update := config.client.PrepareInfo(config.entity, "wp", force);
      if !Empty(update) && update.Arr? {
        update := FormatPluginUpdate(update, config.entity, request, config.client.lib);
      }
    }

    /** `modify_plugins_transient($transient)`: adds this entity's update to
        the transient's response list, in place. */
    method ModifyPluginsTransient(transient: PluginsTransient)
      modifies transient, config.client.host, config.client.remote
      ensures var e := config.entity;
        var call := InfoCall(e, "wp", e.ActivationToken(old(config.client.host.options)));
        var read := ReadThrough(old(config.client.host.transients), config.client.UpdateCacheKey(e), ForceCheck(request),
                                Classify(old(config.client.remote.Next(call))), config.client.TtlOf("info"));
        var update := if !Empty(read.value) && read.value.Arr? then FormatPluginUpdate(read.value, e, request, config.client.lib) else read.value;
        if old(transient.response).None? then
          && transient.response == old(transient.response)
          && config.client.host.transients == old(config.client.host.transients)
          && config.client.remote.log == old(config.client.remote.log)
        else
          && transient.response == Some(WithUpdate(old(transient.response).value, e.basename, update))
          && config.client.host.transients == read.store
          && config.client.remote.log == old(config.client.remote.log) + (if read.called then [call] else [])
      ensures config.client.host.options == old(config.client.host.options)
      ensures config.client.host.siteTransients == old(config.client.host.siteTransients)
    {
      if transient.response.None? {
        return;
      }
      var forceCheck := "force-check" in request.query && IntCast(Str(request.query["force-check"])) == 1;
      var update := CheckUpdate(forceCheck);
      if update.Arr? && IsSet(update.entries, "new_version") {
        transient.response := Some(transient.response.value[ArrayKey(config.entity.basename) := update]);
      }
    }

    /** `modify_plugin_details($result, $action, $args)`: answers the details
        query for this entity's slug from the cached software record. */
    method ModifyPluginDetails(result: Value, action: Value, args: ApiArgs) returns (r: Value)
      modifies config.client.host, config.client.remote
      ensures var e := config.entity;
        var call := InfoCall(e, "wp", e.ActivationToken(old(config.client.host.options)));
        var read := ReadThrough(old(config.client.host.transients), config.client.UpdateCacheKey(e), false,
                                Classify(old(config.client.remote.Next(call))), config.client.TtlOf("info"));
        if AsksForDetails(action, args, e) then
          && r == DetailsFrom(result, read.value)
          && config.client.host.transients == read.store
          && config.client.remote.log == old(config.client.remote.log) + (if read.called then [call] else [])
        else
          && r == result
          && config.client.host.transients == old(config.client.host.transients)
          && config.client.remote.log == old(config.client.remote.log)
      ensures config.client.host.options == old(config.client.host.options)
      ensures config.client.host.siteTransients == old(config.client.host.siteTransients)
    {
      if action != Str("plugin_information") {
        return result;
      }
      var slug := SlugArg(args);
      if Str(config.entity.Slug()) != slug {
        return result;
      }
      var response := config.client.PrepareInfo(config.entity, "wp", false);
      if Empty(response) {
        return result;
      }
      var details := FormatPluginDetails(response);
      if details.None? {
        return result;
      }
      r := details.value;
    }

    /** `modify_plugin_update_message()`: the notice under the update row. */
    method ModifyPluginUpdateMessage() returns (notice: UpdateNotice)
      modifies config.client.host, config.client.remote
      ensures var e := config.entity;
        var token := e.ActivationToken(old(config.client.host.options));
        var read := ReadThrough(old(config.client.host.transients), config.client.LicenseCacheKey(token), false,
                                Classify(old(config.client.remote.Next(ValidateCall(token)))), config.client.TtlOf("validateLicense"));
        if Empty(token) then
          && notice == ActivateNotice(e.purchaseUrl, e.settingsUrl)
          && config.client.host.transients == old(config.client.host.transients)
          && config.client.remote.log == old(config.client.remote.log)
        else
          && notice == UpdateNoticeFor(token, read.value, e, config.client.lib)
          && config.client.host.transients == read.store
          && config.client.remote.log == old(config.client.remote.log) + (if read.called then [ValidateCall(token)] else [])
      ensures config.client.host.options == old(config.client.host.options)
      ensures config.client.host.siteTransients == old(config.client.host.siteTransients)
    {
      var e := config.entity;
      var token := e.ActivationToken(config.client.host.options);
      if !Empty(token) {
        var license := config.client.PrepareValidateLicense(token, false);
        notice := UpdateNoticeFor(token, license, e, config.client.lib);
      } else {
        notice := ActivateNotice(e.purchaseUrl, e.settingsUrl);
      }
    }
  }
}
