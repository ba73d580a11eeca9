/**
 * The configuration of src/Core/Configuration.php: it picks the context
 * (plugin or theme), splits the caller's arguments between the entity and
 * the API client, defaults the shared prefix, merges the labels and records
 * whether the key input is masked.
 */
module Configurations {
  import opened Php
  import opened Wordpress
  import opened Models
  import opened Clients
  import opened Utilities

  /** The arguments the entity takes, besides the prefix. */
  const EntityKeys: seq<string> := ["id", "name", "basename", "file", "version", "url_settings", "url_purchase"]

  /** The arguments the client takes, besides the prefix and the cache lifetimes. */
  const ClientKeys: seq<string> := ["consumer_key", "consumer_secret", "api_url"]

  const CacheTtlPrefix := "cache_ttl_"

  /** `strpos($key, 'cache_ttl_') === 0`. */
  predicate IsCacheTtlKey(k: string) {
    |k| >= |CacheTtlPrefix| && k[..|CacheTtlPrefix|] == CacheTtlPrefix
  }

  /** The prefix shared by the entity and the client. */
  function PrefixOf(args: map<string, Value>): Value {
    ArgOr(args, "prefix", Str("dlm"))
  }

  /** The context as the constructor writes it: a non-empty `context` that
      loosely equals "theme" or "plugin" is kept as given, else "plugin". */
  function ContextAsWritten(args: map<string, Value>): Value {
    if "context" in args && !Empty(args["context"])
       && (LooseEqualsWord(args["context"], "theme") || LooseEqualsWord(args["context"], "plugin"))
    then args["context"]
    else Str("plugin")
  }

  /** The entity the constructor builds for a context: a Plugin for exactly
      "plugin", a Theme for exactly "theme", and none otherwise. */
  function KindFor(context: Value): Option<Kind> {
    if context == Str("plugin") then Some(Plugin)
    else if context == Str("theme") then Some(Theme)
    else None
  }

  /** As written, `context => true` passes the loose check and then matches
      neither strict comparison, so no entity is built; every other context
      ends in an entity. */
  lemma ContextAsWrittenLeavesNoEntity(args: map<string, Value>)
    ensures KindFor(ContextAsWritten(args)) == None <==> "context" in args && args["context"] == Bool(true)
  {
  }

  /** The context with the comparison made strict: "theme" for exactly the
      string "theme", "plugin" for everything else. */
  function Context(args: map<string, Value>): (k: Kind)
    ensures k == Theme <==> "context" in args && args["context"] == Str("theme")
  {
    if "context" in args && args["context"] == Str("theme") then Theme else Plugin
  }

  /** The strict context agrees with the written one whenever the written one
      builds an entity. */
  lemma ContextAgreesWhereWrittenBuilds(args: map<string, Value>)
    requires KindFor(ContextAsWritten(args)).Some?
    ensures KindFor(ContextAsWritten(args)) == Some(Context(args))
  {
  }

  /** The arguments the entity is built from. */
  function EntityArgs(args: map<string, Value>): map<string, Value> {
    Only(args, EntityKeys)["prefix" := PrefixOf(args)]
  }

  /** The cache lifetime arguments, passed on whatever their value. */
  function CacheArgs(args: map<string, Value>): map<string, Value> {
    map k | k in args && IsCacheTtlKey(k) :: args[k]
  }

  /** The arguments the client is built from. */
  function ClientArgs(args: map<string, Value>): map<string, Value> {
    (Only(args, ClientKeys) + CacheArgs(args))["prefix" := PrefixOf(args)]
  }

  /** The entity receives only its seven keys and the prefix, each set key as given. */
  lemma EntityArgsPartition(args: map<string, Value>)
    ensures forall k :: k in EntityArgs(args) ==> k in EntityKeys || k == "prefix"
    ensures forall k :: k in EntityKeys && IsSet(args, k) ==> k in EntityArgs(args) && EntityArgs(args)[k] == args[k]
    ensures "prefix" in EntityArgs(args) && EntityArgs(args)["prefix"] == PrefixOf(args)
  {
  }

  /** The client receives only its three keys, the cache lifetimes and the prefix. */
  lemma ClientArgsPartition(args: map<string, Value>)
    ensures forall k :: k in ClientArgs(args) ==> k in ClientKeys || IsCacheTtlKey(k) || k == "prefix"
    ensures forall k :: k in ClientKeys && IsSet(args, k) ==> k in ClientArgs(args) && ClientArgs(args)[k] == args[k]
    ensures forall k :: k in args && IsCacheTtlKey(k) ==> k in ClientArgs(args) && ClientArgs(args)[k] == args[k]
    ensures "prefix" in ClientArgs(args) && ClientArgs(args)["prefix"] == PrefixOf(args)
  {
    forall k | k in args && IsCacheTtlKey(k)
      ensures k != "prefix"
    {
      assert k[0] == 'c';
    }
  }

  /** Every cache lifetime the client reads from its arguments is the one the
      caller gave. */
  lemma ClientArgsKeepTtls(args: map<string, Value>, name: string, default: int)
    ensures ConfiguredTtl(ClientArgs(args), name, default) == ConfiguredTtl(args, name, default)
  {
    var arg := "cache_ttl_" + name;
    assert arg[..|CacheTtlPrefix|] == CacheTtlPrefix;
    assert arg[0] == 'c';
  }

  /** The entity built from the split arguments has the caller's attributes
      (purchase and settings URL crossed, as the entity constructor does) and
      the shared prefix. */
  lemma EntityFromSplitArgs(kind: Kind, args: map<string, Value>)
    ensures var e := FromArgs(kind, EntityArgs(args));
      && e.prefix == PrefixOf(args)
      && e.id == ArgOr(args, "id", Null) && e.name == ArgOr(args, "name", Null)
      && e.basename == ArgOr(args, "basename", Null) && e.version == ArgOr(args, "version", Null)
      && e.file == ArgOr(args, "file", Str(""))
      && e.purchaseUrl == ArgOr(args, "url_settings", Null) && e.settingsUrl == ArgOr(args, "url_purchase", Null)
  {
    EntityArgsPartition(args);
    assert IsSet(EntityArgs(args), "prefix");
  }

  /** None of the client's own keys starts with `cache_ttl_`. */
  lemma ClientKeysAreNotTtls()
    ensures forall k :: k in ClientKeys ==> !IsCacheTtlKey(k)
  {
    forall k | k in ClientKeys ensures !IsCacheTtlKey(k) {
      assert k == "consumer_key" || k == "consumer_secret" || k == "api_url";
      assert k[1] != CacheTtlPrefix[1];
    }
  }

  /** The client built from the split arguments has the caller's credentials
      and URL, the shared prefix and the caller's cache lifetimes. */
  lemma ClientFromSplitArgs(args: map<string, Value>)
    ensures var ca := ClientArgs(args);
      && ArgOr(ca, "consumer_key", Str("")) == ArgOr(args, "consumer_key", Str(""))
      && ArgOr(ca, "consumer_secret", Str("")) == ArgOr(args, "consumer_secret", Str(""))
      && ArgOr(ca, "api_url", Str("")) == ArgOr(args, "api_url", Str(""))
      && ArgOr(ca, "prefix", Str("dlm")) == PrefixOf(args)
      && ConfiguredTtl(ca, "info", 900) == ConfiguredTtl(args, "info", 900)
      && ConfiguredTtl(ca, "validateLicense", 3600) == ConfiguredTtl(args, "validateLicense", 3600)
  {
    ClientArgsPartition(args);
    ClientArgsKeepTtls(args, "info", 900);
    ClientArgsKeepTtls(args, "validateLicense", 3600);
    ClientKeysAreNotTtls();
  }

  /** The default labels of `getDefaultLabels()`, key and text, in the source's order. */
  const DefaultLabelList: seq<(string, string)> := [
    ("activator.no_permissions",
     "Sorry, you dont have enough permissions to manage those settings."),
    ("activator.license_removed",
     "License removed."),
    ("activator.invalid_action",
     "Invalid action."),
    ("activator.invalid_license_key",
     "Please provide valid product key."),
    ("activator.license_activated",
     "Congrats! Your key is valid and your product will receive future updates"),
    ("activator.license_deactivated",
     "The license key is now deactivated."),
    ("activator.activation_permanent",
     "License :status. Activation permanent."),
    ("activator.activation_expires",
     "License :status. Expires on :expires_at (:days_remaining days remaining)."),
    ("activator.activation_deactivated_permanent",
     "License :status. Deactivated on :deactivated_at (Valid permanently)"),
    ("activator.activation_deactivated_expires",
     "License :status. Deactivated on :deactivated_at (:days_remaining days remaining)"),
    ("activator.activation_expired_purchase",
     "Your license is :status. To get regular updates and support, please <purchase_link>purchase the product</purchase_link>."),
    ("activator.activation_purchase",
     "To get regular updates and support, please <purchase_link>purchase the product</purchase_link>."),
    ("activator.word_valid",
     "valid"),
    ("activator.word_expired",
     "expired"),
    ("activator.word_expired_or_invalid",
     "expired or invalid"),
    ("activator.word_deactivate",
     "Deactivate"),
    ("activator.word_activate",
     "Activate"),
    ("activator.word_reactivate",
     "Reactivate"),
    ("activator.word_purchase",
     "Purchase"),
    ("activator.word_renew",
     "Renew"),
    ("activator.word_remove",
     "Remove"),
    ("activator.word_product_key",
     "Product Key"),
    ("activator.help_remove",
     "Remove the license key"),
    ("activator.help_product_key",
     "Enter your product key")]

  /** No pair after the `i`th has its key. */
  predicate LastWithKey(list: seq<(string, string)>, i: int)
    requires 0 <= i < |list|
  {
    forall j :: i < j < |list| ==> list[j].0 != list[i].0
  }

  /** The map of a key/text list; a later pair overrides an earlier one, so
      each key maps to the text of its last pair. */
  function LabelMap(list: seq<(string, string)>): (m: map<string, Value>)
    ensures forall k :: k in m <==> exists i :: 0 <= i < |list| && list[i].0 == k
  {
    if list == [] then map[]
    else
      var last := list[|list| - 1];
      LabelMap(list[..|list| - 1])[last.0 := Str(last.1)]
  }

  /** Each key maps to the text of its last pair in the list. */
  lemma {:induction false} LabelMapTexts(list: seq<(string, string)>, i: int)
    requires 0 <= i < |list| && LastWithKey(list, i)
    ensures list[i].0 in LabelMap(list) && LabelMap(list)[list[i].0] == Str(list[i].1)
    decreases |list|
  {
    var rest := list[..|list| - 1];
    if i < |list| - 1 {
      assert list[|list| - 1].0 != list[i].0;
      assert rest[i] == list[i];
      assert LastWithKey(rest, i);
      LabelMapTexts(rest, i);
    }
  }

  /** `getDefaultLabels()`. */
  function DefaultLabels(): map<string, Value> {
    LabelMap(DefaultLabelList)
  }

  /** The labels: the defaults, overridden key by key by a non-empty `labels` array. */
  function Labels(args: map<string, Value>): map<string, Value> {
    if "labels" in args && !Empty(args["labels"]) && args["labels"].Arr? then DefaultLabels() + args["labels"].entries
    else DefaultLabels()
  }

  /** Every label is the caller's override when one is given, and the default otherwise. */
  lemma LabelsMerge(args: map<string, Value>, k: string)
    ensures var ls := Labels(args);
      var given := if "labels" in args && args["labels"].Arr? then args["labels"].entries else map[];
      && (k in given ==> k in ls && ls[k] == given[k])
      && (k !in given && k in DefaultLabels() ==> k in ls && ls[k] == DefaultLabels()[k])
      && (k in ls ==> k in given || k in DefaultLabels())
  {
  }

  /** `label($key)`: the label when it is set, else the key itself. */
  function LabelIn(labels: map<string, Value>, k: string): (r: Value)
    ensures IsSet(labels, k) ==> r == labels[k]
    ensures !IsSet(labels, k) ==> r == Str(k)
  {
    if IsSet(labels, k) then labels[k] else Str(k)
  }

  /** The label `label($key)` gives on a configuration built from `args`: the
      caller's label when a non-empty `labels` array sets it; the key itself
      when that array holds null for it; else the default text of the key's
      last pair in the default list; and the key itself for an unknown key. */
  lemma ConfigurationLabel(args: map<string, Value>, k: string)
    ensures var given := if "labels" in args && !Empty(args["labels"]) && args["labels"].Arr? then args["labels"].entries else map[];
      var r := LabelIn(Labels(args), k);
      && (IsSet(given, k) ==> r == given[k])
      && (k in given && given[k] == Null ==> r == Str(k))
      && (k !in given ==> forall i :: 0 <= i < |DefaultLabelList| && DefaultLabelList[i].0 == k && LastWithKey(DefaultLabelList, i)
                            ==> r == Str(DefaultLabelList[i].1))
      && (k !in given && k !in DefaultLabels() ==> r == Str(k))
  {
    forall i | 0 <= i < |DefaultLabelList| && DefaultLabelList[i].0 == k && LastWithKey(DefaultLabelList, i) {
      LabelMapTexts(DefaultLabelList, i);
    }
  }

  /** `mask_key_input` as a bool when given, and unset otherwise. */
  function MaskKeyInput(args: map<string, Value>): (r: Option<bool>)
    ensures r.Some? <==> IsSet(args, "mask_key_input")
    ensures r.Some? ==> (r.value <==> Truthy(args["mask_key_input"]))
  {
    if IsSet(args, "mask_key_input") then Some(Truthy(args["mask_key_input"])) else None
  }

  /** The flag under PHP's `(bool)`: a boolean is kept, null leaves it unset,
      and '' and '0' turn it off while any other string turns it on. */
  lemma MaskKeyInputValues(args: map<string, Value>, s: string)
    ensures MaskKeyInput(args["mask_key_input" := Null]) == None
    ensures MaskKeyInput(args["mask_key_input" := Bool(true)]) == Some(true)
    ensures MaskKeyInput(args["mask_key_input" := Bool(false)]) == Some(false)
    ensures MaskKeyInput(args["mask_key_input" := Str("")]) == Some(false)
    ensures MaskKeyInput(args["mask_key_input" := Str("0")]) == Some(false)
    ensures s != "" && s != "0" ==> MaskKeyInput(args["mask_key_input" := Str(s)]) == Some(true)
  {
  }

  /** The constructor's `foreach ($args ...)`: copies every `cache_ttl_` argument
      into the client arguments, in whatever order the keys come. */
  method AddCacheArgs(clientArgs: map<string, Value>, args: map<string, Value>) returns (r: map<string, Value>)
    requires forall k :: k in clientArgs ==> !IsCacheTtlKey(k)
    ensures r == clientArgs + CacheArgs(args)
  {
    r := clientArgs;
    var pending := args.Keys;
    while pending != {}
      invariant pending <= args.Keys
      invariant forall k :: k in r <==> k in clientArgs || (k in args && k !in pending && IsCacheTtlKey(k))
      invariant forall k :: k in r ==> r[k] == if IsCacheTtlKey(k) then args[k] else clientArgs[k]
      decreases pending
    {
      var key :| key in pending;
      if IsCacheTtlKey(key) {
        r := r[key := args[key]];
      }
      pending := pending - {key};
    }
  }

  /** The constructor's split of its arguments: the entity's keys and the
      client's keys with the cache lifetimes, each with the prefix added. */
  method SplitArgs(args: map<string, Value>) returns (entityArgs: map<string, Value>, clientArgs: map<string, Value>)
    ensures entityArgs == EntityArgs(args) && clientArgs == ClientArgs(args)
  {
    entityArgs := ArrayOnly(args, EntityKeys);
    clientArgs := ArrayOnly(args, ClientKeys);
    ClientKeysAreNotTtls();
    clientArgs := AddCacheArgs(clientArgs, args);
    entityArgs := entityArgs["prefix" := PrefixOf(args)];
    clientArgs := clientArgs["prefix" := PrefixOf(args)];
  }

  class Configuration {
    const client: Client
    const entity: Entity
    const prefix: Value
    const labels: map<string, Value>
    const maskKeyInput: Option<bool>

    /** `new Configuration($args)`, with the context compared strictly. */
    constructor (args: map<string, Value>, host: Host, remote: Remote, lib: Library)
      ensures prefix == PrefixOf(args)
      ensures entity == FromArgs(Context(args), EntityArgs(args))
      ensures fresh(client) && client.host == host && client.remote == remote && client.lib == lib
      ensures client.prefix == prefix && entity.prefix == prefix
      ensures client.consumerKey == ArgOr(args, "consumer_key", Str(""))
      ensures client.consumerSecret == ArgOr(args, "consumer_secret", Str(""))
      ensures client.baseUrl == ArgOr(args, "api_url", Str(""))
      ensures client.cacheTTL == map[
        "info" := ConfiguredTtl(args, "info", 900),
        "validateLicense" := ConfiguredTtl(args, "validateLicense", 3600)]
      ensures labels == Labels(args) && maskKeyInput == MaskKeyInput(args)
    {
      var entityArgs, clientArgs := SplitArgs(args);
      prefix := PrefixOf(args);
      EntityFromSplitArgs(Context(args), args);
      entity := FromArgs(Context(args), entityArgs);
      ClientFromSplitArgs(args);
      client := new Client(clientArgs, host, remote, lib);
      labels := Labels(args);
      maskKeyInput := MaskKeyInput(args);
    }

    /** `label($key)`. */
    function Label(k: string): Value {
      LabelIn(labels, k)
    }

    /** `clearCache()`: the client's cache for this configuration's entity. */
    method ClearCache()
      modifies client.host
      ensures client.host.transients
        == client.Cleared(old(client.host.transients), entity, entity.ActivationToken(old(client.host.options)))
      ensures client.host.siteTransients == old(client.host.siteTransients) - {"update_plugins"}
      ensures client.host.options == old(client.host.options)
    {
      client.ClearCache(entity);
    }
  }
}
