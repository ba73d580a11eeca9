/**
 * The licensed entity of src/Models/Model.php (a plugin or a theme): its
 * identity and descriptive attributes, fixed at construction, and its
 * license key and activation token, kept in the host's option store.
 */
module Models {
  import opened Php
  import opened Wordpress

  datatype Kind = Plugin | Theme

  datatype Entity = Entity(
    kind: Kind,
    id: Value,
    name: Value,
    basename: Value,
    file: Value,
    version: Value,
    purchaseUrl: Value,
    settingsUrl: Value,
    prefix: Value)
  {
    /** `getLicenseKeyOptionName()`, with the name filter taken as the identity. */
    function LicenseKeyOptionName(): string {
      ToStr(prefix) + "_product_key_" + ToStr(id)
    }

    /** `getActivationTokenOptionName()`, with the name filter taken as the identity. */
    function ActivationTokenOptionName(): string {
      ToStr(prefix) + "_activation_token_" + ToStr(id)
    }

    /** `getLicenseKey()`: the stored key, or false. */
    function LicenseKey(options: map<string, Value>): Value {
      OptionValue(options, LicenseKeyOptionName())
    }

    /** `getActivationToken()`: the stored token, or false. */
    function ActivationToken(options: map<string, Value>): Value {
      OptionValue(options, ActivationTokenOptionName())
    }

    method SetLicenseKey(host: Host, key: Value)
      modifies host
      ensures host.options == old(host.options)[LicenseKeyOptionName() := key]
      ensures LicenseKey(host.options) == key
      ensures ActivationToken(host.options) == old(ActivationToken(host.options))
      ensures host.transients == old(host.transients) && host.siteTransients == old(host.siteTransients)
    {
      OptionNamesDistinct(this);
      host.UpdateOption(LicenseKeyOptionName(), key);
    }

    method DeleteLicenseKey(host: Host)
      modifies host
      ensures host.options == old(host.options) - {LicenseKeyOptionName()}
      ensures LicenseKey(host.options) == Bool(false)
      ensures ActivationToken(host.options) == old(ActivationToken(host.options))
      ensures host.transients == old(host.transients) && host.siteTransients == old(host.siteTransients)
    {
      OptionNamesDistinct(this);
      host.DeleteOption(LicenseKeyOptionName());
    }

    method SetActivationToken(host: Host, token: Value)
      modifies host
      ensures host.options == old(host.options)[ActivationTokenOptionName() := token]
      ensures ActivationToken(host.options) == token
      ensures LicenseKey(host.options) == old(LicenseKey(host.options))
      ensures host.transients == old(host.transients) && host.siteTransients == old(host.siteTransients)
    {
      OptionNamesDistinct(this);
      host.UpdateOption(ActivationTokenOptionName(), token);
    }

    method DeleteActivationToken(host: Host)
      modifies host
      ensures host.options == old(host.options) - {ActivationTokenOptionName()}
      ensures ActivationToken(host.options) == Bool(false)
      ensures LicenseKey(host.options) == old(LicenseKey(host.options))
      ensures host.transients == old(host.transients) && host.siteTransients == old(host.siteTransients)
    {
      OptionNamesDistinct(this);
      host.DeleteOption(ActivationTokenOptionName());
    }

    /** `getSlug()`: the basename up to its first '/'. */
    function Slug(): string {
      SlugOf(ToStr(basename))
    }
  }

  /** `explode('/', $basename)[0]`. */
  function SlugOf(s: string): (r: string)
    ensures r <= s
    ensures forall k :: 0 <= k < |r| ==> r[k] != '/'
    ensures |r| < |s| ==> s[|r|] == '/'
  {
    if s == [] || s[0] == '/' then [] else [s[0]] + SlugOf(s[1..])
  }

  /** The slug is the whole basename exactly when the basename has no '/'. */
  lemma SlugIsWholeIffNoSlash(s: string)
    ensures SlugOf(s) == s <==> forall k :: 0 <= k < |s| ==> s[k] != '/'
  {
  }

  /** A plugin basename "dir/file.php" has slug "dir". */
  lemma SlugOfPluginBasename(dir: string, file: string)
    requires forall k :: 0 <= k < |dir| ==> dir[k] != '/'
    ensures SlugOf(dir + "/" + file) == dir
  {
    var s := dir + "/" + file;
    var r := SlugOf(s);
    assert s[|dir|] == '/';
    assert forall k :: 0 <= k < |dir| ==> s[k] == dir[k] != '/';
    assert r == s[..|r|] == dir;
  }

  /** `new Model($args)`: each attribute from its argument when set, with the
      defaults of the source. As written, `url_settings` lands in purchaseUrl
      and `url_purchase` in settingsUrl. */
  function FromArgs(kind: Kind, args: map<string, Value>): Entity {
    Entity(
      kind,
      id := ArgOr(args, "id", Null),
      name := ArgOr(args, "name", Null),
      basename := ArgOr(args, "basename", Null),
      file := ArgOr(args, "file", Str("")),
      version := ArgOr(args, "version", Null),
      purchaseUrl := ArgOr(args, "url_settings", Null),
      settingsUrl := ArgOr(args, "url_purchase", Null),
      prefix := ArgOr(args, "prefix", Str("dlm")))
  }

  /** `isset($args[$k]) ? $args[$k] : $default`. */
  function ArgOr(args: map<string, Value>, k: string, default: Value): (v: Value)
    ensures IsSet(args, k) ==> v == args[k]
    ensures !IsSet(args, k) ==> v == default
  {
    if IsSet(args, k) then args[k] else default
  }

  /** The constructor's defaults: prefix "dlm", id null, file "", and the two
      URLs read from each other's argument. */
  lemma FromArgsDefaults(kind: Kind, args: map<string, Value>)
    ensures var e := FromArgs(kind, args);
      && (!IsSet(args, "prefix") ==> e.prefix == Str("dlm"))
      && (!IsSet(args, "id") ==> e.id == Null)
      && (!IsSet(args, "file") ==> e.file == Str(""))
      && (IsSet(args, "url_settings") ==> e.purchaseUrl == args["url_settings"])
      && (IsSet(args, "url_purchase") ==> e.settingsUrl == args["url_purchase"])
  {
  }

  /** The key and the token of one entity live under different option names. */
  lemma OptionNamesDistinct(e: Entity)
    ensures e.LicenseKeyOptionName() != e.ActivationTokenOptionName()
  {
    var p, i := ToStr(e.prefix), ToStr(e.id);
    var k, t := e.LicenseKeyOptionName(), e.ActivationTokenOptionName();
    assert |k| == |p| + 13 + |i|;
    assert |t| == |p| + 18 + |i|;
  }

  /** Two entities with the same prefix share a license option exactly when
      their ids print the same; the same holds for the token option. */
  lemma OptionNamesByPrefixAndId(e: Entity, f: Entity)
    requires ToStr(e.prefix) == ToStr(f.prefix)
    ensures e.LicenseKeyOptionName() == f.LicenseKeyOptionName() <==> ToStr(e.id) == ToStr(f.id)
    ensures e.ActivationTokenOptionName() == f.ActivationTokenOptionName() <==> ToStr(e.id) == ToStr(f.id)
  {
    var head := ToStr(e.prefix) + "_product_key_";
    if e.LicenseKeyOptionName() == f.LicenseKeyOptionName() {
      AppendCancel(head, ToStr(e.id), ToStr(f.id));
    }
    var head' := ToStr(e.prefix) + "_activation_token_";
    if e.ActivationTokenOptionName() == f.ActivationTokenOptionName() {
      AppendCancel(head', ToStr(e.id), ToStr(f.id));
    }
  }
}
