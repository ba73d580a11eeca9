# dlm-wp-updater core, modelled in Dafny

A model of the WordPress license-and-update client library `dlm-wp-updater`. The modelled parts are:

- **the caching API client** (`src/Http/Client.php`). It builds the calls to
  the licensing service and turns every transport outcome into a Response
  envelope. It also keeps two read-through caches in the host's transient
  store: the software record and the license validation.
- **the license activator** (`src/Core/Activator.php`). A guard chain turns a
  posted form into an activate or deactivate command. The commands change the
  stored key, the stored token, the clear-cache flag and the one-shot flash
  message. The activator also migrates legacy keys once, and derives the view
  model of the activation form.
- **the updater** (`src/Core/Updater.php`). It uses a restricted
  `version_compare` to decide whether to offer an update, and builds the
  update descriptor. Four host hooks are modelled:
  - the update transient, into which the descriptor is inserted;
  - the "plugin details" filter;
  - the notice under the plugin's update row;
  - `check_update`.
- **the value types they share**:
  - the Response envelope;
  - the licensed entity (Model): its option names, and its key and token in
    the option store;
  - the Configuration, which partitions the arguments and merges labels;
  - `arrayOnly` and the guards of the date helpers.

Layout, one module per file:

| file | module | models |
|---|---|---|
| `php.dfy` | `Php` | PHP values, `empty`, `isset`, `(int)`, `is_numeric`, string conversion, `trim` |
| `versions.dfy` | `Versions` | `version_compare` on dotted-numeric versions |
| `wordpress.dfy` | `Wordpress` | the host's option and transient stores (`Host`), the licensing service as an oracle with a call log (`Remote`), the request, opaque library functions |
| `responses.dfy` | `Responses` | `src/Http/Response.php` |
| `models.dfy` | `Models` | `src/Models/Model.php` |
| `utilities.dfy` | `Utilities` | `src/Core/Utilities.php` |
| `clients.dfy` | `Clients` | `src/Http/Client.php` |
| `configurations.dfy` | `Configurations` | `src/Core/Configuration.php` |
| `activators.dfy` | `Activators` | `src/Core/Activator.php` |
| `updaters.dfy` | `Updaters` | `src/Core/Updater.php` |

Objects whose fields the source updates in place are classes with `modifies`
clauses: Response, Client, Host, Remote, Activator and the plugins transient.
Each of their methods is specified against a pure function of the old state:
- `Clients.Classify` for `_result`;
- `Clients.ReadThrough` for both cached lookups;
- `Activators.AfterCommand` for the activate and deactivate branches;
- `Activators.AfterMigration` for the legacy migration;
- `Activators.FormViewOf` for the activation form;
- `Updaters.FormatPluginUpdate`, `Updaters.DetailsFrom`,
  `Updaters.UpdateNoticeFor` and `Updaters.WithUpdate` for the updater hooks.

The lemmas beside each function prove what the source promises of it.

The remote service is an oracle `respond(callIndex, call)`. A method that
calls it states the exact call it appends to the log, and is specified in
terms of the answer that call would get. A configuration built from the
same arguments is the Entity and Client the source would build.

## Model

| member | source | states |
|---|---|---|
| Clients.Client.constructor | src/Http/Client.php:47-57 | credentials, URL and prefix come from their arguments when set ('' / 'dlm' otherwise); the two lifetimes are 900 s and 3600 s, each replaced by a numeric `cache_ttl_<name>` argument |
| Clients.ConfiguredTtlSpec | src/Http/Client.php:53-55 | a lifetime override applies only when the argument is set and numeric; an integer given as a number or as its decimal string is taken as that integer |
| Clients.LicenseCacheKeySpec | src/Http/Client.php:66-68 | the license key is prefix + "_license_" + 12 digest characters, so its length does not depend on the token; two tokens share a key iff their digests agree on those 12 characters |
| Clients.UpdateCacheKeyByVersion | src/Http/Client.php:77-79 | for one entity id, update keys agree iff the versions print the same |
| Clients.CacheKeysDisjoint | src/Http/Client.php:66-79 | a license key never equals an update key |
| Clients.Client.Info | src/Http/Client.php:147-158 | exactly one call, to `software/<id>` with those parameters, and the Response built from its answer |
| Clients.Client.ActivateLicense | src/Http/Client.php:104-108 | exactly one call, to `licenses/activate/<key>` with the given parameters, and the Response built from its answer |
| Clients.Client.DeactivateLicense | src/Http/Client.php:118-122 | exactly one call, to `licenses/deactivate/<token>`, and the Response built from its answer |
| Clients.Client.ValidateLicense | src/Http/Client.php:132-136 | exactly one call, to `licenses/validate/<token>`, and the Response built from its answer |
| Clients.Client.Get | src/Http/Client.php:281-288 | one GET: the call is appended to the log, and its answer is returned |
| Clients.Client.Decode | src/Http/Client.php:245-267 | the Response filled in through the setters holds exactly the classified envelope of the transport result |
| Clients.Client.Result | src/Http/Client.php:243-270 | without decoding, the transport result passes through unchanged; with decoding, a fresh Response holding its classification |
| Clients.ClassifyOutcomes | src/Http/Client.php:245-267 | the four outcomes of `_result`: `http_error` with the transport message; "Unable to decode response. (1)" for a body that is not an array; the remote message and code for a structured error; "(2)" for a missing `data`, otherwise the data with no error; `raw` is always set |
| Clients.ErrorCarriesNoData | src/Http/Client.php:247-262 | no error branch sets the payload: an error envelope carries the empty array, and a non-empty payload comes only from a successful body |
| Clients.ErrorIffNotSuccess | src/Http/Client.php:245-264 | when the remote or transport message is not itself empty, the envelope is an error iff the body was not a successful one |
| Clients.ReadThroughHit | src/Http/Client.php:175-180 | a cache hit without force returns the stored value, calls nothing and leaves the store unchanged |
| Clients.ReadThroughMiss | src/Http/Client.php:183-194 | on a miss or with force, the service is called, its payload is returned, and the key maps to exactly that payload (lifetime 1 on error, otherwise the configured one); every other key is unchanged |
| Clients.ErrorIsCachedEmptyAndBriefly | src/Http/Client.php:187-192 | a failed call returns and caches the empty array for one second |
| Clients.ReadThroughRepeats | src/Http/Client.php:175-194 | once a lookup has stored a value other than false, the next lookup without force is a hit with the same value, whatever the service would now answer |
| Clients.Client.PrepareInfo | src/Http/Client.php:169-195 | the software record read through the cache under the update key: returned value, new transient store and call log are those of `ReadThrough`; options and site transients are unchanged |
| Clients.Client.PrepareValidateLicense | src/Http/Client.php:206-232 | the validation record read through the cache under the license key, with the same guarantees |
| Clients.Client.ClearCache | src/Http/Client.php:317-328 | the update entry is deleted, and so is the license entry when a token is stored; the `update_plugins` site transient is deleted and the options are unchanged |
| Clients.ClearedForcesFreshLookups | src/Http/Client.php:317-328 | after clearing, the next software lookup goes to the service, and so does the next validation lookup when a token is stored |
| Clients.ClearedKeepsOtherEntries | src/Http/Client.php:317-328 | clearing keeps every other cache entry as it was |
| Responses.Response.constructor | src/Http/Response.php:11-23 | a new Response has code '', error '', data [] and no raw result |
| Responses.BlankIsNotError | src/Http/Response.php:11-61 | a new Response is not an error, and `getData('')` is its empty payload |
| Responses.IsErrorOnMessage | src/Http/Response.php:59-61 | `isError()` on a string message is true iff the message is neither '' nor '0' |
| Responses.GetDataSpec | src/Http/Response.php:47-53 | `getData` with key '' or '0' gives the whole payload; with any other key it gives the entry when set, otherwise null |
| Responses.Response.SetData | src/Http/Response.php:36-38 | only the payload changes |
| Responses.Response.SetError | src/Http/Response.php:68-70 | only the message changes |
| Responses.Response.SetCode | src/Http/Response.php:85-87 | only the code changes |
| Responses.Response.SetRaw | src/Http/Response.php:110-112 | only the raw result changes |
| Responses.SetThenGet | src/Http/Response.php:36-112 | after the four setters, each getter returns the value its setter was given |
| Models.FromArgsDefaults | src/Models/Model.php:60-69 | prefix defaults to 'dlm', id to null and file to ''; `url_settings` lands in the purchase URL and `url_purchase` in the settings URL, as written |
| Models.OptionNamesDistinct | src/Models/Model.php:85-128 | an entity's license option and token option have different names |
| Models.OptionNamesByPrefixAndId | src/Models/Model.php:85-128 | with the same prefix, two entities share a license option (or a token option) iff their ids print the same |
| Models.Entity.SetLicenseKey | src/Models/Model.php:96-99 | the key option becomes the key, so reading it back gives the key; the token is unchanged |
| Models.Entity.DeleteLicenseKey | src/Models/Model.php:104-107 | the key option is removed, so reading it gives false; the token is unchanged |
| Models.Entity.SetActivationToken | src/Models/Model.php:135-138 | the token option becomes the token, so reading it back gives the token; the key is unchanged |
| Models.Entity.DeleteActivationToken | src/Models/Model.php:143-146 | the token option is removed, so reading it gives false; the key is unchanged |
| Models.SlugOf | src/Models/Model.php:209-214 | the slug is the longest prefix of the basename without '/', ending where the first '/' is |
| Models.SlugIsWholeIffNoSlash | src/Models/Model.php:209-214 | the slug is the whole basename iff the basename has no '/' |
| Models.SlugOfPluginBasename | src/Models/Model.php:209-214 | the basename "dir/file.php" has slug "dir" |
| Utilities.ArrayOnly | src/Core/Utilities.php:61-69 | the loop builds exactly the listed keys that are set in the input, each with its input value: every result key is listed and set, and every listed key that is set is present |
| Utilities.DaysDifference | src/Core/Utilities.php:39-51 | '' exactly when either date is empty |
| Utilities.FormattedDate | src/Core/Utilities.php:16-29 | false exactly when the date is empty |
| Configurations.ContextAsWrittenLeavesNoEntity | src/Core/Configuration.php:50-90 | as written, no entity is built exactly when `context` is `true` |
| Configurations.ContextAgreesWhereWrittenBuilds | src/Core/Configuration.php:50-90 | wherever the written code builds an entity, the corrected context builds the same kind |
| Configurations.EntityArgsPartition | src/Core/Configuration.php:56-82 | the entity receives only its seven keys and the prefix, each set key with the caller's value |
| Configurations.ClientArgsPartition | src/Core/Configuration.php:67-83 | the client receives only its three keys, the `cache_ttl_` arguments and the prefix, each with the caller's value |
| Configurations.ClientKeysAreNotTtls | src/Core/Configuration.php:67-78 | no key of the client's own three starts with `cache_ttl_` |
| Configurations.SplitArgs | src/Core/Configuration.php:56-83 | the entity arguments are the seven entity keys that are set, the client arguments the three client keys that are set plus every `cache_ttl_` argument, each with the prefix added |
| Configurations.AddCacheArgs | src/Core/Configuration.php:73-78 | the loop adds exactly the `cache_ttl_` arguments to the client arguments, whatever order the keys come in |
| Configurations.ClientArgsKeepTtls | src/Core/Configuration.php:73-78 | every lifetime the client reads from its arguments equals the one the caller gave |
| Configurations.EntityFromSplitArgs | src/Core/Configuration.php:56-87 | the built entity has the caller's attributes (the two URLs crossed, as in Model) and the shared prefix |
| Configurations.ClientFromSplitArgs | src/Core/Configuration.php:66-93 | the built client has the caller's credentials, URL and lifetimes, and the shared prefix |
| Configurations.LabelMap | src/Core/Configuration.php:150-177 | the default label map holds exactly the keys of the default list |
| Configurations.LabelMapTexts | src/Core/Configuration.php:150-177 | each key of the list maps to the text of its last pair, so a later pair overrides an earlier one |
| Configurations.LabelsMerge | src/Core/Configuration.php:95-99 | a caller's label overrides the default for its key, an unoverridden default is kept, and no other key appears |
| Configurations.ConfigurationLabel | src/Core/Configuration.php:186-188 | `label(k)` on a configuration is the caller's non-null label for k when a non-empty `labels` array was given; k itself when that array holds null for k; otherwise the default text of k's last pair in the default list; and k itself for a key with no default |
| Configurations.MaskKeyInputValues | src/Core/Configuration.php:101-104 | the mask flag under `(bool)`: null leaves it unset, a boolean is kept, '' and '0' turn it off and any other string turns it on |
| Configurations.Configuration.constructor | src/Core/Configuration.php:47-105 | the prefix, the entity built from the entity arguments (strict context), a fresh client built from the client arguments, the merged labels and the mask flag |
| Configurations.Configuration.ClearCache | src/Core/Configuration.php:134-136 | the client's cache is cleared for this configuration's entity |
| Activators.InExpiryCodesSpec | src/Core/Activator.php:97-105 | a string code matches iff it is one of the six codes; under loose comparison `true` matches too, and null, integers and false never do |
| Activators.FlashReadOnce | src/Core/Activator.php:342-361 | a flash reads back as {type, message}; after the removing read the slot reads false; other transients are untouched |
| Activators.FlashSurvivesClearCache | src/Core/Activator.php:195-203 | clearing the client cache before the flash is read never touches the flash |
| Activators.ParseCommand | src/Core/Activator.php:123-159 | the guard chain in order: ignored iff not a POST or the posted id is not the entity's; 'no permission' iff it is for the entity and the user lacks the capability; activate and deactivate only with that action, the capability and a non-empty trimmed key; and conversely a permitted POST for the entity with a non-empty trimmed key and action 'activate' gives `Activate` of that key, with action 'deactivate' gives `Deactivate` |
| Activators.ParseCommandRejects | src/Core/Activator.php:148-158 | a permitted request with an action other than the two is rejected as invalid; one with an empty key is rejected as an invalid key, for deactivate too |
| Activators.IgnoredRequestChangesNothing | src/Core/Activator.php:125-140 | an ignored request changes no option, no flash and not the flag, and calls nothing |
| Activators.ActivatedKeyIsTrimmed | src/Core/Activator.php:134 | the activated key is already trimmed |
| Activators.CommandCall | src/Core/Activator.php:160-177 | a call is made exactly for activate and deactivate |
| Activators.AfterCommandFrame | src/Core/Activator.php:160-189 | a command changes only the entity's two options and the flash slot |
| Activators.RejectOnlyFlashes | src/Core/Activator.php:142-158 | a failed guard sets its error flash and leaves the key, the token and the flag as they were |
| Activators.ActivationSucceeds | src/Core/Activator.php:160-166 | success stores the submitted key and the returned token, sets the flag and flashes success |
| Activators.ActivationFails | src/Core/Activator.php:167-174 | failure deletes the key and the token, keeps the flag, and flashes the error message |
| Activators.DeactivationClears | src/Core/Activator.php:175-189 | deactivation deletes the key and the token whatever the answer; the flag is set and success flashed iff it did not fail, otherwise the error is flashed |
| Activators.MigrationEffects | src/Core/Activator.php:86-109 | a success sets the token, and only a non-empty one, and then deletes the `update_plugins` site transient; a failure never sets the token, deletes the key iff the code is one of the six, and leaves the site transients alone |
| Activators.MigrationFrame | src/Core/Activator.php:86-109 | the migration changes no option but the entity's key and token, and adds none but the token |
| Activators.FormViewSpec | src/Core/Activator.php:206-242 | the form offers deactivation iff the record says it has not expired (a missing flag counts as expired); otherwise it offers activation and the purchase button; the key shown is the record's `license.license_key` or ''; readonly iff that key and the record's token are both non-empty; the expired notice iff expired and a token is stored |
| Activators.FailedValidationRendersExpired | src/Core/Activator.php:205-225 | a failed validation (cached as []) renders as expired, offering activation and purchase, with an editable key |
| Activators.ConstructorAsWrittenFails | src/Core/Activator.php:34-43 | the constructor as written dereferences an application it never stored, and fails; with the configuration stored first it builds that configuration's entity |
| Activators.RenderAsWrittenCallsUndefined | src/Core/Activator.php:207 | the form asks for `prepareLicense`, which the client does not define; the cached validation lookup is the one it means |
| Activators.Activator.constructor | src/Core/Activator.php:34-40 | the activator keeps its configuration; the clear flag is set iff `dlm_clear_cache` is in the query; the POST flag comes from the request |
| Activators.Activator.SetFlashMessage | src/Core/Activator.php:342-344 | the flash slot holds {type, message} for 320 seconds; nothing else changes |
| Activators.Activator.GetFlashedMessage | src/Core/Activator.php:353-361 | returns the flash, or false, and removes it when asked |
| Activators.Activator.FlashTwice | src/Core/Activator.php:342-361 | write then two reads: the message first, false second |
| Activators.Activator.HandleAfterActivation | src/Core/Activator.php:116-118 | clears the client cache for the entity |
| Activators.Activator.HandleLicenseActivation | src/Core/Activator.php:123-190 | options, flash and flag end as `AfterCommand` of the parsed command and of the service's answer, and the log grows by exactly that command's call |
| Activators.Activator.RunActivate | src/Core/Activator.php:160-174 | the activate branch, equal to `AfterCommand` of the answer to one activation call |
| Activators.Activator.RunDeactivate | src/Core/Activator.php:175-189 | the deactivate branch, equal to `AfterCommand` of the answer to one deactivation call |
| Activators.Activator.HandleLegacyMigration | src/Core/Activator.php:56-110 | the migration calls the service exactly when its guards pass, and then leaves the options and site transients as `AfterMigration` says; otherwise nothing changes |
| Activators.Activator.RenderActivationForm | src/Core/Activator.php:195-225 | clears the cache when flagged, takes the flash, then derives the form from the cached validation record of the stored token |
| Updaters.FormatPluginUpdateDecides | src/Core/Updater.php:172-186 | there is an update iff the record is not empty and its stable tag ('' when missing) is newer than the entity's version |
| Updaters.FormatPluginUpdateDescriptor | src/Core/Updater.php:182-208 | an update holds the slug, basename, purchase URL, the stable tag as new version and the tested version or ''; it has a package URL iff `download_url` is set and not empty |
| Updaters.UpdateOffered | src/Core/Updater.php:183-205 | a record with only a newer stable tag is offered as exactly that version, without a package |
| Updaters.NoUpdateWhenCurrent | src/Core/Updater.php:186 | an entity already at the stable tag is offered nothing |
| Updaters.DetailsFromSpec | src/Core/Updater.php:133-143 | once the record is known, the filter's answer is its non-empty `details` array, and otherwise the host's value unchanged |
| Updaters.UpdateNoticeSelection | src/Core/Updater.php:50-72 | the three outcomes: no token asks for activation; a token whose record is expired (or has no flag) gets the expired notice, dated iff the record has an expiry date; otherwise no notice |
| Updaters.FailedValidationNotice | src/Core/Updater.php:50-56 | a failed validation for a stored token gives the undated expired notice |
| Updaters.NoticeLinksFromArgs | src/Core/Updater.php:55-71 | for an entity built from its arguments, the activation notice's settings link is `url_settings` and its purchase link `url_purchase`; the expired notice links `url_settings` as the purchase page and `url_purchase` as the settings page |
| Updaters.WithUpdateFrame | src/Core/Updater.php:96-98 | insertion changes only the entry under the basename, and only for a descriptor with `new_version` |
| Updaters.Updater.CheckUpdate | src/Core/Updater.php:154-163 | the cached software record, formatted into a descriptor when it is a non-empty array |
| Updaters.Updater.ModifyPluginsTransient | src/Core/Updater.php:82-102 | with no response list nothing is looked up or changed; otherwise the list becomes `WithUpdate` of the checked update, with force taken from `force-check=1` |
| Updaters.Updater.ModifyPluginDetails | src/Core/Updater.php:113-144 | the host's value is returned untouched, without a lookup, unless the action is `plugin_information` for this slug; then it is `DetailsFrom` of the cached record |
| Updaters.Updater.ModifyPluginUpdateMessage | src/Core/Updater.php:43-73 | no token: the activation notice and no lookup; otherwise the notice `UpdateNoticeFor` the cached validation record |
| Versions.VersionGreaterIsStrictOrder | src/Core/Updater.php:186 | "newer than" is irreflexive, asymmetric and transitive |
| Versions.VersionTrichotomy | src/Core/Updater.php:186 | of two versions, one is newer or their parts are equal, and equal parts are not newer either way |
| Versions.VersionExamples | src/Core/Updater.php:186 | 2.2.0 is newer than 2.1.0; 2.1.0 is not newer than itself; 1.10 is newer than 1.9; 1.0.0 is newer than 1.0; '' is not newer than 1.0 |
| Php.IntToStringRoundTrip | src/Http/Client.php:54 | an integer's decimal string is numeric and `intval` gives the integer back |
| Php.IntCastOfRendering | src/Core/Activator.php:135 | `(int)` of an integer's decimal string is that integer, so a posted id can match the entity id |
| Php.ByteLength | src/Core/Activator.php:77 | `strlen` counts the bytes of the UTF-8 encoding, which are at least as many as the characters |
| Php.ByteLengthOfAscii | src/Core/Activator.php:77 | the byte length equals the number of characters exactly when every character is ASCII, so a 19-byte key with a multi-byte character has fewer than 19 characters |
| Php.TrimSpec | src/Core/Activator.php:134 | `trim` returns a contiguous piece of its input, cutting only trimmable characters on either side and leaving none at its ends |
| Php.TrimIdempotent | src/Core/Activator.php:134 | trimming twice is trimming once |

## Left out

- HTTP transport: URL building (`trailingslashit`, `add_query_arg` in `_get`), the auth headers, `apply_filters` on the request arguments. `_post` and `getLicense` are not modelled either; none of the modelled code calls them. The transport result is an input of the model.
- JSON decoding: a reply carries the value `json_decode` would produce. JSON floats and PHP objects are not among the values.
- `md5` is an opaque library function; the model does not relate the digest to the token.
- Clients.LicenseCacheKeySpec: does not state that the key never contains the token, because the digest is an opaque function here.
- The `decode = false` paths of `prepareInfo` and `prepareValidateLicense` are not modelled. They call `isError()` on a raw array. `_result`'s pass-through without decoding is modelled (Clients.Client.Result).
- Time: a transient records its lifetime but never expires; the host owns expiry.
- PHP arrays are maps with string keys. Entry order, integer keys and the renumbering `array_merge` does to integer keys are not modelled. `(object) $update` is modelled as the array itself.
- `is_numeric` covers signed decimals with an optional fraction. Exponents and leading or trailing whitespace are not covered; such TTL arguments are treated as non-numeric.
- `in_array` without its strict flag is modelled with PHP 8's loose comparison, against the non-numeric word literals the source compares with.
- `sanitize_text_field`, `__()` and the option-name filters are taken as the identity.
- String conversion of an array value gives "Array", as PHP's conversion does; the warning PHP emits is not modelled.
- Activators.LegacyEligible: `trim` of an array-valued stored key is a TypeError in PHP 8 (PHP 7 warns and returns null, so the length test fails); the model trims "Array" instead, a 5-byte key, so the migration is skipped with nothing changed where PHP 8 stops with a fatal error.
- Posted form fields: every field under `dlm[<id>]` is a string in `Wordpress.Request`. An array-valued `license_key`, which `sanitize_text_field` turns into '' and which is then rejected as an invalid key, and an array-valued `plugin_id`, which `(int)` casts to 0 or 1, are not expressible.
- Php.IntCast: `(int)` of a string with an exponent ("1e2" is 100 since PHP 7.1) or a fraction read as a float is not modelled; the cast stops at the first non-digit, giving 1 for "1e2". Out-of-range digits are not saturated at PHP_INT_MAX or PHP_INT_MIN, because integers are unbounded here. This affects the posted `plugin_id`, the `force-check` query argument and an intval'd TTL.
- `version_compare` is restricted to dotted-numeric versions; pre-release words ("beta", "RC") are not modelled.
- Dates: `DateTime` parsing and formatting, the site's date format and the clock are library functions of the model; only the empty-input guards of the date helpers are modelled.
- All HTML, CSS and JavaScript output, the `history.replaceState` script and `error_log`. The form's view model and the flash value stand in for what is printed.
- Hook registration in the constructors (`add_action`, `add_filter`, `register_activation_hook`), and the Updater constructor's exception outside WordPress.
- `modify_plugin_details` with `$args` an object whose `slug` is unset: the `isset($args['slug'])` fallback on an object is not modelled (ApiArgs has separate object and array shapes).
- The activator's message texts are the ones hardcoded in src/Core/Activator.php, not the configurable labels, as the source does.
- `src/Main.php`, `src/Application.php` and the Plugin and Theme subclasses are not part of this model.

## Findings

| source | as written | input that shows it | evidently intended | confidence | as-written member | corrected member |
|---|---|---|---|---|---|---|
| src/Core/Activator.php:34-43 | the constructor reads `$this->application->getEntity()` but never assigns `$this->application` | any construction, e.g. `new Activator($configuration)` | store the given configuration first, then read its entity | not executed | Activators.ConstructorAsWrittenFails | Activators.Activator.constructor |
| src/Core/Activator.php:207 | `renderActivationForm` calls `prepareLicense($token)`, which the client does not define | any rendering of the form | the cached validation lookup `prepareValidateLicense($token)` | not executed | Activators.RenderAsWrittenCallsUndefined | Activators.Activator.RenderActivationForm |
| src/Core/Configuration.php:50-90 | the context check uses loose `in_array`, but the entity is chosen by strict `===` | `context => true` passes the check; neither Plugin nor Theme is built, and the entity stays null | 'theme' exactly for the string 'theme', 'plugin' otherwise | not executed | Configurations.ContextAsWrittenLeavesNoEntity | Configurations.ContextAgreesWhereWrittenBuilds |
