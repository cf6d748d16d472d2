# Sou Mais Localizador — a verified model

Sou Mais Localizador is a WordPress plugin for a gym chain. It has five parts:

- A public unit finder: `GET /soumais/v1/unidades` lists the active gym units. The list can be narrowed by text and by distance. Every answer is cached in a transient, and each cache key is recorded in an index transient so the cache can be purged.
- A lead form: `POST /soumais/v1/lead` validates a visitor's contact details, stores them as a `sou_lead` post with meta, hands them to `Webhook::dispatch` (which may post them to a webhook) and answers a redirect URL.
- Admin screens: the settings sanitizer, the unit metabox and list columns, the CSV importer of units, and the lead list with its CSV export.
- A self-updater that offers new GitHub releases through the `update_plugins` site transient.
- A browser script with a phone mask, the search query string, the UTM fill of the form and the carousel arrows.

This project models those rules in Dafny and proves properties about them. There is one module per source file:

| module | file | models |
|---|---|---|
| `Php` | `php.dfy` | PHP values, `empty()`, the casts, `preg_replace('/\D/', '', …)`, `trim`, `implode`, byte-wise key order (PHP's `ksort` order for non-numeric string keys), arrays as ordered key/value lists (`$a[$k] = $v`, `array_merge`, `array_filter`) |
| `WordPress` | `wordpress.dfy` | the platform functions (left uninterpreted) and the class `Site`: posts with meta, transients, site transients, the option array and a log of observable events |
| `Helpers` | `helpers.dfy` | `includes/helpers.php` |
| `RestApi` | `rest_api.dfy` | `includes/class-rest-api.php` |
| `UnitPostType` | `unit_post_type.dfy` | `includes/class-post-type-unidade.php` |
| `Settings` | `settings.dfy` | `includes/class-settings.php` |
| `Importer` | `importer.dfy` | `includes/class-importer.php` |
| `Updater` | `updater.dfy` | `includes/class-updater.php` |
| `LeadPostType` | `lead_post_type.dfy` | `includes/class-post-type-lead.php` |
| `Frontend` | `frontend.dfy` | `assets/js/frontend.js` |

Code that changes state step by step is written as methods on `Site`, `UpdateTransient`, `LeadForm` and `NavButton`, with loops where the source loops. Each of these methods is proved against a function of the old state, and the properties are lemmas about that function. Pure code is written as functions, with lemmas beside them.

Every WordPress or PHP library call the plugin makes is a field of the `Platform` record or the `Casts` record. These include `sanitize_text_field`, `is_email`, `wp_verify_nonce`, `esc_url_raw`, `md5(wp_json_encode(…))`, `version_compare`, the haversine distance and the database query behind `WP_Query`. Each property holds whatever these functions do. Two of them stand for behaviour the plugin registers or relies on: `Platform.sanitizeMeta` is the `sanitize_callback` WordPress runs on every `update_post_meta`, `Platform.sameTitle` is the database collation `get_page_by_title` compares titles with, and `Platform.theTitle` is the `the_title` filter chain `get_the_title` runs. The predicates `UnitPostType.UnitMetaRegistered` and `LeadPostType.LeadMetaRegistered` say that `sanitizeMeta` runs the callbacks the plugin's `register_meta` and `register_post_meta` install; the lemmas about stored values take them as premises.

The model follows the code as written:

- Every unit request is cached, keyed on the filtered query arguments merged with the request parameters.
- The request's `limit` always becomes `posts_per_page`.
- Text search is handed to `WP_Query`'s `s` argument. The normalized search metadata built by `prepare_unit_payload` is not read by any modelled code.
- The `invalid_unit` check looks only at the post type, not at the unit's `active` status.
- `array_filter` drops every falsy value, so an address part or a redirect field holding "0" is dropped too.
- `wp_insert_post` is called without `$wp_error`, so it returns 0 on failure and never a `WP_Error`. The `is_wp_error($lead_id)` branch of `create_lead` can therefore never be taken. A failed insert yields lead ID 0: the meta writes on ID 0 change nothing, `Webhook::dispatch` is still called and the answer is still 201.

## Model

| member | source | states |
|---|---|---|
| Php.AbsInt | includes/helpers.php:91 | `absint` is the absolute value of the integer cast, so it is never negative |
| Php.Digits | includes/helpers.php:166 | removing non-digits leaves only ASCII digits and never lengthens the string |
| Php.DigitsAppend | includes/helpers.php:166 | removing non-digits distributes over concatenation |
| Php.DigitsIdempotent | includes/helpers.php:237-239 | removing non-digits twice is the same as removing them once |
| Php.Trim | includes/class-settings.php:80 | `trim` returns the infix of its input with no trim space at either end; everything it cuts is a trim space |
| Php.TrimIdempotent | includes/class-settings.php:161-163 | trimming twice is the same as trimming once |
| Php.TrimEmptyIffBlank | includes/class-settings.php:80-82 | `trim($s) === ''` exactly when `$s` is made only of trim spaces |
| Php.Put | includes/class-post-type-unidade.php:119-122 | `$a[$k] = $v`: afterwards `$k` holds `$v` and every other key reads as before; the array grows by one entry only for a new key; distinct keys stay distinct |
| Php.ArrayMerge | includes/class-rest-api.php:73 | `array_merge` of arrays whose keys are non-numeric strings: on a shared key the second array wins, and keys only in the first array keep their value |
| Php.ArrayFilter | includes/helpers.php:42-49 | `array_filter` keeps only truthy pairs taken from the input; if all are truthy nothing changes, and if all are empty nothing is left |
| Helpers.Compare | includes/helpers.php:24-35 | the `usort` comparator returns -1, 0 or 1; it puts a null distance after any number; it returns 0 only for two equal non-null distances |
| Helpers.InsertAt | includes/helpers.php:22-36 | one insertion step keeps the same units, as a multiset, extends the sorted prefix by one, and keeps units at the same distance in their order |
| Helpers.SortByDistance | includes/helpers.php:21-39 | the result is a permutation of the input; non-null distances come first and ascend; every null distance comes after them; units at the same distance keep their input order, as PHP 8's stable `usort` keeps them when the comparator answers 0 |
| Helpers.FilterThenStrings | includes/helpers.php:42-51 | `array_filter` followed by `implode`'s string conversion yields exactly the filled parts, in order |
| Helpers.FormatUnitAddress | includes/helpers.php:41-52 | the address is the non-empty parts among street, district, city and state, in that order, as strings, joined with " - " |
| Helpers.FormatUnitAddressNoParts | includes/helpers.php:41-52 | with no part filled in, the address is '' |
| Helpers.KSort | includes/helpers.php:55 | `ksort` keeps the array's length and its set of key/value pairs |
| Helpers.KSortSorted | includes/helpers.php:55 | after `ksort` the keys are in byte-wise order, which is PHP's order for non-numeric string keys, and distinct keys stay distinct |
| Helpers.SortedUnique | includes/helpers.php:55 | two key-sorted arrays with distinct keys and the same pairs are identical |
| Helpers.BuildCacheKey | includes/helpers.php:54-58 | every cache key starts with `soumais_locator_` |
| Helpers.CacheKeyOrderIndependent | includes/helpers.php:54-58 | two argument arrays with the same key/value pairs, in any order, get the same cache key |
| Helpers.SanitizePhone | includes/helpers.php:165-173 | the phone is digits only, is a prefix of the input's digits, and has length min(11, number of digits) |
| Helpers.SanitizePhoneIdempotent | includes/helpers.php:165-173 | sanitizing a sanitized phone changes nothing |
| Helpers.NormalizeDigits | includes/helpers.php:237-239 | the result is digits only, and a string of digits is returned unchanged |
| Helpers.NormalizeDigitsIdempotent | includes/helpers.php:237-239 | normalizing twice is the same as normalizing once |
| Helpers.OrEmpty | includes/helpers.php:92-99 | `$params[$k] ?? ''` is the value when it is set and not null, otherwise '' |
| Helpers.Clean | includes/helpers.php:87-106 | the clean record carries the sanitized phone; the consent flag is 1 exactly when `aceite` is truthy (`!empty`), else 0; `redirect` is '' when absent; `recaptcha` is present exactly when the input's value is non-empty |
| Helpers.FirstMissing | includes/helpers.php:61-72 | answers none exactly when every required field is non-empty; otherwise answers the first empty one, all fields before it being present |
| Helpers.Validate | includes/helpers.php:60-109 | errors come in a fixed order: `missing_field` for the first empty field of nome, email, telefone, unidade ("0" counts as empty), then `invalid_email` exactly when every field is present and `is_email` fails, `invalid_phone` exactly when the e-mail passes and fewer than 10 digits remain after sanitizing, and `invalid_nonce` exactly when the phone passes and the nonce fails; the result is valid exactly when all checks pass, and then it is the clean record |
| Helpers.ValidLeadShape | includes/helpers.php:78-108 | a valid lead has a phone of 10 or 11 digits and a consent flag of 0 or 1; a missing `origem` becomes the sanitized '', a missing `redirect` becomes ''; `recaptcha` is present exactly when the input's value was non-empty |
| Helpers.ValidateLeadPayload | includes/helpers.php:60-109 | the early-return loop answers exactly what `Validate` specifies, so it gives the same error code for the same first failing check |
| Helpers.LeadArray | includes/helpers.php:87-106 | the clean array holds the phone, an integer unit and an integer consent flag; it has `recaptcha` only when the lead has one |
| Helpers.LeadMetaValue | includes/helpers.php:129-135 | `_sou_unidade` and `_sou_aceite` are stored as non-negative integers, every other field as text |
| Helpers.LeadMetaWrites | includes/helpers.php:111-138 | there is at most one write per mapped field, integer meta is non-negative, and when every field is set the writes are the whole map, in order |
| Helpers.LeadMetaWritesOnlySetFields | includes/helpers.php:128-137 | a meta key is written exactly when its lead field is set (`isset`) |
| Helpers.PersistLeadMeta | includes/helpers.php:111-138 | the post table and the log after the loop are the writes of `LeadMetaWrites` applied in order |
| Helpers.PersistPairs | includes/helpers.php:128-137 | the loop over the key map performs exactly the writes `LeadMetaWrites` lists, one `update_post_meta` each |
| Helpers.PersistPair | includes/helpers.php:128-137 | one pass of the loop writes its meta key exactly when its lead field is set, extending the writes made so far as `LeadMetaWrites` lists |
| Helpers.LeadParams | includes/class-rest-api.php:150-151 | the persisted array holds the clean lead's keys plus `unidade_nome` and `unidade_url`, which hold the unit's title and URL; every other field is the clean lead's |
| Helpers.LeadParamsSetEveryField | includes/class-rest-api.php:135-151 | every field the key map reads is set in the array `create_lead` persists |
| Helpers.LeadParamsPersistEveryField | includes/class-rest-api.php:150-167 | for a validated lead, all thirteen meta keys are written, in map order |
| Helpers.RedirectBase | includes/helpers.php:141 | the redirect target is the lead's own non-empty `redirect`, else the stored `base_url`, else `home_url()` |
| Helpers.RedirectQuery | includes/helpers.php:143-152 | the query holds at most four arguments, all among nome, telefone, unidade and email |
| Helpers.EncodeAll | includes/helpers.php:152 | `array_map('rawurlencode', …)` keeps the keys and their order |
| Helpers.FilterThenEncode | includes/helpers.php:150-152 | filtering then encoding keeps and encodes exactly the non-empty pairs |
| Helpers.RedirectQueryEncodesFilledFields | includes/helpers.php:143-152 | the query is nome, telefone, unidade (taken from `unidade_nome`) and email, in that order, each only when non-empty, each value URL-encoded |
| Helpers.RedirectQueryAllFields | includes/helpers.php:143-152 | with all four fields filled in, the query carries all four, encoded, in order |
| Helpers.BuildRedirectUrl | includes/helpers.php:140-153 | the encoded query is added to the lead's own non-empty `redirect`, else to the stored non-null `base_url`, else to `home_url()` |
| Helpers.RedirectBaseAfterSettingsSaved | includes/helpers.php:141 | once the settings have been saved, a lead without its own redirect goes to the stored `base_url`, possibly '', and never to `home_url()` |
| RestApi.ValidateCoordinate | includes/class-rest-api.php:49-51 | only an integer, a float or a string can pass; an integer or a float passes exactly when it lies within [-180, 180] |
| RestApi.IndexAfterStore | includes/class-rest-api.php:185-195 | the key is appended to the index only when absent; afterwards the index key holds a key list; no other transient is added, removed or changed |
| RestApi.StoreCacheKeyIndexes | includes/class-rest-api.php:185-195 | afterwards the key is indexed, every key indexed before still is, and an index without duplicates gains none |
| RestApi.StoreCacheKeyIdempotent | includes/class-rest-api.php:191-194 | storing the same key twice is the same as storing it once |
| RestApi.StoreCacheKey | includes/class-rest-api.php:185-195 | the method leaves the transients exactly as `IndexAfterStore` says |
| RestApi.QueryArgs | includes/class-rest-api.php:55-69 | the query is for published units; `posts_per_page` is the cast `limit` when it is set, else the stored `results_limit` or 6; `s` is present exactly when `query` is non-empty, and then it equals `query` |
| RestApi.FilteredArgs | includes/class-rest-api.php:71 | with no callback hooked on `soumais_locator_units_query_args`, the filtered arguments are the query arguments |
| RestApi.RequestCacheKey | includes/class-rest-api.php:71-73 | the cache key of a request has the plugin's prefix |
| RestApi.CacheKeyIsNotIndexKey | includes/class-rest-api.php:73 | no cache key equals the index key, because an MD5 digest has 32 characters |
| RestApi.UnitDistance | includes/class-rest-api.php:84-95 | a distance is computed exactly when the request has both `lat` and `lng` and the unit's coordinates are both non-zero |
| RestApi.UnitOf | includes/class-rest-api.php:101-111 | the payload carries the post's ID and the computed distance |
| RestApi.CollectUnits | includes/class-rest-api.php:83-112 | the loop collects at most one unit per queried post |
| RestApi.CollectUnitsSound | includes/class-rest-api.php:83-112 | every collected unit belongs to a queried post, is built from that post's meta and distance, and lies within the radius |
| RestApi.CollectUnitsComplete | includes/class-rest-api.php:83-112 | every queried unit within the radius is collected |
| RestApi.CollectLoop | includes/class-rest-api.php:83-112 | the `foreach` with `continue` collects exactly `CollectUnits` |
| RestApi.GetUnits | includes/class-rest-api.php:53-120 | a cache hit answers the stored value and writes nothing; a miss answers a permutation of the collected units sorted by distance, stores it under the key and indexes the key; every cached list stays indexed, and the index key keeps holding a key list |
| RestApi.CachingKeepsIndexed | includes/class-rest-api.php:116-117 | storing a list and then its key keeps every cached list listed in the index |
| RestApi.FreshUnitsWithinRadius | includes/class-rest-api.php:96-98 | when `radius` is non-empty, no unit of a fresh list is farther than `radius` |
| RestApi.PreparedParams | includes/class-rest-api.php:123-128 | the parameters are the request's own when non-empty, else the JSON body; `ip` and `data_envio` are always the server's values |
| RestApi.LeadIpIsServerSide | includes/class-rest-api.php:127-130 | a client cannot choose the lead's IP or its submission time |
| RestApi.Decide | includes/class-rest-api.php:130-148 | the checks come in order: a validation error is returned as is; `recaptcha_failed` exactly when reCAPTCHA is enabled and the token is missing or fails; `invalid_unit` exactly when the unit ID is 0, has no post, or names a post that is not a unit |
| RestApi.CheckLead | includes/class-rest-api.php:130-148 | the early returns answer exactly what `Decide` specifies |
| RestApi.LeadRedirect | includes/class-rest-api.php:173-178 | the redirect is the unit's URL when non-empty, else the built redirect URL, and is passed through `esc_url_raw` either way |
| RestApi.LeadTitle | includes/class-rest-api.php:157 | the lead's title is the sanitized name, then " - ", then the submission time, and nothing else |
| RestApi.AcceptedLogOrder | includes/class-rest-api.php:153-171 | an accepted lead logs the insert first, then only its meta writes, then the call to `Webhook::dispatch`, last and exactly once |
| RestApi.CreateLead | includes/class-rest-api.php:122-183 | a rejected lead writes nothing and answers the error; an accepted lead is inserted as a published `sou_lead` post titled `LeadTitle` (or gets ID 0), the post table is that insert followed by the lead's meta writes on the new ID, `Webhook::dispatch` is called with the persisted array, and the answer is 201 with the chosen redirect; the title carries its own clock reading, which need not equal the stored `data_envio` |
| RestApi.SaveLead | includes/class-rest-api.php:153-171 | the ID is the insert's; the post table is the insert followed by the lead's meta writes on that ID; the insert, the meta writes and the call to `Webhook::dispatch` are logged in that order |
| RestApi.PersistAndDispatch | includes/class-rest-api.php:167-171 | the post table is the lead's meta writes applied to the lead's post, and no post is added; the meta writes are logged before the call to `Webhook::dispatch` |
| RestApi.CreatedLeadPost | includes/class-rest-api.php:153-167 | when the insert succeeds, the lead is a new last post of type `sou_lead`, published, with the given title and exactly the persisted meta as the registered sanitizers store it, and every earlier post is untouched; when it fails, no post changes |
| RestApi.LeadCallbackOnPersistedValue | includes/class-post-type-lead.php:39-66 | on the values `persist_lead_meta` writes, the registered callbacks keep the unit and the consent as written, pass the e-mail through `sanitize_email` and every text field through `sanitize_text_field` again |
| UnitPostType.SanitizeStatus | includes/class-post-type-unidade.php:106-108 | the status is 'active' or 'inactive'; those two pass by strict comparison, and anything else becomes 'inactive' |
| UnitPostType.SanitizeStatusIdempotent | includes/class-post-type-unidade.php:106-108 | sanitizing a status twice is the same as sanitizing it once |
| UnitPostType.SanitizeCoordinate | includes/class-post-type-unidade.php:110-114 | the result is within [-180, 180]: the value itself when it is in range, else 0 |
| UnitPostType.CoordinateSanitizerAgreesWithValidator | includes/class-post-type-unidade.php:110-114 | a coordinate the REST validator accepts is stored unchanged; every stored coordinate passes the validator; sanitizing is idempotent |
| UnitPostType.WrittenUnitKey | includes/class-post-type-unidade.php:51-103 | with the registered callbacks installed, a written unit meta key is present and holds its callback's result on some value written to it |
| UnitPostType.WrittenUnitMetaIsSanitized | includes/class-post-type-unidade.php:51-114 | whatever code writes a unit's meta, a written status is 'active' or 'inactive', a written coordinate is a number within [-180, 180], and a written image ID is a non-negative integer |
| UnitPostType.Columns | includes/class-post-type-unidade.php:116-127 | the columns built have distinct keys |
| UnitPostType.Expand | includes/class-post-type-unidade.php:116-127 | the intended layout holds only input columns, plus the two extra columns when there is a title |
| UnitPostType.ColumnsIsExpand | includes/class-post-type-unidade.php:116-127 | on columns with distinct keys, the loop builds the intended layout |
| UnitPostType.AddNewColumn | includes/class-post-type-unidade.php:118-123 | one loop step appends the column, and after `title` it also appends `sou_cidade` and `sou_status` |
| UnitPostType.ColumnsInsertAfterTitle | includes/class-post-type-unidade.php:116-127 | every column is kept in order, and `sou_cidade`, `sou_status` come immediately after `title` |
| UnitPostType.ColumnsWithoutTitle | includes/class-post-type-unidade.php:116-127 | without a `title` column the output equals the input (PHP array keys are always distinct) |
| UnitPostType.ColumnsLookupOthers | includes/class-post-type-unidade.php:116-127 | every key other than `sou_cidade` and `sou_status` reads in the output exactly as in the input |
| UnitPostType.ColumnsLookupExtra | includes/class-post-type-unidade.php:116-127 | `sou_cidade` and `sou_status` read as the title's labels when a `title` column comes after the input's own column of that key (or there is none), which the label then overwrites in place; otherwise as the input's own value |
| UnitPostType.Purged | includes/class-post-type-unidade.php:148-157 | with a list index, every indexed key and the index itself are gone; when the index key holds a key list whenever set (as the plugin's own writes keep it), the index is always gone; nothing else is deleted or changed |
| UnitPostType.PurgeLeavesNoUnitList | includes/class-post-type-unidade.php:153-157 | purging an indexed cache leaves no cached unit list |
| UnitPostType.PurgeCache | includes/class-post-type-unidade.php:143-158 | for a unit, the transients become `Purged`; for any other post type nothing changes |
| UnitPostType.HandleDelete | includes/class-post-type-unidade.php:160-164 | deleting a unit purges the cache; deleting anything else changes nothing |
| UnitPostType.CommaToDot | includes/class-post-type-unidade.php:363 | every ',' becomes '.', and nothing else changes |
| UnitPostType.CleanField | includes/class-post-type-unidade.php:357-377 | status is active or inactive; image_id is a non-negative integer; lat and lng keep '' and are otherwise parsed with ',' read as '.'; plain fields go through `sanitize_text_field` |
| UnitPostType.SaveMetaWrites | includes/class-post-type-unidade.php:353-380 | one write per metabox field, in order, under `_sou_<field>`, with a missing value read as '' |
| UnitPostType.MaySaveMeta | includes/class-post-type-unidade.php:337-348 | saving is refused without a nonce, during autosave or without the right to edit; otherwise it is allowed exactly when the unslashed, sanitized nonce verifies for 'soumais_unidade_meta' |
| UnitPostType.SaveMeta | includes/class-post-type-unidade.php:337-381 | with a bad nonce, during autosave or without the right to edit, nothing is written; otherwise every field is written as `SaveMetaWrites` lists |
| UnitPostType.SaveFields | includes/class-post-type-unidade.php:353-380 | the loop performs exactly the writes `SaveMetaWrites` lists |
| UnitPostType.SaveMetaStoresEveryField | includes/class-post-type-unidade.php:353-380 | after saving, every metabox field of an existing post holds its cleaned value as the key's registered sanitizer leaves it |
| UnitPostType.SavedUnitMeta | includes/class-post-type-unidade.php:51-114 | on a unit, after `save_meta` every metabox field holds its registered callback's result on the cleaned value |
| UnitPostType.BlankCoordinateIsStoredAsZero | includes/class-post-type-unidade.php:110-114 | a coordinate left blank is cleaned to '' but stored as 0, because its callback runs `floatval('')` |
| UnitPostType.MetaKeysDistinct | includes/class-post-type-unidade.php:354 | distinct fields get distinct meta keys |
| Settings.SanitizeKey | includes/class-settings.php:71-82 | radius and limit become non-negative integers; `webhook_enabled` becomes 1 exactly when truthy, else 0; `cta_label` is never blank; an array given for a text field is sanitized to '' (so `cta_label` falls back to 'Ver planos') |
| Settings.Merged | includes/class-settings.php:69 | `wp_parse_args` at one key: the supplied value when there is one, otherwise the key's non-null default, which for `webhook_url` is the build's default URL |
| Settings.Sanitize | includes/class-settings.php:56-85 | the saved array has every supplied key plus every known key, and unknown supplied keys are kept as they were |
| Settings.SanitizedCounts | includes/class-settings.php:73-74 | the saved `default_radius` and `results_limit` are non-negative integers |
| Settings.SanitizedFlag | includes/class-settings.php:75 | the saved `webhook_enabled` is 0 or 1, and is 1 exactly when the merged value (the supplied one, else the default) is truthy |
| Settings.SanitizedCtaLabel | includes/class-settings.php:77-82 | the saved `cta_label` is never blank; a blank label becomes 'Ver planos' |
| Settings.SanitizedNoNull | includes/class-settings.php:69-82 | no known key is saved as null |
| Settings.SanitizedAt | includes/class-settings.php:69-82 | each known key holds its merged value (supplied, else default), sanitized |
| Settings.GetOption | includes/class-settings.php:141-145 | the stored value when the key is set and not null, otherwise the caller's default |
| Settings.GetWebhookUrl | includes/class-settings.php:152-155 | never null; the stored URL when one is set and not null; anything but the build's default URL is the stored value |
| Settings.SanitizedWebhookUrl | includes/class-settings.php:69-72 | after the settings are saved, `get_webhook_url()` answers the escaped supplied URL, or the escaped default when none was supplied |
| Settings.WebhookEnabled | includes/class-settings.php:147-150 | the stored flag when it is set; otherwise true exactly when a webhook URL is configured |
| Settings.RecaptchaEnabled | includes/class-settings.php:157-159 | true exactly when a truthy `recaptcha_key` is stored |
| Settings.GithubToken | includes/class-settings.php:161-163 | the stored token, trimmed; '' when there is none or it is null; never begins or ends with a trim space |
| Settings.SanitizedOptionsAreFound | includes/class-settings.php:141-150 | after the settings are saved, every known option is found, so no caller's default is used, and `webhook_enabled()` reads the saved flag |
| Importer.Combine | includes/class-importer.php:91 | `array_combine` has exactly the header's column names as keys |
| Importer.FindByTitle | includes/class-importer.php:109 | finds the first unit, in table order, whose title the database collation matches, or 0 when no unit matches |
| Importer.ColumnWrites | includes/class-importer.php:137-141 | at most one text write per mapped column |
| Importer.ColumnWritesOnlyPresent | includes/class-importer.php:137-141 | a meta key is written exactly when its column is present in the row |
| Importer.RowWritesKeys | includes/class-importer.php:137-148 | a row writes its present mapped columns, plus `_sou_lat` and `_sou_lng` only when those columns are present |
| Importer.Upsert | includes/class-importer.php:103-122 | an empty title or a failed insert returns 0 and changes nothing; otherwise the ID names a unit with the row's title, which is the first existing unit the collation matches, updated in place, or a new post appended; the insert is logged first; no other post changes |
| Importer.UpsertUpdatesMeta | includes/class-importer.php:109-148 | updating an existing unit applies the row's writes, through the registered sanitizers, over the meta it already had |
| Importer.UpsertKeepsAbsentColumns | includes/class-importer.php:137-148 | updating an existing unit leaves the meta of columns absent from the row as it was |
| Importer.UpsertFindsItsUnit | includes/class-importer.php:109-118 | after a row produced a unit, its title finds that same unit (given only that the collation matches a title with itself), so importing it again updates it rather than duplicating it |
| Importer.UpsertUnit | includes/class-importer.php:103-151 | the method returns the ID, post table and log that `Upsert` specifies |
| Importer.InsertAndWrite | includes/class-importer.php:109-148 | the insert (an update when the unit exists) gives the ID; on 0 nothing else changes, otherwise the row's meta is written to that ID and logged after the insert |
| Importer.WriteRow | includes/class-importer.php:137-148 | the mapped columns are written first, then `lat`, then `lng` |
| Importer.WriteColumns | includes/class-importer.php:137-141 | the loop writes exactly the present mapped columns, in map order |
| Importer.WriteCoordinate | includes/class-importer.php:143-148 | a coordinate is written as a float only when its column is present |
| Importer.ImportRun | includes/class-importer.php:90-96 | the run over the rows produces one answer per row |
| Importer.ImportRunSnoc | includes/class-importer.php:90-96 | one more row is one more upsert, and it counts exactly when it returns an ID |
| Importer.CountNonZero | includes/class-importer.php:92-95 | the count is at most the number of rows: all of them when every upsert succeeded, none when every upsert failed |
| Importer.ImportCsv | includes/class-importer.php:81-101 | an empty header imports nothing and returns 0; otherwise the count is the number of rows that produced a unit, at most the number of rows |
| Importer.ImportRows | includes/class-importer.php:84-100 | the row loop upserts each row in turn and counts those that produced a unit |
| Importer.ImportRow | includes/class-importer.php:90-96 | one loop pass upserts one row and adds 1 to the count when it produced a unit |
| Updater.OrEmptyString | includes/class-updater.php:142 | `$v ?? ''` is never null, and keeps a non-null value |
| Updater.TrimLeadingV | includes/class-updater.php:150 | `ltrim($s, 'vV')` is a suffix of the input, cuts only 'v' and 'V', and does not start with either |
| Updater.TrimLeadingVIdempotent | includes/class-updater.php:150 | cutting the prefix twice is the same as cutting it once |
| Updater.NormalizeVersion | includes/class-updater.php:145-151 | an empty tag gives ''; any other tag gives its string with the leading v/V characters removed |
| Updater.NormalizedVersionHasNoPrefix | includes/class-updater.php:145-151 | a normalized version never starts with 'v' or 'V', and only such characters were removed |
| Updater.ZeroTagIsNoVersion | includes/class-updater.php:36-38 | the tag "v0" normalizes to "0", which PHP reads as false, so it never produces an update |
| Updater.FirstZip | includes/class-updater.php:134-140 | finds the index of the first asset with both keys set and a name ending in ".zip" (any case), or none when no asset qualifies |
| Updater.FirstZipAt | includes/class-updater.php:135-138 | when asset i is the first that qualifies, the search answers i |
| Updater.FirstZipNone | includes/class-updater.php:135-138 | when no asset qualifies, the search answers none |
| Updater.PackageUrl | includes/class-updater.php:133-143 | the package URL is never null: a missing `zipball_url` becomes '' |
| Updater.PackageUrlPicksFirstZip | includes/class-updater.php:134-140 | the package is the download URL of the first `.zip` asset |
| Updater.PackageUrlFallsBackToZipball | includes/class-updater.php:142 | without a `.zip` asset, the package is `zipball_url`, or '' when that is absent |
| Updater.GetPackageUrl | includes/class-updater.php:133-143 | the loop, which returns at the first match, answers the package URL |
| Updater.Offer | includes/class-updater.php:24-60 | an update is offered exactly when `checked` is non-empty, a release exists, its version is non-empty and newer than the local one, and the package is non-empty; the entry then carries this plugin's slug and file, that version and that package |
| Updater.MaybeSetUpdate | includes/class-updater.php:24-60 | the transient it was given is returned; `checked` never changes; `response` changes only at this plugin's file, and only when an update is offered |
| Updater.PluginsApi | includes/class-updater.php:62-93 | the plugin's details are answered exactly for 'plugin_information' with this slug and a fetched release; they carry the normalized version, the package URL, the release's `html_url` as homepage (the repository's GitHub page when it is null, so never null) and the `wp_kses_post` of the release body (of the default text when it is null) as description; otherwise `$result` is returned unchanged |
| Updater.PurgeCache | includes/class-updater.php:157-168 | the cached release is deleted exactly when a plugin upgrade lists this plugin's file; nothing else changes |
| LeadPostType.LastLeadWrite | includes/class-post-type-lead.php:39-66 | with the registered callbacks installed, the last write of a lead meta key is stored as its callback leaves the written value |
| LeadPostType.Columns | includes/class-post-type-lead.php:69-80 | the columns are exactly cb, title, sou_email, sou_telefone, sou_unidade and sou_data, in that order; only `cb` comes from the input, and every other input column is dropped |
| LeadPostType.BreaksToSpaces | includes/class-post-type-lead.php:242 | each CR and each LF becomes one space, and nothing else changes |
| LeadPostType.ItemStrings | includes/class-post-type-lead.php:238 | `implode` converts each array item to a string, in order |
| LeadPostType.CleanCell | includes/class-post-type-lead.php:241-244 | a cell has no CR or LF, no leading or trailing whitespace, and is unchanged by another trim |
| LeadPostType.CsvValue | includes/class-post-type-lead.php:236-245 | every exported value, array or not, is one line with no leading or trailing whitespace |
| LeadPostType.CsvValueOneItem | includes/class-post-type-lead.php:237-239 | an array of one scalar item is exported as the item itself |
| LeadPostType.CsvValueJoinsTwo | includes/class-post-type-lead.php:237-239 | a two-item array becomes one cell, the two items with ", " between them |
| LeadPostType.BulkAction | includes/class-post-type-lead.php:146-149 | the action is read from 'action', and from 'action2' only when 'action' is not the export |
| LeadPostType.AbsIds | includes/class-post-type-lead.php:163 | each selected ID is the `absint` of the unslashed value, in order |
| LeadPostType.DropZeros | includes/class-post-type-lead.php:164 | only positive IDs remain; each comes from the input, and no positive ID is lost |
| LeadPostType.DropZerosAppend | includes/class-post-type-lead.php:164 | dropping zeros distributes over concatenation, so the selection order is kept |
| LeadPostType.DropZerosAllZero | includes/class-post-type-lead.php:164-167 | an all-zero selection leaves nothing |
| LeadPostType.SelectedExport | includes/class-post-type-lead.php:140-170 | an export happens only on the lead list, for the export action, with a non-empty `post` array; a user without `manage_options` is denied exactly then; an export carries the positive `absint` IDs, and there is at least one |
| LeadPostType.AllZeroSelectionExportsNothing | includes/class-post-type-lead.php:163-167 | a selection with no positive ID exports nothing |
| LeadPostType.IdValues | includes/class-post-type-lead.php:183 | `post__in` holds the IDs as integers, in order |
| LeadPostType.ExportQueryArgs | includes/class-post-type-lead.php:173-186 | the export queries all published leads; with selected IDs it orders by `post__in` ASC and restricts to them, otherwise it orders by date DESC and has no `post__in` |
| LeadPostType.Cell | includes/class-post-type-lead.php:212-225 | each exported cell is one trimmed line |
| LeadPostType.LeadRow | includes/class-post-type-lead.php:213-226 | a lead's row has twelve fields, as many as the header, each one trimmed line |
| LeadPostType.Rows | includes/class-post-type-lead.php:211-229 | the rows of the exported leads: one per lead, in the query's order, each that lead's row |
| LeadPostType.ExportCsv | includes/class-post-type-lead.php:172-234 | the header is the twelve labels, and there is one row per lead the query returns, in the query's order |
| LeadPostType.LeadRows | includes/class-post-type-lead.php:211-229 | the loop builds one row per lead, in order |
| Frontend.First11 | assets/js/frontend.js:345 | `slice(0, 11)` keeps at most 11 characters: the whole string when it is short enough, else its first 11 |
| Frontend.FormatPhone | assets/js/frontend.js:346-352 | formatting digits adds only '(', ')', ' ' and '-' |
| Frontend.PhoneMask | assets/js/frontend.js:345-353 | the masked value holds only digits and the characters '(', ')', ' ' and '-' |
| Frontend.PhoneMaskShape | assets/js/frontend.js:345-353 | fewer than two digits are shown as typed; from two digits the value starts "(dd) "; from seven digits a '-' precedes the last four |
| Frontend.DigitsOfAreaCode | assets/js/frontend.js:347 | the area-code punctuation adds no digit |
| Frontend.DigitsOfDash | assets/js/frontend.js:351 | the dash adds no digit |
| Frontend.PhoneMaskDigits | assets/js/frontend.js:345-353 | the masked value's digits are exactly the first eleven digits typed, in order |
| Frontend.PhoneMaskIdempotent | assets/js/frontend.js:344-354 | masking a masked value changes nothing |
| Frontend.PhoneMaskDash | assets/js/frontend.js:349-352 | a '-' appears exactly when at least seven digits are kept, and then it is the fifth character from the end; the value is at most 15 characters long |
| Frontend.KeptParams | assets/js/frontend.js:189-194 | the query never has more entries than the parameters object |
| Frontend.KeptParamsSound | assets/js/frontend.js:189-194 | every appended parameter is one of the object's entries, and its value is not undefined, null or '' |
| Frontend.KeptParamsComplete | assets/js/frontend.js:189-194 | no entry with a value worth sending is left out |
| Frontend.KeptParamsAppend | assets/js/frontend.js:189-194 | filtering respects concatenation, so the entries keep their order |
| Frontend.SearchParams | assets/js/frontend.js:189-194 | the `forEach` appends exactly the kept entries, in order |
| Frontend.DefaultLimit | assets/js/frontend.js:78 | the default limit is at least 50 and at least the configured limit; it is one of the two |
| Frontend.Origem | assets/js/frontend.js:336 | `origem` is never empty: the path without its one leading '/', or 'site' |
| Frontend.FillUtmsFrame | assets/js/frontend.js:327-333 | the UTM fill adds no input; it changes only empty inputs among the UTM fields, and gives them the query's value or '' |
| Frontend.Populated | assets/js/frontend.js:325-338 | the fill keeps exactly the form's set of inputs |
| Frontend.PopulatedFillsOnlyEmpty | assets/js/frontend.js:325-338 | only empty inputs change: an empty UTM input gets the query's value, an empty `origem` gets the path (or 'site'), and every other input keeps its value |
| Frontend.PopulatedIdempotent | assets/js/frontend.js:325-338 | running the fill a second time changes nothing |
| Frontend.PopulateUtms | assets/js/frontend.js:325-338 | the method leaves the form's inputs as `Populated` says |
| Frontend.UpdateCarouselNav | assets/js/frontend.js:34-56 | with the carousel or a button missing, nothing changes; otherwise both buttons are hidden when there are no cards or at most 5px to scroll, "previous" is disabled when at most 5px from the start, and "next" when at most 5px from the end |
| Frontend.NavNeverStuck | assets/js/frontend.js:41-55 | with cards and more than 10px to scroll, at least one arrow is usable |
| Frontend.NavBothUsableInside | assets/js/frontend.js:41-55 | more than 5px away from both ends, both arrows are usable |
| Frontend.NavShortScrollBothDisabled | assets/js/frontend.js:41-55 | with between 5px and 10px to scroll, the arrows can be shown and yet both disabled (8px of scroll, at position 4) |

## Left out

- `Helpers::calculate_distance` is floating-point trigonometry. It is the uninterpreted `Platform.distance`, and distances are reals.
- `normalize_string`, `prepare_unit_payload` and `get_active_units` are thin wrappers over `wp_strip_all_tags`, `remove_accents` and `WP_Query`, and no modelled code reads their search metadata.
- The webhook (`includes/class-webhook.php`) is a `wp_remote_post` call. The model records only the call to `Webhook::dispatch`, as a `Dispatched` event in the site's log. What `dispatch` then does is not modelled: it returns without posting when `webhook_enabled()` is false or the stored `webhook_url` is empty, and it passes the payload through the `soumais_locator_webhook_payload` filter, whose own callback `append_timestamp` overwrites `data_envio` with `current_time('c', true)`.
- `apply_recaptcha_check` calls Google's verification service over HTTP. Its verdict is the `recaptchaPasses` parameter of `CreateLead`.
- `get_request_ip` reads the server globals. Its answer is the `ip` parameter of `RestApi.CreateLead`. `create_lead` reads `current_time('mysql')` twice: the first reading is the `now` parameter (stored as `data_envio`), the second the `titleNow` parameter (in the post title).
- `get_latest_release` is an HTTP call with a cached copy. The release is the `release` parameter of `MaybeSetUpdate` and `PluginsApi`, where `None` stands for every answer PHP treats as false. The cache's write of the fetched release is not modelled.
- `Updater.PluginsApi` does not model the name, author, WordPress-compatibility or `last_updated` fields, because they are constants or date formatting.
- Transient expiry (`MINUTE_IN_SECONDS * 5`, `DAY_IN_SECONDS`, `CACHE_TTL`) involves wall-clock time. Transients are a map without expiry.
- Files and streams are not modelled: the CSV upload and `fopen`/`fgetcsv` in the importer, and the headers, `fputcsv` and `exit` in the lead export. Rows are sequences of cells.
- `array_combine` with a row whose length differs from the header's is a precondition of `Importer.ImportCsv` rather than modelled behaviour.
- The `soumais_locator_before_lead_save` and `soumais_locator_after_lead_save` actions run code of other plugins. They are assumed to change nothing.
- The HTML and admin UI are not modelled: metabox and column rendering, the settings field renderers, templates, the settings page, and the card, modal and geolocation code of the browser script.
- Bootstrap and registration glue are not modelled: `class-assets.php`, `class-block.php`, `class-shortcode.php`, `class-plugin.php`, the singleton trait, the main plugin file and `uninstall.php`.
- Translation (`__()`) is the identity: labels are the source's own strings.
- The hashing and sanitizing library functions are uninterpreted: `md5`, `wp_json_encode`, `is_email`, `wp_verify_nonce`, `sanitize_text_field`, `sanitize_email`, `esc_url_raw`, `wp_kses_post`, `wp_unslash`, `rawurlencode`, `add_query_arg`, `version_compare`, and PHP's string-to-number casts.
- `WordPress.PostTitle` (`get_the_title`) applies the uninterpreted `Platform.theTitle` to the stored post. The filters behind it (`wptexturize`, `convert_chars`, `trim`, the "Private:" and "Protected:" prefixes) are not modelled, so nothing is proved about the unit titles in the unit payload, the lead's `unidade_nome` or the lead list's unit column beyond where they come from.
- `Helpers.SortByDistance` does not state the relative order of units without a distance: the comparator answers 1 for two nulls in either order, so PHP's `usort` leaves it to the sorting algorithm. The model's insertion sort fixes one order.
- `Helpers.KSortSorted`: every key is a string compared byte-wise. A request parameter with a numeric name (`?9=a`) is an integer key in PHP, which `ksort` compares numerically, so for such keys the proved order is not PHP's.
- `Helpers.CacheKeyOrderIndependent` is proved for arrays whose keys are kept as given. PHP's `array_merge` in `get_units` renumbers integer keys from 0 in order of appearance, so `?9=a&10=b` and `?10=b&9=a` give different cache keys in PHP. Request parameters with numeric names are not modelled (`Php.ArrayMerge` keeps every key).
- `Helpers.Validate`: a non-empty array given for `email` or `redirect` makes PHP 8 throw a `TypeError` inside `is_email` or `esc_url_raw` (`strlen`, `ltrim`), so the request ends in a fatal error. The model passes the string cast 'Array' to `isEmail`, `sanitizeEmail` and `escUrlRaw` instead, and answers 400 or accepts.
- `RestApi.CacheKeyIsNotIndexKey` takes the 32-character length of an MD5 digest as a premise, because the digest function is uninterpreted.
- `Frontend.UpdateCarouselNav` states the "previous" button's `disabled` flag only when the two buttons are distinct elements. If they were the same element, the later write to "next" would win.
- Frontend: the search query string is modelled as the list of entries appended to `URLSearchParams`, not as the encoded string.
- `Frontend.DefaultLimit` takes the configured limit as an integer or none. JavaScript's `||` and `Math.max` on other value types are not modelled.
- `UnitPostType.Purged`: an array stored at the index key as a plain value (`Scalar(Arr(..))`, only possible if code outside the plugin writes it) is an index to PHP's `is_array`, but the model reads it as no index: a purge leaves it and the keys it lists in place, where PHP would delete them. The plugin's own writes always store a key list there (`RestApi.IndexWellFormed`), and under that condition the purge always removes the index.
- `RestApi.IndexOf`, `UnitPostType.HasIndex`: for the same foreign value, `store_cache_key` in the model replaces it with a one-key list, where PHP would append the key to it.
- `Importer.FindByTitle`: the collation is the uninterpreted `Platform.sameTitle` (MySQL's default collations ignore case). `get_page_by_title` runs its query without `ORDER BY`, and the model takes the table's order as the order it returns.
- `UnitPostType.ColumnsInsertAfterTitle` states positions only for input columns without `sou_cidade` and `sou_status`. For other inputs `UnitPostType.ColumnsLookupExtra` states their values, but their positions are not stated.
- The registered `sanitize_callback`s are premises (`UnitMetaRegistered`, `LeadMetaRegistered`) about the uninterpreted `Platform.sanitizeMeta`, because `register_meta` only hands them to WordPress. Their `type`, `single` and `show_in_rest` arguments are not modelled.
