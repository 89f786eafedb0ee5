# Unofficial Mailchimp API plugin — verified model

A Dafny model of the WordPress plugin "Unofficial Mailchimp API" (`index.php`).
The plugin stores a Mailchimp API key and a list id as one WordPress option.
It masks the key for display on its settings page and validates the settings form.
It also sends authenticated requests to the Mailchimp REST API: it lists the
account's mailing lists and creates a list member for an email address.

Modules:

- `Php` (`php.dfy`): the PHP built-ins the plugin relies on. These are `empty`,
  `strpos`, `substr`, `explode` with its inverse `implode`, `str_repeat` and
  `strtolower`. The module also holds the values `json_decode` returns and
  PHP's truthiness of them.
- `Foreign` (`foreign.dfy`): a record of the library functions the model does
  not define. These are `sanitize_text_field`, `esc_attr`, `md5`,
  `base64_encode` and `json_decode`. Every statement about them holds whatever
  they compute.
- `Credentials` (`credentials.dfy`): `obfuscate_api_key` and `is_key_obfuscated`.
- `Settings` (`settings.dfy`): the option table, the defaults and `get_settings`.
  The option table is the class `OptionStore`, whose `update_option` and
  `delete_option` change it in place.
- `Api` (`api.dfy`): `api_call`, `fetch_lists` and `create_list_member` as
  functions of the option table. The transport `wp_remote_request` is a
  parameter `send` from request to response. `ApiCall` and `CreateListMember`
  return the request they issued (or none) together with the result;
  `FetchLists` returns the PHP value `fetch_lists` returns.
- `Plugin` (`plugin.dfy`): the plugin object `MailchimpPlugin`. It holds the
  settings snapshot taken by the constructor. Its methods are the
  activation and deactivation hooks, `sanitize_basic`, and a form submission
  whose sanitized result WordPress stores.

Behaviour the model pins down, where it may surprise:

- `api_call` fails without sending anything when the stored key is PHP-empty.
  Once a request is issued, it fails only when `status < 200 || status > 400`.
  So 3xx responses and 400 itself count as success, and a missing response
  (status 0) fails.
  The model follows the code.
- `obfuscate_api_key` on a key whose first segment is shorter than four
  characters calls `str_repeat` with a negative count. PHP 8 raises a
  ValueError there, modelled as `RepeatError`. Clamping the count to zero
  would be a correction of the code, so the model does not do it.
- A key without `-` gets a datacenter that is the key from its second
  character on: `strpos` returns false, and false + 1 is 1. Its masked form
  ends with a lone `-`.
- A submitted form without a list id stores a record holding only the key.
  The record replaces the old one as a whole, so the list id read back
  afterwards is the default "". The earlier list id is not kept.
- `MailchimpPlugin` keeps the settings it read at construction. `Activate` and
  `Deactivate` change the stored record, not that snapshot.
- A body that decodes to a falsy value (`false`, `null`, `[]`, `0`, `""`)
  makes `fetch_lists` return false, just as a failed call does.

## Model

| member | source | states |
|---|---|---|
| `Php.Empty` | index.php:129 | PHP's `empty()` on a string: a string that is not one character long is empty exactly when it is `""`, and a one-character string exactly when it is `"0"` |
| `Php.StrToLower` | index.php:264 | `strtolower` keeps the length and lowers each ASCII capital on its own, leaving every other character as it is |
| `Php.Truthy` | index.php:253 | `if ($result)` rejects exactly null, false, 0, `""`, `"0"` and the empty array; a decoded object is always truthy |
| `Php.Property` | index.php:254 | `$result->lists` is the property's value on an object that has it, and null otherwise (a missing property, or `true` from an empty body) |
| `Php.SubstrFrom` | index.php:217 | `substr` from a non-negative start returns a suffix of the string: the last length-minus-start characters, or `""` when the start is past the end |
| `Php.Repeat` | index.php:131 | `str_repeat` of a non-negative count is that many copies of the character |
| `Php.StrPos` | index.php:139 | `strpos` finds nothing exactly when the character is absent; otherwise it returns the index of its first occurrence |
| `Php.Explode` | index.php:130 | `explode` gives at least one part, no part holds the separator, and `implode` of the parts gives the input back |
| `Php.ExplodeImplode` | index.php:130 | `explode` undoes `implode` for separator-free parts, so the segments of a key are exactly the text between its hyphens |
| `Php.StrToLowerIgnoresCase` | index.php:264 | `strtolower` of two strings is equal exactly when they differ only in the case of ASCII letters |
| `Credentials.ObfuscateApiKey` | index.php:127-135 | a PHP-empty key (`""` or `"0"`) is returned unchanged; a first segment shorter than 4 fails in `str_repeat`; otherwise the result is masked, is longer than the first segment and keeps the key's first four characters |
| `Credentials.IsKeyObfuscated` | index.php:137-140 | a key counts as masked exactly when it holds a `*` |
| `Credentials.ObfuscateTwoSegments` | index.php:129-131 | `p-s` with a hyphen-free `p` of length at least 4 and a hyphen-free `s` masks to the first four characters of `p`, one star for each further character of `p`, then `-s`; the length is kept |
| `Credentials.ObfuscateDropsAfterSecondHyphen` | index.php:130-131 | only the second segment is re-attached: `p-s-t` masks like `p-s` |
| `Credentials.ObfuscateWithoutHyphen` | index.php:130-131 | a key with no hyphen masks to its first four characters, stars, and a trailing `-` (the missing second segment is `""`) |
| `Credentials.ObfuscatedIsRecognised` | index.php:131 | when the first segment is longer than 4, the masked key is recognised by `is_key_obfuscated` |
| `Credentials.ObfuscateIdempotent` | index.php:131 | when the first segment has at least 4 characters, masking the masked key gives the same masked key |
| `Settings.Defaults` | index.php:30-33 | the default record holds exactly `key` and `list_id`, both `""` |
| `Settings.GetOption` | index.php:39 | `get_option` returns the stored record when the option exists and the given default otherwise |
| `Settings.OptionStore.UpdateOption` | index.php:60 | `update_option` replaces the named record as a whole and leaves every other option as it was |
| `Settings.OptionStore.DeleteOption` | index.php:65 | `delete_option` removes the named record and leaves every other option as it was |
| `Settings.GetSettings` | index.php:35-41 | the settings always hold `key` and `list_id`; its fields are the stored ones plus those two; stored entries override the defaults, and a default field not stored is `""` |
| `Settings.GetSettingsOfDefaults` | index.php:35-41 | with no record stored, or the defaults stored, the settings are exactly the defaults |
| `Plugin.MissingField` | index.php:146 | `empty($input[$field])`: an absent field is empty, a value of two or more characters is not, and a shorter value is empty exactly when it is `""` or `"0"` |
| `Plugin.MailchimpPlugin.constructor` | index.php:52 | the object keeps the option store and the host it is given, and its settings are `get_settings()` at construction, so they hold both fields |
| `Plugin.MailchimpPlugin.Activate` | index.php:58-61 | the stored record becomes the defaults, no other option changes, and the settings read back are the defaults |
| `Plugin.MailchimpPlugin.Deactivate` | index.php:63-66 | the stored record is deleted, no other option changes, and the settings read back are the defaults |
| `Plugin.MailchimpPlugin.SanitizeBasic` | index.php:142-165 | an empty key gives an empty result and one `key` error; a key holding `*` after `esc_attr` is replaced by the stored key, any other is sanitized; an empty list id gives a result with only `key` and one `list_id` error; there are no errors exactly when both fields are kept; no other field ever appears |
| `Plugin.MailchimpPlugin.SubmitSettings` | index.php:120 | the record `sanitize_basic` returns replaces the stored record and no other option; an empty key stores an empty record, so the settings read back are the defaults; otherwise the key read back is the stored key when the submitted one is the masked form and the sanitized input otherwise; a missing list id stores only the key and reads back as `""`; a complete form stores both sanitized fields with no error |
| `Api.StatusOf` | index.php:233 | the status is the response code; a transport error reads as 0 and so always falls outside the success range |
| `Api.AsPhp` | index.php:240-246 | `api_call` returns `false` for a failure, `true` for an empty body and the decoded value otherwise; the first is falsy and the second truthy |
| `Api.BodyOf` | index.php:234 | the body is the response's content; a transport error gives an empty body |
| `Api.Classify` | index.php:240-246 | the result is false exactly when `status < 200` or `status > 400`; a succeeding PHP-empty body is `true`; any other body is its decoded value |
| `Api.Datacenter` | index.php:217 | the datacenter is a suffix of the key, strictly shorter than a non-empty key; it is the text after the first `-`, or the key from index 1 when there is no `-` |
| `Api.DatacenterAfterFirstHyphen` | index.php:217 | for a key `p-rest` with a hyphen-free `p`, the datacenter is `rest` |
| `Api.RequestBody` | index.php:227-229 | the request body holds `apikey` and every caller field; caller fields override `apikey`, which is otherwise the key |
| `Api.BuildRequest` | index.php:217-230 | the request carries the verb; its URL is `https://` + the text after the key's first `-` + `.api.mailchimp.com/3.0` + the resource, or the key from index 1 in place of that text when there is no `-`; the two headers are the JSON content type and Basic auth of `user:{key}`; the body holds `apikey` and the caller's fields, which win over `apikey` |
| `Api.ApiCall` | index.php:209-247 | no request is issued exactly when the stored key is PHP-empty, and the result is then false; otherwise the one request is built from the stored key and its response is classified |
| `Api.ApiCallUrl` | index.php:217-219 | for a stored key `p-dc` a request is issued, to `https://dc.api.mailchimp.com/3.0` followed by the resource |
| `Api.FetchLists` | index.php:249-257 | a `GET /lists` with only `apikey` in the body; false when the call fails or decodes to a falsy value, null for an empty body, and `$result->lists` of any truthy decoded value: the `lists` property of an object that has one, null for every other value (such as a 400 error object) |
| `Api.MemberResource` | index.php:264 | the member resource is `/lists/{list_id}/members/` + the md5 of `strtolower(email)`, and every email equal to it up to ASCII case gives the same resource |
| `Api.CreateListMember` | index.php:259-268 | a `POST` to `/lists/{list_id}/members/{md5(strtolower(email))}` whose body is exactly `apikey` and `email` |
| `Api.CreateListMemberIgnoresCase` | index.php:264 | two emails that differ only in ASCII case issue requests to the same URL, or both issue none |

## Left out

- WordPress hook registration, the admin menu, the settings link and the capability check (index.php:45-56 apart from line 52, 68-86, 118-125 apart from line 120) are host plumbing.
- HTML rendering is page output: `render_message`, `render_basic_settings`, `admin_page`, `render_api_key_field` and `render_list_id_field`.
- The HTTP transport `wp_remote_request` is the parameter `send`. The `WP_DEBUG` dump of the raw response is diagnostic output only.
- `sanitize_text_field`, `esc_attr`, `md5`, `base64_encode` and `json_decode` are fields of `Foreign.Host`, not definitions. `__()` translations and the `settings_errors` notices are left out; errors are the ids of the flagged fields.
- `Plugin.MailchimpPlugin.SanitizeBasic`: the rule "a key holding `*` keeps the stored key" is stated only under `EscAttrKeepsStars`. `esc_attr` returns "" for malformed UTF-8, and that would drop the `*`.
- `Credentials.ObfuscateApiKey`: only the PHP 8 behaviour of a negative `str_repeat` count (a ValueError) is modelled. PHP 7 printed a warning and went on with an empty string.
- `Php.StrToLower`: lowers ASCII letters only. This is PHP 8.2's `strtolower`; earlier versions depended on the current LC_CTYPE locale, which is C by default since PHP 8.0 and was taken from the environment before.
- `Credentials.ObfuscateApiKey`: strings are sequences of characters, while PHP's `strlen` and `substr` count bytes. A key with a non-ASCII character in its first segment is masked differently, or fails differently, in PHP. Mailchimp API keys are ASCII, so the two agree on real keys.
- `Api.Datacenter`: for a key without `-`, PHP's `substr` drops the first byte and the model drops the first character. They agree on ASCII keys.
- `Php.Json`: floating-point numbers are not modelled. A decoded body is null, a boolean, an integer, a string, an array or an object.
- `array_merge` renumbers integer keys. The model's records and bodies are maps from strings, as the plugin's own fields are.
- A stored option that is not an array, or a form field that is an array, is not modelled.
- WordPress runs the sanitizer a second time when the option is first created (the `add_option` path). `Plugin.MailchimpPlugin.SubmitSettings` models one sanitize-then-store step.
