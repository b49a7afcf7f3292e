# billingo CLI — a Dafny model of its logic

The billingo CLI is a command-line front end for the Billingo invoicing API
(v3). Almost all of it is glue: command registration, spinners, and one HTTP
call per command. This project models the part that makes decisions or
shapes text, and proves what that part does:

- **Two HTTP client layers and their error tables.**
  - `src/lib/api.js` builds a fresh client per call from the configuration store. Its success handler warns when the rate limit runs low. Its rejection handler turns every failure into one message. Its `formatOutput` renders results.
  - `src/api.js` uses a fixed base URL and its own, different, error table.
  - The model states each table status by status, and proves where the two layers disagree: on the error kind for 422 and 500, and on the message for every status except 401 and 404.
- **Credential resolution** (`src/lib/config.js`, `src/lib/auth.js`).
  - The configuration store is a class whose `store` map is updated in place.
  - `getApiKey` and `getBaseUrl` are fallback chains: stored value, then environment, then default or error.
  - The authentication headers and the key-format check are built on top of them.
- **Request shapes.**
  - The query of `documents list`: each of its ten filters appears exactly when given, and no other key appears.
  - `listInvoices`' parameters and the `data.data || []` unwrapping.
  - The bodies of `documents send` and `invoices send`.
  - The `--file`/`--data` precedence of `documents create` and `documents update-payments`.
- **Table layout** (`printTable` in `src/index.js`).
  - Column widths are the capped maximum of label and cells.
  - Each cell is cut, then padded, to exactly its width.
  - The rule under the heading is as long as the heading. When the column keys are distinct and no label is longer than 40 characters, the heading, the rule and every data line are equally long; the closing count line is not.
  - A `null` row makes `printTable` throw a TypeError before it prints anything.
- **`invoices send`**: the address list is split at commas and each address is trimmed. Splitting the `a, b, c` text the success message prints gives the same addresses back.

Modules, one per source file, plus the JavaScript built-ins they rely on:

- `JsStrings`: `trim`, `split`, `join`, `padEnd`, `substring`, `repeat`, `String(n)`, `parseInt`.
- `JsValues`: JSON values, truthiness, `String(v)`, `JSON.stringify`.
- `Http`: responses, exchanges and errors.
- `LibConfig`, `LibAuth`, `LibApi`, `Api`, `Cli`, `DocumentCommands`.

The network, the file system and `JSON.parse` are parameters:

- an `Exchange` is what the transport delivered;
- `readFile` and `parse` stand for `readFileSync` and `JSON.parse`.

A command that would send a request returns the `Step` it takes: the request, or the message it exits with.

## Model

| member | source | states |
|---|---|---|
| JsStrings.Trim | src/index.js:262 | the trimmed text is empty or has white space at neither end |
| JsStrings.TrimStartDropsBlank | src/index.js:262 | everything removed at the front is white space |
| JsStrings.TrimEndDropsBlank | src/index.js:262 | everything removed at the back is white space |
| JsStrings.TrimInfix | src/index.js:262 | the trimmed text is the contiguous part of the input that starts behind the leading white space |
| JsStrings.TrimIdempotent | src/index.js:262 | trimming twice gives the same as trimming once |
| JsStrings.TrimUnchanged | src/index.js:262 | a text with no white space at either end is its own trim |
| JsStrings.Split | src/commands/documents.js:153 | a split has one piece more than there are separators, and no piece holds a separator |
| JsStrings.JoinSplit | src/commands/documents.js:153 | joining the pieces of a split with the separator restores the text |
| JsStrings.SplitJoin | src/index.js:262-265 | splitting a join of separator-free pieces returns exactly those pieces |
| JsStrings.SplitNoSeparator | src/index.js:262 | a text without the separator splits into itself alone |
| JsStrings.JoinWith | src/index.js:58 | a join starts with its first part; joining nothing gives the empty text |
| JsStrings.JoinLength | src/index.js:58 | a join is as long as the parts together plus one separator between each two |
| JsStrings.JoinAvoids | src/api.js:51 | a character found in no part and not in the separator is not in the join |
| JsStrings.Repeat | src/index.js:60 | `repeat(n)` of one character is n copies of it |
| JsStrings.PadEnd | src/index.js:58 | `padEnd(n)` keeps the text as a prefix, reaches length n (or keeps a longer text), and pads with spaces only |
| JsStrings.Prefix | src/index.js:65 | `substring(0, n)` is the first n characters, or the whole of a shorter text |
| JsStrings.NatToString | src/index.js:70 | a count is written as non-empty decimal digits without a leading zero |
| JsStrings.NatToStringValue | src/index.js:70 | reading the written digits back gives the number |
| JsStrings.ParseIntOfDecimal | src/lib/api.js:33 | `parseInt` of a decimal integer, after leading white space and before any tail that starts with neither a digit nor `x`/`X`, is that integer |
| JsStrings.ParseSignedOfDecimal | src/lib/api.js:33 | a signed decimal integer followed by a tail that starts with neither a digit nor `x`/`X` reads back as itself |
| JsStrings.ParseUnsignedOfDecimal | src/lib/api.js:33 | the digits of a natural number followed by a tail that starts with neither a digit nor `x`/`X` read back as the number |
| JsStrings.ParseInt | src/lib/api.js:33 | a number is read only when the text, after white space, starts with a digit or with a sign followed by a digit; a negative number only behind a minus sign |
| JsStrings.ParseIntNaN | src/lib/api.js:33 | text that starts, after white space, with neither sign nor digit parses to NaN |
| JsValues.LookupFindsMember | src/api.js:51 | reading a member finds a value exactly when a member has that name, and the value is that member's |
| JsValues.SetMember | src/api.js:67-68 | after `o[key] = v`, `key` reads `v` and every other name reads what it read before |
| JsValues.ToJsString | src/index.js:52 | `String(v)` of a string is the string itself; of a number, its decimal text (which `parseInt` reads back, see `JsValues.NumberReadsBack`); `null` is "null", every object "[object Object]", an empty array "" |
| JsValues.NumberReadsBack | src/lib/api.js:33 | `parseInt` reads the text of any integer back as that integer |
| JsValues.Stringify | src/lib/api.js:149 | `JSON.stringify(v, null, 2)` writes a number as its decimal text, a string in quotes, arrays in `[]` and objects in `{}`, and a non-empty array or object over several lines |
| JsValues.Serialize | src/lib/api.js:149 | the same, for a value nested at any indentation |
| JsValues.StringifyCompact | src/api.js:51 | `JSON.stringify(v)` is one line (a line break inside a string is escaped), brackets arrays and objects, and equals the indented text on every value that is not a non-empty array or object |
| JsValues.Quote | src/api.js:51 | a JSON string literal is enclosed in quotes and holds no raw line break |
| LibConfig.Or | src/lib/config.js:68 | the logical-or fallback is its left operand when that is given and non-empty, else its right operand |
| LibConfig.Defaults | src/lib/config.js:13-19 | the defaults hold exactly `apiKey` (the environment key or "") and `baseUrl` (the environment URL or the public API URL, never empty) |
| LibConfig.ConfigStore.constructor | src/lib/config.js:13-19 | the store is the defaults overlaid by what was persisted; every persisted key reads its persisted value |
| LibConfig.ConfigStore.Get | src/lib/config.js:26-28 | `getConfig(k)` is the stored value exactly when `k` is stored, else undefined |
| LibConfig.ConfigStore.GetAll | src/lib/config.js:43-45 | `getAllConfig()` holds exactly the keys `getConfig` finds, with the same values |
| LibConfig.ConfigStore.Set | src/lib/config.js:35-37 | after `setConfig(k, v)`, `k` reads `v`, every other key is unchanged, and a non-empty `apiKey` becomes the resolved key |
| LibConfig.ConfigStore.Delete | src/lib/config.js:51-53 | after `deleteConfig(k)`, `k` reads undefined, every other key is unchanged, and deleting `apiKey` falls back to the environment key or the configuration error |
| LibConfig.ConfigStore.Clear | src/lib/config.js:58-60 | after `clearConfig()` the store holds its defaults, so the base URL is the environment's or the public one |
| LibConfig.ConfigStore.GetApiKey | src/lib/config.js:67-79 | succeeds exactly when the stored or the environment key is non-empty, prefers the stored one, never returns an empty key, and otherwise fails with the configuration message |
| LibConfig.ConfigStore.GetBaseUrl | src/lib/config.js:85-87 | the stored URL if non-empty, else the environment's if non-empty, else the public API URL; never empty |
| LibAuth.GetAuthHeaders | src/lib/auth.js:14-22 | exactly the headers X-API-KEY (the resolved key), Accept and Content-Type (both application/json); fails with the key's error and no headers when the key cannot be resolved |
| LibAuth.ValidateApiKeyFormat | src/lib/auth.js:29-32 | true exactly for a string of at least 20 characters |
| LibApi.CreateApiClient | src/lib/api.js:16-23 | a client exists exactly when the key resolves; it carries the configured base URL, a 30000 ms timeout and exactly the authentication headers (`X-API-KEY` with the resolved key, `Accept` and `Content-Type` both `application/json`); otherwise the configuration error |
| LibApi.RequestFor | src/lib/api.js:89-139 | each helper sends its endpoint with the client's base URL, timeout and headers; `get` is a GET with the params and no body, `post` and `put` are POST and PUT with the data and no params, `del` is a DELETE with neither, `downloadFile` a GET with neither that alone asks for binary data |
| LibApi.RateLimitAdvisory | src/lib/api.js:27-41 | a warning exactly when `x-ratelimit-remaining` is present, non-empty and parses to a number below 10, quoting remaining and limit; the response is passed on unchanged |
| LibApi.RateLimitWarnsBelowTen | src/lib/api.js:29-37 | a remaining count written as a decimal integer n warns exactly when n < 10 |
| LibApi.RateLimitIgnoresNaN | src/lib/api.js:33 | a remaining count that is not a number never warns |
| LibApi.InterceptError | src/lib/api.js:42-77 | fixed messages for 401, 403, 404 and 500; 422 quotes the body's truthy `message` or else the whole body; 429 quotes `retry-after`; every other status (502, 503 too) quotes itself and the body; no response and set-up failures have their own messages |
| LibApi.InterceptErrorAsWritten | src/lib/api.js:54-57 | the handler as written agrees with the corrected one except on a 422 with a `null` body |
| LibApi.NullValidationBody | src/lib/api.js:54-57 | a 422 with a `null` body is a TypeError as written, and "Validation error: null" as intended |
| LibApi.FixedMessagesIgnoreBody | src/lib/api.js:47-53 | 401, 403, 404 and 500 yield one error each, whatever the body and headers |
| LibApi.Perform | src/lib/api.js:16-139 | without an API key nothing is sent and the configuration error is returned; otherwise exactly the helper's request goes out, to the configured base URL with a 30000 ms timeout and the key header; a 2xx body is returned untransformed (with the rate-limit advisory), and every other outcome is the rejection handler's error as written, so a 422 with a `null` body rejects with a TypeError |
| LibApi.FailsBeforeRequest | src/lib/api.js:16-22 | without an API key no request is issued, and the outcome does not depend on the network |
| LibApi.Indexed | src/lib/api.js:154-156 | one segment per element, segment i being `[i] ` followed by the element's JSON |
| LibApi.FormatOutput | src/lib/api.js:147-160 | the JSON text for format `json` and for any non-array; otherwise the indexed segments joined by blank lines |
| LibApi.PrettyArrayDiffersFromJson | src/lib/api.js:148-156 | on an array the pretty and the json output always differ, and a non-empty pretty output starts with `[0] ` |
| Api.BuildRequest | src/api.js:9-27 | fails with the configuration message exactly when no key is stored; otherwise the URL is the fixed base followed by the endpoint, the three headers carry the key, and `params` and `data` are attached exactly when truthy |
| Api.HandleApiError | src/api.js:37-59 | fixed messages for 401, 403, 404 and 429; every other status, 422 and 5xx included, gives "API Error (status): " and the body's truthy `message`, else its truthy `error`, else the compact JSON of the body; its own no-response message; any other error keeps its message |
| Api.HandleApiErrorAgainstTaxonomy | src/api.js:42-53 | this table agrees with the conventional HTTP error taxonomy exactly on the statuses other than 422 and 5xx |
| Api.ApiRequest | src/api.js:9-35 | without a stored key nothing is sent and the call fails with "API key not configured"; otherwise one request to the fixed base URL with exactly the headers `X-API-KEY` (the stored key), `Accept` and `Content-Type` (both `application/json`), a 2xx body returned untransformed, and any other outcome classified by `handleApiError` |
| Api.ListInvoicesParams | src/api.js:65-68 | `page` (default 1) and `per_page` (default 25) always; `type` and `payment_method` exactly when truthy; no other name |
| Api.UnwrapList | src/api.js:71 | the page's `data` when truthy, else an empty list, so never falsy; a `null` body is a TypeError |
| Api.UnwrapCurrencies | src/api.js:186 | the body when truthy, else an empty list |
| Api.ListInvoices | src/api.js:65-72 | without a stored key nothing is sent and the call fails with `apiRequest`'s "API key not configured"; otherwise one GET of `/documents`, its params being the `listInvoices` query (`page` and `per_page` with their defaults, `type` and `payment_method` exactly when truthy, nothing else); a 2xx body is unwrapped by `data.data` with its `null` TypeError, so a successful result is truthy; a non-2xx outcome fails with `handleApiError`'s error |
| Api.SendInvoiceBody | src/api.js:89-92 | a body whose only member is `emails` |
| Api.LayersDisagreeOnKind | src/api.js:37-59 | the two layers' error kinds for a response agree exactly on statuses other than 422 and 500 |
| Api.LayersDisagreeOnMessage | src/api.js:42-52 | the two layers' messages for a response agree exactly on 401 and 404 |
| Api.LayersDisagreeWithoutResponse | src/api.js:54-58 | with no response, or a failed set-up, the two layers' messages differ |
| Cli.CellText | src/index.js:52 | a cell shows the formatter's text when there is a formatter, otherwise `String` of the value, and "" for null or a missing member |
| Cli.Widest | src/index.js:49-54 | the largest of the label's length and the cells' lengths: at least each, and equal to one of them |
| Cli.RawWidth | src/index.js:50-54 | the widest of the label and the cells: at least each, and equal to one of them |
| Cli.ColumnWidth | src/index.js:48-56 | at most 40; at least the label and every cell unless it is 40; equal to the label or to some cell unless it is 40; and 40 only when the label or some cell is at least 40 long |
| Cli.Widths | src/index.js:48-56 | the width table has exactly the columns' keys, none wider than 40 |
| Cli.WidthOfColumn | src/index.js:49-55 | a key that no later column repeats holds its own column's width |
| Cli.WidthsCover | src/index.js:48-56 | every column's key has a width |
| Cli.ComputeWidths | src/index.js:48-56 | the nested loops fill exactly the width table |
| Cli.WidestCell | src/index.js:50-54 | the inner loop finds the raw width |
| Cli.RenderCell | src/index.js:64-65 | a cell is exactly its column's width: the text cut to the width, or the text followed by spaces |
| Cli.HeaderLine | src/index.js:58 | with no label wider than its column, the heading is as long as the widths together plus two per gap |
| Cli.RowLine | src/index.js:62-66 | every data line is as long as the widths together plus two per gap |
| Cli.TableIsRectangular | src/index.js:58-66 | with distinct keys and labels of at most 40 characters, the heading and every data line are equally long |
| Cli.Table | src/index.js:42-71 | "No results found." alone for missing or empty data; otherwise three lines more than there are rows |
| Cli.TableShape | src/index.js:42-71 | "No results found." alone for missing or empty data; otherwise the heading, a rule exactly as long as the heading, one line per row in order, and the row count |
| Cli.PrintTable | src/index.js:42-71 | with a `null` row and at least one column it throws the TypeError of reading the first column's key; otherwise the printed lines are exactly the table |
| Cli.RowLines | src/index.js:62-68 | the row loop prints one line per row, in order |
| Cli.RequireAuth | src/index.js:89-96 | stops with "Billingo API key not configured." exactly when no key is configured |
| Cli.SplitEmails | src/index.js:262 | one address more than commas, each the trimmed piece between commas |
| Cli.InvoicesSend | src/index.js:256-265 | without a key it stops before any request; otherwise one POST to the invoice's `send` endpoint whose only member is `emails`, the trimmed addresses |
| Cli.SplitEmailsOfJoined | src/index.js:262-265 | addresses without commas or surrounding white space, written `a, b, c`, split back into the same addresses |
| DocumentCommands.Filter | src/commands/documents.js:43 | one filter adds its key, with the option's text, exactly when the option is given, and adds nothing else |
| DocumentCommands.Keeps | src/commands/documents.js:43-52 | later filters with other names leave an earlier filter's key as it was |
| DocumentCommands.Applies | src/commands/documents.js:43-52 | any of the ten `list` filters, in the order the command applies them, run on a query holding none of them: each adds its key exactly when given, what the query had stays, and no other key is added |
| DocumentCommands.ListFiltersAscending | src/commands/documents.js:43-52 | the ten filters of `list` carry ten distinct names |
| DocumentCommands.PagedQuery | src/commands/documents.js:37-40 | `page` and `per_page` stay as given, and only `list` parameters appear |
| DocumentCommands.ListQuery | src/commands/documents.js:37-52 | the `list` query holds `page` and `per_page` as given and no name that is not a `list` parameter |
| DocumentCommands.ListQueryParams | src/commands/documents.js:43-52 | each of the ten filters is in the `list` query, under its snake_case name, exactly when given |
| DocumentCommands.ListParams | src/commands/documents.js:37-52 | the ten conditional assignments build exactly the `list` query |
| DocumentCommands.AddFilter | src/commands/documents.js:43 | one conditional assignment adds the filter's contribution |
| DocumentCommands.SendBody | src/commands/documents.js:152-155 | `emails` (split at commas, untrimmed), `subject` and `message` each exactly when given, and no other member |
| DocumentCommands.SentAddressesRejoin | src/commands/documents.js:153 | `send` transmits one address more than there are commas, and they join back into the option's text |
| DocumentCommands.Payload | src/commands/documents.js:89-98 | `--file` is read and parsed in preference to `--data`; with neither, "Provide data with --file or --data"; read and parse failures are errors; a payload is always what was parsed |
| DocumentCommands.FileTakesPrecedence | src/commands/documents.js:90-94 | once `--file` is given, `--data` makes no difference |
| DocumentCommands.SelectPayload | src/commands/documents.js:89-98 | the branch assigning `data` yields exactly the payload |
| DocumentCommands.Create | src/commands/documents.js:88-100 | POST to `/documents` exactly when a payload is obtained, with that payload; otherwise it stops with the payload's error, so malformed JSON sends nothing |
| DocumentCommands.UpdatePayments | src/commands/documents.js:208-220 | PUT to the document's `payments` exactly when a payload is obtained; otherwise it stops with the error |

## Left out

- Terminal output is not modelled: chalk colours, ora spinners, `console.log`/`console.error`, and `process.exit`. Printed text is returned as values, and an exit is the `Abort` step or a `Failure`.
- The axios transport is a parameter: an `Exchange` is a response (status, body, lower-case headers), no response, or a set-up failure. Real timeouts, URL joining by axios and the `arraybuffer` decoding of `downloadFile` are not modelled.
- `JSON.parse` and `readFileSync` are function parameters; `writeFileSync` for downloads is not modelled.
- JSON numbers are integers of unbounded magnitude. Floating point, including the `toFixed(2)` price formatting in `src/index.js`, is not modelled. So the model does not capture that JavaScript writes numbers from 1e21 up in exponent notation and loses integer precision beyond 2^53.
- Lengths count Unicode scalar values, where JavaScript counts UTF-16 code units; the two agree on the Basic Multilingual Plane.
- `undefined` is modelled only as a missing member or an absent option (`None`). `JSON.stringify(undefined)` and other values that are not JSON are not modelled.
- Conf persistence and dotenv loading are not modelled. The store is opened from a map of persisted values and the environment (`Env`). `clear()` is taken to restore the defaults, and `delete` to remove the key.
- Only string values are stored in the configuration store.
- `src/config.js`, imported by `src/api.js` and `src/index.js`, is not part of this model. Its `getConfig('apiKey')` is the `apiKey` parameter of `Api`, and its `isConfigured()` is the `configured` parameter of `Cli`.
- JsValues.Stringify: the layout of `JSON.stringify(v, null, 2)` is written out (`Serialize`), but beyond the facts in its row (brackets, quotes, numbers, line breaks) it is not proved, because JSON serialisation is treated as a given.
- The `list` query is a map, so the order of its members is not modelled. The bodies of `send` and the `listInvoices` parameters keep insertion order.
- `printTable` is modelled for array data only. A non-array truthy value (which has no `length`) is not modelled.
- The other command files are not modelled: `partners`, `products`, `bank-accounts`, `currencies`, `document-blocks`, `organization`, `utilities` and `config`. Their list queries are fixed objects, and their `--file`/`--data` rule is the one `DocumentCommands.Payload` captures.
- The remaining `documents` commands (`get`, `cancel`, `download`, `public-url`, `payments`, `online-szamla`) are single calls. They are covered by `LibApi.Perform` and `LibApi.FormatOutput`.
- The Commander registration, the version banner and the `unhandledRejection` hook are not modelled.
- `Http.Taxonomy` is a conventional HTTP error taxonomy (401 authentication, 403 authorization, 404 not found, 422 validation, 429 rate limited, every 5xx a server error). It serves only as a yardstick. The code of `src/lib/api.js` maps only 500 to a server error, and `src/api.js` maps no status to one. The model follows the code (`LibApi.InterceptError`, `Api.HandleApiErrorAgainstTaxonomy`).
- Cli.CellText: on a row that is no object (a string, a number, an array) every member reads as missing, so the cell is blank. JavaScript would read a string's or an array's own properties, such as `length`. A `null` row is modelled, by `Cli.PrintTable`'s TypeError.

## Findings

| source | as written | input that shows it | evidently intended | confidence | as-written member | corrected member |
|---|---|---|---|---|---|---|
| src/lib/api.js:54-57 | a 422 reads `data.message` without a guard, so a `null` body throws a TypeError instead of reporting a validation error | a 422 response whose body is `null` | "Validation error: null", as `src/api.js` guards the same read with `data?.` | not executed | LibApi.InterceptErrorAsWritten (used by LibApi.Perform) | LibApi.InterceptError |
