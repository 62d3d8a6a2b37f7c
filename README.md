# autolook-api in Dafny

A model of the Python client library for the Autolook email-provisioning
service (`autolook_api`). It covers three parts of the library and the
properties proved about them:

- **The struct codec of `alapi.py`.** `ApiStruct.to_dict` goes through
  `enum_dict_factory`. `ApiStruct.from_dict` fills `parsed_data` in a loop
  and then calls the generated dataclass constructor. `ApiResp.from_dict`
  turns a falsy `ok` into an `ApiRespError`. Also modelled: the two
  enumerations with their `default()` members, every request and response
  dataclass with its defaults, `set_alacctoken_opt`, and the seven
  `ApiEndpoint`s.
- **The decision logic of `AlApiClient` in `client.py`.**
  - `start` and `close` update the `closed` flag and the session.
  - `_call` performs the closed and session checks, builds the URL, runs
    the retry loop with exponential waits, and handles each answer: the
    5xx check, the JSON check, the schema check, and the dispatch on the
    error code, including the extraction of the cooldown text for `"E03"`.
  - `call` injects the token and serialises the request.
  - `get_emails`, `buy_emails` and `buy_email` map the result.
- **The exceptions of `error.py`.** Each subclass constructor writes its
  own text into `message`. `Error.__init__` then rewrites the message to
  `"AL Error: " + text`.

Python's runtime reflection (`get_type_hints`, `get_origin`,
`is_dataclass`, `dataclasses.fields`) is replaced by an explicit table of
field descriptors:

- `Api.Decls` is the type of such a table.
- `Api.Fields` is the table for alapi.py.
- `Api.FieldsValid` proves that the alapi.py table obeys the rules the
  `@dataclass` decorator enforces: distinct names, no required parameter
  after a defaulted one, `ok` first in every response, and `alacctoken`
  first in every authenticated request.

The codec works for any valid table. The client decodes with
`Fields`.

Values on the wire are the Python objects that `json.loads` produces and
`json.dumps` consumes (`Wire.Value`). A JSON object is a sequence of members;
the dict `json.loads` builds from it (`Wire.DictOf`) keeps each key once, at
its first position, holding its last value, and a lookup finds that value. Floats are opaque (`Wire.Float`). The network is a parameter:
`post(url, payload, attempt)` says how each attempt ends. Waits are recorded
in the call's `Trace` instead of being slept.

Six behaviours of the code that a reader might not expect, kept as
written:

- **An undeclared key is not ignored.** `hints.get` gives `None`, the value
  is copied into `parsed_data`, and `cls(**parsed_data)` raises
  `TypeError` (`Codec.UnknownFieldRejected`, `Scenarios.UnknownKeyRejected`).
- **Enumeration wire strings are not turned back into members on read.**
  A `GetMailsI.filter` of `"OnlyNew"` stays that string
  (`Codec.PlainEntryKept`, `Codec.EnumNotRestored`,
  `Scenarios.FilterStringKept`). An unknown wire string is therefore not
  rejected either.
- **Nested records are built without recursion.** Nested records and the
  elements of record lists are built by `item_type(**item)`. Their own
  fields are not decoded further (`Codec.NestedNotRecursive`).
- **`to_dict` emits `alacctoken`.** This field is `init=False`, so an
  authenticated request never survives `from_dict(to_dict())`
  (`Requests.AuthedNoRoundTrip`).
- **`BuyEmailsO` needs the cost fields.** A `BuyEmailsO` map without
  `actual_cost` and `new_balance` fails to decode
  (`Scenarios.BuyEmailsWithoutCostFails`).
- **The `"E04"` branch does not raise `TempLockedApiError`.** It reads
  `retry_time`, which is never assigned on that path, so an
  `UnboundLocalError` escapes (`Client.ErrorCodeDispatch`).

## Model

| member | source | states |
|---|---|---|
| Wire.Lookup | autolook_api/alapi.py:59 | `data[k]` finds a value exactly when `k` is one of the map's keys, and the value found is that of an entry with key `k` |
| Wire.LookupDistinct | autolook_api/alapi.py:31 | in a map without repeated keys, every entry is what a lookup of its key finds |
| Wire.Assign | autolook_api/client.py:147 | `d[k] = v` leaves the dict's keys those it had plus `k` |
| Wire.AssignDistinct | autolook_api/client.py:147 | `d[k] = v` keeps keys unique: a new key is appended, an existing one keeps its place and takes the new value, and nothing else changes |
| Wire.DictOfDistinct | autolook_api/client.py:147 | the dict `json.loads` builds has no repeated key and holds exactly the keys of the object's members |
| Wire.DictOfValues | autolook_api/client.py:147 | every key of that dict holds the last value the object gives it |
| Wire.DictOfDistinctKeys | autolook_api/client.py:147 | an object without repeated keys becomes a dict with the same members in the same order |
| Wire.DictOfLookup | autolook_api/client.py:147 | a lookup in that dict finds what a last-wins lookup in the object finds |
| Wire.Iterate | autolook_api/alapi.py:38 | iterating a list gives its elements; only lists, dicts and strings are iterable; the iteration is empty exactly when the value is falsy |
| Api.FilterDefault | autolook_api/alapi.py:165-167 | the default `GetMailsFilter` is the member whose wire string is `"None"` |
| Api.RefreshDefault | autolook_api/alapi.py:174-176 | the default `GetMailsRefreshMails` is the member whose wire string is `"NoRefresh"` |
| Api.DefaultVariant | autolook_api/alapi.py:250-251 | a default factory gives a member of the field's own enumeration, whose wire string is `"None"` for a filter and `"NoRefresh"` for a refresh mode |
| Api.WireStringInjective | autolook_api/alapi.py:160-172 | no two enumeration members share a wire string |
| Api.ApiRespDecl | autolook_api/alapi.py:53-55 | `ApiResp` is a well-formed response declaration: `ok` first, names distinct |
| Api.ApiRespErrorDecl | autolook_api/alapi.py:63-66 | `ApiRespError` (`ok`, `code`, optional `message`) is well formed |
| Api.ApiRespCheckDecl | autolook_api/alapi.py:69-72 | `ApiRespCheck` is well formed |
| Api.ApiReqDecl | autolook_api/alapi.py:75-78 | `ApiReq` is a well-formed request without a token |
| Api.ApiReqAuthedDecl | autolook_api/alapi.py:80-86 | `ApiReqAuthed` has `alacctoken` first, with a default and outside the constructor |
| Api.GetApiSettingsIDecl | autolook_api/alapi.py:97-99 | `GetApiSettingsI` is a well-formed unauthenticated request |
| Api.GetApiSettingsODecl | autolook_api/alapi.py:100-104 | `GetApiSettingsO` is a well-formed response |
| Api.GetApiInfoIDecl | autolook_api/alapi.py:109-111 | `GetApiInfoI` is a well-formed authenticated request |
| Api.GetApiInfoODecl | autolook_api/alapi.py:112-115 | `GetApiInfoO` is a well-formed response |
| Api.GetBalanceIDecl | autolook_api/alapi.py:120-122 | `GetBalanceI` is a well-formed authenticated request |
| Api.GetBalanceODecl | autolook_api/alapi.py:123-125 | `GetBalanceO` is a well-formed response |
| Api.BoughtEmailDecl | autolook_api/alapi.py:130-133 | `BoughtEmail` is a well-formed plain record, neither request nor response |
| Api.BuyEmailsIDecl | autolook_api/alapi.py:135-139 | `BuyEmailsI`: token first, required parameters before the defaulted `expected_price` |
| Api.BuyEmailsODecl | autolook_api/alapi.py:140-144 | `BuyEmailsO` is a well-formed response |
| Api.GetEmailsIDecl | autolook_api/alapi.py:149-152 | `GetEmailsI` is a well-formed authenticated request |
| Api.GetEmailsODecl | autolook_api/alapi.py:153-155 | `GetEmailsO` is a well-formed response |
| Api.MailDecl | autolook_api/alapi.py:178-194 | `Mail`'s fifteen field names are distinct and its three defaulted fields come last |
| Api.GetMailsIDecl | autolook_api/alapi.py:245-253 | `GetMailsI`: token first, required `email` and `limit` before the five defaulted fields |
| Api.GetMailsODecl | autolook_api/alapi.py:254-256 | `GetMailsO` is a well-formed response |
| Api.UnlockMailsIDecl | autolook_api/alapi.py:261-266 | `UnlockMailsI` is a well-formed authenticated request |
| Api.UnlockMailsODecl | autolook_api/alapi.py:267-271 | `UnlockMailsO` is a well-formed response |
| Api.DeclWellFormed | autolook_api/alapi.py:53-271 | every dataclass of the module obeys the dataclass rules and the hierarchy's head fields |
| Api.FieldsValid | autolook_api/alapi.py:53-271 | the whole declaration table is valid, which is what the codec lemmas assume |
| Api.EndpointsWellTyped | autolook_api/alapi.py:89-93 | every endpoint pairs a request class with a response class, and no two endpoints share a path |
| Codec.ToDict | autolook_api/alapi.py:18-21 | serialising gives a dict with one entry per field, under the field's name, in field order |
| Codec.ToDictEntry | autolook_api/alapi.py:11-16 | an enumeration member is emitted as its wire string, a record as its dict, a list of records as the list of their dicts, any other value unchanged |
| Codec.ToDictKeys | autolook_api/alapi.py:20-21 | a conforming record serialises without repeated keys, and its keys are exactly the declared field names, `alacctoken` included |
| Codec.Construct | autolook_api/alapi.py:47 | the generated constructor succeeds exactly when every keyword is a constructor parameter and every required parameter is given; otherwise it raises TypeError; the result conforms to its class |
| Codec.ConstructFields | autolook_api/alapi.py:47 | after construction each given argument sits under its name, and every other field holds its default |
| Codec.FindKind | autolook_api/alapi.py:32 | a name gets no type hint exactly when the class declares no field of that name |
| Codec.FindKindAt | autolook_api/alapi.py:28-32 | the hint found for a declared field is that field's own |
| Codec.KindOfField | autolook_api/alapi.py:28-32 | the hint looked up for a declared field of a class is that field's kind |
| Codec.Kwargs | autolook_api/alapi.py:38 | the keyword arguments of `**item` are exactly the dict's keys |
| Codec.BuildList | autolook_api/alapi.py:38 | the list comprehension succeeds exactly when every element constructs; the result has one record per element, in order, each built from its element; a failure is a TypeError |
| Codec.ParseEntry | autolook_api/alapi.py:32-45 | one entry of the loop fails only with TypeError |
| Codec.ParseFields | autolook_api/alapi.py:31-45 | the loop fails only with TypeError |
| Codec.DecodeStruct | autolook_api/alapi.py:23-47 | `from_dict`, iterating the dict `json.loads` built, yields a record of the requested class that conforms to its declaration, or a TypeError |
| Codec.FromDict | autolook_api/alapi.py:23-47 | the imperative loop that fills `parsed_data` and then constructs gives exactly `DecodeStruct` |
| Codec.ParseFieldsPrefixError | autolook_api/alapi.py:31-45 | once an entry fails, the loop fails whatever entries follow |
| Codec.ParseFieldsSucceeds | autolook_api/alapi.py:31-45 | the loop succeeds exactly when every entry parses |
| Codec.ParseFieldsContents | autolook_api/alapi.py:31-45 | `parsed_data` has exactly the input's keys, each holding the parse of the last entry for that key |
| Codec.DecodeStructSucceeds | autolook_api/alapi.py:23-47 | `from_dict` succeeds exactly when every key's (last) value parses, no key is foreign to the constructor and every required parameter is present |
| Codec.MissingFieldRejected | autolook_api/alapi.py:47 | a required field absent from the map makes `from_dict` raise TypeError |
| Codec.UnknownFieldRejected | autolook_api/alapi.py:31-47 | a key that names no constructor parameter makes `from_dict` raise TypeError instead of being ignored |
| Codec.DecodeStructField | autolook_api/alapi.py:31-47 | a decoded field holds the parse of the map's value for its name, or its default when the map lacks it |
| Codec.PlainEntryKept | autolook_api/alapi.py:44-45 | a value under a plain field, an enumeration field or an undeclared key is kept as it came, never as an enumeration member |
| Codec.ListEntryDecoded | autolook_api/alapi.py:35-38 | a `list[Record]` field decodes exactly when each element constructs, into one record per element in input order |
| Codec.NestedNotRecursive | autolook_api/alapi.py:42-43 | a nested record is built from a dict, and each of its fields that the dict supplies holds the dict's value unparsed |
| Codec.ConstructAll | autolook_api/alapi.py:47 | the constructor, given exactly a record's values under their names, rebuilds that record |
| Codec.FlatRoundTrip | autolook_api/alapi.py:38 | `item_type(**item)` rebuilds a flat record from its own dict |
| Codec.EntryRoundTrip | autolook_api/alapi.py:31-45 | each field of a decodable record parses back from its own serialisation |
| Codec.RoundTripEntries | autolook_api/alapi.py:31-45 | the loop succeeds on a decodable record's serialisation, and each entry parses back to its field's value |
| Codec.RoundTripParsed | autolook_api/alapi.py:31-45 | `parsed_data` for a decodable record's serialisation has exactly the field names as keys, each holding its field's value |
| Codec.RoundTrip | autolook_api/alapi.py:18-47 | `from_dict(to_dict(x))` gives back `x` for every decodable record |
| Codec.EnumNotRestored | autolook_api/alapi.py:44-45 | whenever a map holding a member's serialisation under an enumeration field decodes, the field holds the wire string, never the member |
| Codec.DecodeResponse | autolook_api/alapi.py:57-61 | a missing `ok` is a KeyError; a falsy `ok` gives an `ApiRespError` in place of any other expected class; the nominal record requires a truthy `ok` or the class `ApiRespError` itself |
| Codec.TruthyOkDecodedAsExpected | autolook_api/alapi.py:59-61 | a map whose `ok` is truthy is decoded as the expected class |
| Codec.ResponseRoundTrip | autolook_api/alapi.py:57-61 | a decodable response with a truthy `ok`, or any `ApiRespError`, decodes from its own dict to itself |
| Codec.ErrorSubstituted | autolook_api/alapi.py:59-60 | an error response with a falsy `ok` comes back as that `ApiRespError`, whatever class was expected |
| Codec.FalsyOkIgnoresExpectedType | autolook_api/alapi.py:59-60 | with a falsy `ok`, all expected classes other than `ApiRespError` give the same outcome, and it is never the nominal record |
| Requests.SetField | autolook_api/alapi.py:85-86 | assigning a field changes the value of the entries of that name and nothing else |
| Requests.Request.SetAlacctokenOpt | autolook_api/alapi.py:77-86 | the request object afterwards is the old record with the token set when the class is authenticated, unchanged otherwise |
| Requests.WithTokenChangesOnlyToken | autolook_api/alapi.py:77-86 | on an authenticated request only `alacctoken` changes, to the token; a plain `ApiReq` is unchanged; the record still conforms |
| Requests.TokenSerialised | autolook_api/alapi.py:83 | the serialised authenticated request carries the token as its first entry |
| Requests.AuthedNoRoundTrip | autolook_api/alapi.py:83 | decoding the serialisation of an authenticated request always raises TypeError |
| Errors.Error.constructor | autolook_api/error.py:8-77 | every exception ends with the message `Error.__init__` makes from the text its class writes; `cooldown` and `after_seconds` are set only by their two classes |
| Errors.Error.InitBase | autolook_api/error.py:10-14 | the base constructor overwrites the message with "AL Error", followed by ": " and the argument when there is one |
| Errors.MessageShapes | autolook_api/error.py:10-20 | `Error()` says "AL Error"; `Error(m)` says "AL Error: " + m; `ClientError` acts like `Error`; each subclass says "AL Error: " + its own text |
| Errors.BaseMessageSome | autolook_api/error.py:11-13 | a message argument is appended after "AL Error: " |
| Errors.BaseMessageInjective | autolook_api/error.py:10-14 | the final message determines the argument the base constructor received |
| Errors.ArgumentsRecoverable | autolook_api/error.py:22-60 | different routes, tokens or domains give different messages |
| Client.LStrip | autolook_api/client.py:126 | the stripped endpoint is the longest suffix that does not start with '/', and everything removed was '/' |
| Client.RequestUrlSlashes | autolook_api/client.py:126-127 | leading slashes do not change the URL, and an endpoint without one is appended after `base + "/api/"` as it is |
| Client.FindFrom | autolook_api/client.py:173 | the search finds the first occurrence of the separator at or after the start, or reports that there is none |
| Client.CooldownText | autolook_api/client.py:173-174 | the cooldown text is absent exactly when "retry in: " does not occur; otherwise it follows the first "retry in: ", holds no 's', and ends at the next 's' or the end |
| Client.CooldownTextOf | autolook_api/client.py:173-174 | in `pre` + "retry in: " + num + "s..." where "retry in: " does not start earlier, and `num` holds no 's', the text extracted is `num`; any prefix is allowed, colons included |
| Client.CooldownTextNoColon | autolook_api/client.py:173-174 | a prefix without ':' always meets that condition, so the text extracted is `num` |
| Client.CooldownTextWithCode | autolook_api/client.py:173-174 | "E03: retry in: 5s" gives "5" |
| Client.CooldownTextMissing | autolook_api/client.py:173 | a message without ':' yields no cooldown text, so the step fails |
| Client.HandleResponse | autolook_api/client.py:136-181 | a 5xx status raises `InternalApiError` with the status and text; an answer never runs off the loop; a returned record is the decoded one and has a truthy `ok` |
| Client.HandleDecoded | autolook_api/client.py:153-181 | what follows decoding returns only the decoded record with a truthy `ok`, and never runs off the loop |
| Client.Attempts | autolook_api/client.py:134-190 | at most `max_retries` requests are sent and at least one when any attempt is allowed; the waits between them are `2**attempt`, one fewer than the requests |
| Client.AttemptStep | autolook_api/client.py:134-190 | a connection error raises at once; a client error waits and retries, or raises `RetriesExceededError` on the last attempt; an answer is handled and ends the loop |
| Client.AllAttemptsFail | autolook_api/client.py:183-190 | when every attempt hits a client error, all `max_retries` requests are sent and `RetriesExceededError` carries the last attempt's index and error |
| Client.ThreeAttempts | autolook_api/client.py:183-190 | with three attempts that all fail: three requests, waits of 1 and 2 seconds, then `RetriesExceededError(2, e)` |
| Client.ConnectionErrorNotRetried | autolook_api/client.py:183-184 | a connection error sends no further request and raises `ApiConnectionError` with the URL |
| Client.RetryLoop | autolook_api/client.py:134-190 | the `for attempt in range(max_retries)` loop ends exactly as `Attempts` prescribes |
| Client.DecodedResponseReturned | autolook_api/client.py:146-181 | a server that answers with the serialisation of a decodable response with a truthy `ok` gets that very record returned |
| Client.ErrorCodeDispatch | autolook_api/client.py:166-180 | an error response gives `InvalidRouteApiError(endpoint)` for E01, `UnauthorizedApiError(token)` for E02, the cooldown step for E03, an unbound-variable failure for E04, and `ApiError` with its code and message for any other code |
| Client.ErrorReachesDispatch | autolook_api/client.py:166 | an error response is not returned but handed to the code dispatch, whatever class was expected |
| Client.DispatchCodes | autolook_api/client.py:167-180 | the code dispatch on an `ApiRespError` record, code by code |
| Client.ErrorDecoded | autolook_api/alapi.py:57-61 | an error response decodes to itself, nominally when `ApiRespError` was expected and substituted otherwise |
| Client.SchemaMismatchIsInternal | autolook_api/client.py:153-159 | a TypeError while decoding is reported as `InternalApiError` with the status and text |
| Client.AlApiClient.constructor | autolook_api/client.py:32-48 | a new client is closed, has no session, and holds the token, the base URL and three retries |
| Client.AlApiClient.Start | autolook_api/client.py:51-67 | an open client is left as it is; a closed one gets a session and is opened |
| Client.AlApiClient.Close | autolook_api/client.py:79-85 | the client ends closed, its session kept |
| Client.AlApiClient.CallRaw | autolook_api/client.py:114-190 | a closed client raises `ClosedClientError` before any request; an open client without a session raises RuntimeError, which a client whose invariant holds never does; otherwise the retry loop runs on the stripped endpoint's URL |
| Client.AlApiClient.Call | autolook_api/client.py:94-112 | the request gets the client's token, and its serialisation is sent to the endpoint's path, expecting the endpoint's response class |
| Client.AlApiClient.GetEmails | autolook_api/client.py:205-213 | sends `GetEmailsI(limit, email_offset)` with the token to `getEmails` and maps the result to the `email` of each listed record |
| Client.AlApiClient.BuyEmails | autolook_api/client.py:215-228 | sends `BuyEmailsI(amount, domain, None)` with the token to `buyEmails` and maps the result to the `email` of each bought record |
| Client.AlApiClient.BuyEmail | autolook_api/client.py:230-235 | sends `BuyEmailsI(1, domain)` with the token to the `buy_emails` endpoint, as `buy_emails(1, domain)` does, and gives the first of the emails bought; a closed client raises `ClosedClientError` |
| Client.GetEmailsRequestConstructed | autolook_api/client.py:212 | the request sent by `get_emails` is what the `GetEmailsI` constructor builds, token unset |
| Client.BuyEmailsRequestConstructed | autolook_api/client.py:226-227 | the request sent by `buy_emails` is what the `BuyEmailsI` constructor builds, with no expected price |
| Client.EmailList | autolook_api/client.py:213 | the comprehension succeeds exactly when every record has an `email`, and gives those emails in order |
| Client.BoughtEmailsInOrder | autolook_api/client.py:228 | a decoded `BuyEmailsO` gives back the bought addresses in the order the server listed them |
| Client.BoughtEmailAttrs | autolook_api/client.py:228 | the `email` attribute of a decoded `BoughtEmail` is its first field |
| Scenarios.InsufficientBalanceSubstituted | autolook_api/alapi.py:59-60 | an error map received where a `GetBalanceO` was expected decodes as that `ApiRespError` |
| Scenarios.BuyEmailsListDecoded | autolook_api/alapi.py:35-38 | a `BuyEmailsO` with two bought emails decodes to two `BoughtEmail` records, in input order |
| Scenarios.BuyEmailsWithoutCostFails | autolook_api/alapi.py:140-144 | a `BuyEmailsO` map without `actual_cost` and `new_balance` fails with TypeError |
| Scenarios.RepeatedEmailsDict | autolook_api/client.py:147 | `{"ok": true, "emails": null, "emails": []}` loads as the dict `{"ok": true, "emails": []}` |
| Scenarios.RepeatedKeyLastWins | autolook_api/alapi.py:23-47 | that object decodes to `GetEmailsO(ok=True, emails=[])`: only the last value of a repeated key is parsed |
| Scenarios.UnknownKeyRejected | autolook_api/alapi.py:31-47 | a `GetBalanceO` map with an extra key fails with TypeError |
| Scenarios.FilterRequestAccepted | autolook_api/alapi.py:44-47 | a `GetMailsI` map naming its filter by wire string decodes |
| Scenarios.FilterStringKept | autolook_api/alapi.py:44-45 | after decoding, the filter field holds the string `"OnlyNew"`, not a member |
| Scenarios.GetMailsIDefaults | autolook_api/alapi.py:245-253 | `GetMailsI(email, limit)` gets no offset, the `NONE` filter, `NO_REFRESH`, both flags off and an unset token |
| Scenarios.BuyEmailsIDefaults | autolook_api/alapi.py:135-139 | an omitted `expected_price` is `None` |
| Scenarios.UnlockMailsIDefaults | autolook_api/alapi.py:261-266 | an omitted `expected_price` is `None` and `only_text` is off |

## Left out

- Network I/O: the aiohttp session, connector, timeout, headers, the POST, and reading the status and body. `post` is a parameter that says how each attempt ends. Only the `closed` flag and the existence of a session are state.
- JSON encoding and decoding with `json.dumps` and `response.json()`. The model works at the level of the decoded map. A body that is not JSON is a `Body` case.
- Sleeping: the waits of the retry loop are recorded, not slept. `get_new_mails_loop` and its `perf_counter` timeout are not part of this model.
- `_init`, `_get_api_settings`, `get_api_info`, `get_balance`, `get_mails` and `unlock_mails` are not modelled. `_init` fetches the settings and info over the network when the client starts. `get_api_info` returns what `call` returns; `get_balance` and `unlock_mails` return one field of it; `get_mails` returns its `mails` field, falls back to the settings' limit when `limit` is `None`, and has enumeration defaults for its filter and refresh arguments. As a result, `get_emails`' fallback to `api_settings.default_get_emails_limit` when `limit` is `None` is not modelled: `GetEmails` takes the limit as given.
- Floats are opaque. `float()` on the cooldown text is a parameter `parseFloat`. The float text inside `OnCooldownApiError` and `TimedOutError` messages is the value's `repr`.
- `Wire.PyRepr` approximates `str()` of lists and dicts inside `ApiError` messages. Escaping within strings is not modelled.
- `BaseException.args` and the exceptions' other standard attributes are not modelled. Exception arguments that are aiohttp exceptions are kept as their `str()`.
- Debug logging, `logger.py`, colorama, and `Mail.__str__` and `Mail.__repr__` are presentation only.
- The demo scripts of the repository, which drive the network client.
- Python's type hints are not checked at run time. A field may therefore hold any value, and declarations carry the hint as text only.
- Client.ErrorCodeDispatch: for `"E04"` it states what the code does (an `UnboundLocalError` escapes), not the `TempLockedApiError` the branch was evidently meant to raise.
- Client.BoughtEmailsInOrder: stated for tables that declare `BuyEmailsO` and `BoughtEmail` as alapi.py does, not for any table.
- Scenarios.InsufficientBalanceSubstituted: like every scenario lemma, stated on concrete maps for tables that declare the classes involved as alapi.py does.
