# Verified model of the no-SDK order placement CLI

This project is a Dafny model of `place_order_cli_no_sdk.py`. The script places one order with the Kotak Neo
trading API. The model covers the deterministic logic around its HTTP calls:

- **Credential file** (`Credentials`). `load_credentials` reads `key=value` lines into a dictionary. It is modelled
  as a method with a loop over the file's lines, proved equal to `Loaded`. `Loaded` stores the results of the per-line parser `ParseLine`, in order, into an
  empty dictionary. Lemmas then give:
  - which keys are loaded;
  - that the last definition of a key wins;
  - that comment lines and lines without `=` can be dropped without changing the result;
  - that a line splits at its first `=`, so the value may itself contain `=`.
  The same module holds `main`'s check for the five required entries, the `neo-fin-key` default and the `+91`
  prefix for a bare ten-digit mobile number.
- **Alias tables** (`Aliases`). These are the exchange-segment, product and order-type tables with the
  `table.get(x, x)` lookup. Every code a table produces is a key that maps to itself, so the lookup is idempotent.
- **Handshake** (`Handshake`, `Wire`). These model the requests `totp_login` and `totp_validate` send and the
  replies they accept. The accepted replies have a `success` status and non-empty required fields. The server id
  is the first non-empty value among four candidate names, in order, and may be empty.
- **Order request** (`Orders`). This is `place_order` up to sending:
  - alias normalisation of the segment, product and order type;
  - refusal of a limit order without a price;
  - the fifteen-field `order_data` record;
  - the `sId` query parameter, present exactly when the server id is non-empty.
- **The run** (`Cli`). `main` after `--yes` is a method. It records the requests it sends and the error it
  stops with. The outcome of TOTP generation, the clock reading in the default tag and the three broker replies
  are parameters.
- **Python string operations** (`Text`). These are `strip()`, `strip(chars)`, `split('=', 1)`, `startswith`,
  `isdigit`, `upper` and `str(int)`, with their characterising lemmas. They include the round trip from
  `str(qty)` back to the quantity.

Two behaviours of the code that the model keeps as written:

- A limit order without a price is refused inside `place_order`. That is after the login and validate requests
  have gone out, not before any network call. `Cli.Run` states this: in that case exactly the two handshake
  requests are sent.
- The `--price` help text says a price is required for `L` and `SL`. The code refuses only an order type that
  upper-cases to `L`, and the model does the same (`Orders.RejectedExactly`).

## Model

Helpers without a row of their own: `Wire.Field` reads a reply field with `.get` truthiness, an absent key giving the empty string; `Credentials.ParseLines` maps `ParseLine` over the lines and `Credentials.ParseLinesAt` indexes it; `Credentials.Store` and `StoreAll` store parsed lines; `Text.LeadingCount` and `TrailingCount` count the characters `strip` removes at each end; `Text.StartsWith` is `startswith`; `Text.NatDigitsRoundTrip` is the natural-number step of `IntStringRoundTrip`; `Credentials.Defines` says a parsed line defines a key, and `Credentials.ParseLinesAppend` splits the parse of a concatenated file; `Credentials.Filled` is one present-and-non-empty test of `all([...])`, and `Credentials.IsLocalMobile` the condition of the `+91` prefix; `Handshake.Or` is Python's `or` on strings; `Orders.IsLimitType`, `Cli.RunOrder` and `Cli.LoadedConfig` name expressions of the source.

| member | source | states |
|---|---|---|
| Text.Strip | place_order_cli_no_sdk.py:129-133 | `strip` result neither starts nor ends with a stripped character, is empty exactly when every character is stripped, and keeps only characters of the input |
| Text.StripBounds | place_order_cli_no_sdk.py:129-133 | `strip` removes characters of the set only, and only from the two ends |
| Text.StripPadded | place_order_cli_no_sdk.py:129-133 | stripping undoes any padding of a string by stripped characters |
| Text.StripIdempotent | place_order_cli_no_sdk.py:129-133 | stripping twice equals stripping once |
| Text.SplitFirst | place_order_cli_no_sdk.py:131 | `split('=', 1)` gives a prefix free of `=` and a remainder that rebuild the line around the first `=` |
| Text.SplitFirstUnique | place_order_cli_no_sdk.py:131 | any decomposition `before + "=" + after` with no `=` in `before` is the split |
| Text.Upper | place_order_cli_no_sdk.py:240 | `upper()` keeps the length and upper-cases each character on its own |
| Text.UpperIsL | place_order_cli_no_sdk.py:240 | exactly `"L"` and `"l"` upper-case to `"L"` |
| Text.IsDigitsExamples | place_order_cli_no_sdk.py:355 | `isdigit()` is false of the empty string, of a `+`-prefixed number and of a number with a space, and true of ten bare digits |
| Text.NatDigits | place_order_cli_no_sdk.py:237 | the decimal text of a natural number is a non-empty digit string with no leading zero |
| Text.IntString | place_order_cli_no_sdk.py:237 | `str(qty)` is the canonical numeral: digits with no leading zero, after a `-` exactly when the number is negative |
| Text.IntStringRoundTrip | place_order_cli_no_sdk.py:237 | `str(qty)` reads back as `qty`, negative numbers included |
| Aliases.SegmentMapClosed | place_order_cli_no_sdk.py:55-77 | every segment alias maps into the seven segment codes, each of which maps to itself |
| Aliases.ProductMapClosed | place_order_cli_no_sdk.py:80-96 | every product alias maps into the six product codes, each of which maps to itself |
| Aliases.OrderTypeMapClosed | place_order_cli_no_sdk.py:99-121 | every order-type alias maps into the seven order-type codes, each of which maps to itself |
| Aliases.ClosedByCodes | place_order_cli_no_sdk.py:55-121 | a table whose values are all self-mapped codes is closed under lookup |
| Aliases.Normalize | place_order_cli_no_sdk.py:234-236 | `table.get(x, x)` gives one of the table's codes for a known alias and the alias itself for an unknown one |
| Aliases.NormalizeLookup | place_order_cli_no_sdk.py:234-236 | a known alias gives its table entry, an unknown one comes back unchanged |
| Aliases.NormalizeIdempotent | place_order_cli_no_sdk.py:234-236 | on a closed table, normalising twice equals normalising once |
| Aliases.NormalizeExamples | place_order_cli_no_sdk.py:234-236 | `NFO`→`nse_fo`, `XYZ`→`XYZ`, `Normal`→`NRML`, `MIS`→`MIS`, `Limit`→`L` |
| Credentials.CleanValue | place_order_cli_no_sdk.py:133 | a cleaned value never starts or ends with `'` |
| Credentials.ParseLine | place_order_cli_no_sdk.py:129-134 | a line adds nothing exactly when, trimmed, it has no `=` or starts with `#`; a key has no `=` and no surrounding whitespace |
| Credentials.ParseLineSplitsAtFirstEquals | place_order_cli_no_sdk.py:130-133 | the key is the trimmed text before the first `=`, the value the cleaned remainder, `=` characters included |
| Credentials.LoadedExtends | place_order_cli_no_sdk.py:126-135 | `Loaded`, the dictionary `load_credentials` returns, starts empty and each further line applies its parse to what the earlier lines loaded |
| Credentials.StoreAllAppend | place_order_cli_no_sdk.py:128-134 | storing one more parsed line after a run of lines stores it into the run's dictionary |
| Credentials.LoadCredentials | place_order_cli_no_sdk.py:124-135 | the loop over the lines leaves the dictionary `Loaded` gives for those lines |
| Credentials.StoredKeys | place_order_cli_no_sdk.py:128-134 | storing parsed lines adds exactly the keys some line defines |
| Credentials.LoadedKeys | place_order_cli_no_sdk.py:128-134 | a key is loaded from a file exactly when one of its lines defines it |
| Credentials.UntouchedKey | place_order_cli_no_sdk.py:128-134 | lines not defining a key leave its entry unchanged |
| Credentials.LastDefinitionWins | place_order_cli_no_sdk.py:134 | a key defined on several lines gets the value of its last definition (for a file, the entries are `ParseLines(lines)` stored into the empty dictionary) |
| Credentials.LoadedLastDefinition | place_order_cli_no_sdk.py:128-134 | in a file, a key defined on several lines is loaded with the value of the last line that defines it |
| Credentials.SkippedEntryIgnored | place_order_cli_no_sdk.py:130 | a skipped line stores nothing, wherever it stands |
| Credentials.SkippedLineIgnored | place_order_cli_no_sdk.py:130 | removing a comment line or a line without `=` from the file changes nothing loaded |
| Credentials.RequiredConfig | place_order_cli_no_sdk.py:343-352 | the settings exist exactly when the five required entries are present and non-empty; `neo-fin-key` defaults to `neotradeapi` only when absent |
| Credentials.FormattedMobile | place_order_cli_no_sdk.py:355-356 | a ten-digit number becomes `+91` and those digits (13 characters); anything else is kept; the result is never a bare local number |
| Credentials.FormattedMobileIdempotent | place_order_cli_no_sdk.py:355-356 | formatting a formatted number changes nothing |
| Credentials.FormatMobile | place_order_cli_no_sdk.py:355-356 | the reassignment of `mobile` yields the formatted number |
| Handshake.LoginRequestShape | place_order_cli_no_sdk.py:147-159 | `LoginRequest`, the login POST, goes to the login endpoint with the consumer key as `Authorization`, the `neo-fin-key` and a JSON content type; its body is exactly the mobile number, the UCC and the TOTP code |
| Handshake.LoginOutcome | place_order_cli_no_sdk.py:162-177 | login succeeds exactly when answered with status `success` and non-empty `token` and `sid`, returning them; a failed request and a non-success status give their own errors |
| Handshake.ValidateRequestShape | place_order_cli_no_sdk.py:184-195 | `ValidateRequest`, the validate POST, goes to the validate endpoint with the consumer key, the login's `sid` and view token (`Auth`) and the `neo-fin-key` as headers; its body is the MPIN alone |
| Handshake.FirstFilled | place_order_cli_no_sdk.py:208-214 | the server id is empty exactly when all candidate fields are empty |
| Handshake.FirstFilledPicksFirst | place_order_cli_no_sdk.py:208-214 | the server id is the value of the earliest candidate field that is non-empty |
| Handshake.ServerIdIsOrChain | place_order_cli_no_sdk.py:208-214 | the list lookup equals the `or` chain over `hsServerId`, `serverId`, `sId`, `server_id`, `''` |
| Handshake.ValidateOutcome | place_order_cli_no_sdk.py:198-226 | validate succeeds exactly when answered with status `success` and non-empty `token`, `sid`, `baseUrl`; an empty server id is accepted |
| Orders.OrderTag | place_order_cli_no_sdk.py:271 | the tag sent is never empty |
| Orders.BuildOrderData | place_order_cli_no_sdk.py:234-273 | normalised `es`, `pc`, `pt`; `qt` is `IntString(qty)`, the canonical numeral, and reads back as the quantity; `pr` is the price or `"0"` (line 238); `ig` the tag or the default; the seven constant fields |
| Orders.OrderHeadersShape | place_order_cli_no_sdk.py:245-249 | `OrderHeaders` sends exactly the edit session's sid (`Sid`), its token (`Auth`) and the form content type |
| Orders.PlaceOrder | place_order_cli_no_sdk.py:229-273 | refuses exactly a limit order without a price; otherwise the URL, headers and `order_data`, and a query that is `{"sId": server_id}` when the server id is non-empty and empty otherwise |
| Orders.LimitKeys | place_order_cli_no_sdk.py:99-121 | the order-type table maps exactly `Limit`, `L`, `l` to `L` and nothing to `l` |
| Orders.LimitAliases | place_order_cli_no_sdk.py:236-240 | an order type is a limit order after normalisation exactly for the aliases `Limit`, `L`, `l` |
| Orders.RejectedExactly | place_order_cli_no_sdk.py:234-241 | `LacksLimitPrice`, the refusal condition, holds exactly when the order is `Limit`, `L` or `l` and there is no price |
| Orders.AcceptedLimitCarriesPrice | place_order_cli_no_sdk.py:238-241 | an accepted limit order carries the caller's price, never the `"0"` placeholder |
| Orders.OrderFieldsNormalised | place_order_cli_no_sdk.py:234-236 | the segment, product and order type sent are fixed points of their tables |
| Cli.RunTag | place_order_cli_no_sdk.py:377 | the tag of a run is non-empty and is the given tag when one is given |
| Cli.Run | place_order_cli_no_sdk.py:341-401 | requests go out in order (login, validate, order), each only after the previous step succeeded; nothing is sent without complete credentials or when TOTP generation fails; the order post carries the validated session's URL, headers, record and `sId` query; a limit order without a price is never sent; the outcome names the failing step |

## Left out

- HTTP transport: `requests.post`, `raise_for_status`, timeouts and exception wrapping. A reply is `Answered(data)` or `NoAnswer`, where `NoAnswer` stands for any raised request error.
- JSON: for the two handshake steps the reply's `data` object is a `map<string, string>`; for the order, the map stands for the whole JSON body, which `place_order` returns and `main` prints. A missing `data` object, a `null` and a field that is not a string all read as absent. Non-string values such as a numeric server id `0` and their Python truthiness are not modelled. Replies whose JSON body cannot be decoded are not modelled.
- Serialisation: `json.dumps` of `order_data` into `jData` and `urlencode` of the query. The record and the query map are sent as they are.
- TOTP generation with `pyotp` (RFC 6238, wall-clock time). Its outcome is the parameter `totpCode` of `Cli.Run`: `Some(code)`, or `None` when generation raises, for instance on a secret that is not valid base32. Which secrets make `pyotp` raise is not modelled.
- The clock reading `datetime.now()` in the default tag. Its formatted text is the parameter `stamp` of `Cli.Run`.
- Opening and reading the credential file. `LoadCredentials` takes the file's lines, already split, as text.
- The float type of `--price` and the text `str(price)` gives. The price is the optional text that would be sent.
- `argparse`: required flags, the `choices` for `--tt` and `--order`, and integer conversion of `--qty`. `Cli.Run` takes the parsed flags as they are, so an order type outside the choices is also modelled, as `place_order` itself handles it.
- The dry-run preview, all `print` output, tracebacks and the process exit status. The exit status is 1 exactly when `Cli.Run` returns a failure.
- Text.IsDigits: models `str.isdigit()` for the ASCII digits only. Other Unicode digit characters are not modelled.
- Text.Upper: models `str.upper()` for the ASCII letters only. Other Unicode case mappings are not modelled.
