# bitl-debug-php in Dafny

This project models the PHP client of the BitL debug bar. The client forwards
exceptions, PHP warnings, database queries, outgoing mail and ad-hoc value
dumps to a desktop app, as HTTP POSTs to `http://127.0.0.1:8765/<endpoint>`.
The model covers the three classes that decide what is sent and when:

- `Client` (client.dfy, formatter.dfy, source_context.dfy):
  - the value formatter (`formatValue`, `prettyPrint`, `getType`);
  - the snippet of source lines around an error (`getCodeSnippet`);
  - the search for a query's caller in the backtrace (`findQueryCaller`);
  - the payload each `send*` method posts.
- `BitL` (facade.dfy): the static facade, with its on/off switch and its
  lazily created client. Every send is gated on the switch, and `dump`
  chooses a caller frame.
- `ErrorHandler` (error_handler.dfy):
  - the names of PHP's error levels;
  - `handleError`'s decision, based on the `error_reporting()` mask, the
    fatal/non-fatal split and chaining to the previous handler;
  - `handleException`;
  - the `register`/`unregister` state machine.

Layout:

- wrappers.dfy: `Option`.
- text.dfy: the PHP string built-ins the code relies on: `str_repeat`,
  `implode`, integer-to-string conversion, `rtrim` and `str_contains`.
- values.dfy: the PHP values the formatter accepts.
- formatter.dfy and formatter_properties.dfy: the formatter and its laws.
- source_context.dfy, client.dfy, facade.dfy, error_handler.dfy: the rest.

`prettyPrint` builds a list of items in a `foreach` loop and then `implode`s
it. The model does the same:

- The two `foreach` loops are the methods `Formatter.ArrayItems` and
  `Formatter.ObjectItems`. `Formatter.PrettyPrint` calls them and implodes
  their items.
- `PrettyPrint` is proved equal to the recursive specification
  `Formatter.Render`.
- The layout properties are proved about `Render`.

`getCodeSnippet` and `findQueryCaller` are handled the same way. Their loop
methods are proved equal to the specification functions `CodeSnippet` and
`QueryCaller`.

The static fields of `BitL` and `ErrorHandler` become the fields of one
object of class `Facade.BitL` and one of `ErrorHandling.ErrorHandler`.
A `Client` records every request it posts in its `posted` field. The
facade's sends are stated with three two-state predicates:

- `SentOne`: exactly one request was appended, by the existing client or
  by a fresh default one.
- `Untouched`: nothing changed.
- `Gated`: `SentOne` when the facade was enabled, `Untouched` otherwise.

Notes on the code:

- The depth cap is the constant 10 inside `prettyPrint`.
- Whether keys are printed depends only on whether the keys are 0..n-1 in
  order.
- An object whose `__debugInfo()` returns an empty array prints as
  `Class {}`, even when it has public properties.

Also note that PHP never passes E_ERROR, E_PARSE, E_CORE_ERROR or
E_COMPILE_ERROR to a user error handler. The "error" branch of
`handleError` is therefore live only for E_USER_ERROR. The model keeps the
branch as written.

## Model

| member | source | states |
|---|---|---|
| `Formatter.FormatValue` | src/Client.php:171-190 | The loop-free dispatch equals `Format`: null, booleans, quoted strings, decimal integers, and arrays/objects through prettyPrint at depth 0 |
| `Formatter.PrettyPrint` | src/Client.php:195-244 | Building the items one by one in a loop and imploding them gives exactly `Render(v, depth)` |
| `Formatter.ArrayItems` | src/Client.php:210-215 | The array loop yields one item per element, in order: the indent, two spaces, the key prefix (none for a list) and the element rendered one level deeper |
| `Formatter.ObjectItems` | src/Client.php:235-238 | The object loop yields one item per field, in order: the indent, two spaces, the field name, `: ` and the field value rendered one level deeper |
| `Formatter.GetType` | src/Client.php:249-256 | An object's type is its class name; null gives `NULL`, a boolean `boolean`, an integer `integer`, a string `string` and an array `array` |
| `FormatterProperties.RenderIsRows` | src/Client.php:195-244 | The text is a `[`/`Class {` row, then each element's rows indented 2*(depth+1) spaces, with its key on the first row and a comma on the last row of every element but the last, then a closing row at 2*depth spaces; all joined by newlines |
| `FormatterProperties.ArrayRows` | src/Client.php:204-217 | The array case of that layout, given that it holds for every element |
| `FormatterProperties.ObjectRows` | src/Client.php:220-240 | The object case of that layout, given that it holds for every field |
| `FormatterProperties.DepthCap` | src/Client.php:197-202 | Past depth 10 every value, even `[]` or a scalar, prints as `...` |
| `FormatterProperties.TruncateNesting` | src/Client.php:197-202 | Cutting a value off below the cap leaves no path through more than 11 arrays/objects |
| `FormatterProperties.TruncateArray` | src/Client.php:204-217 | The array case of TruncateRender |
| `FormatterProperties.TruncateObject` | src/Client.php:220-240 | The object case of TruncateRender |
| `FormatterProperties.TruncateRender` | src/Client.php:197-202 | Nothing below the depth cap, and no field the hooks do not select, affects the text |
| `FormatterProperties.DepthCapped` | src/Client.php:197-202 | The shown part of a value nests at most 11 levels, and two values that agree on that part format identically |
| `FormatterProperties.KeyRule` | src/Client.php:209-213 | Keys are omitted exactly when the keys are the integers 0..n-1 in order; otherwise the prefix is `'k' => ` for string keys and the bare integer and ` => ` for int keys |
| `FormatterProperties.DebugInfoFirst` | src/Client.php:223-224 | When `__debugInfo` exists, `toArray` and the public properties do not affect the text |
| `FormatterProperties.ToArraySecond` | src/Client.php:225-226 | Without `__debugInfo`, an object with `toArray` prints exactly as if `__debugInfo` had returned the `toArray` fields; the public properties do not matter |
| `FormatterProperties.PublicPropertiesLast` | src/Client.php:227-229 | Without either hook, the public properties are printed as the fields |
| `FormatterProperties.ScalarForms` | src/Client.php:173-189 | `null`, `true`/`false`, `"` + raw string + `"` with the string unchanged inside, decimal integers, `[]` for the empty array |
| `FormatterProperties.ListExample` | src/Client.php:204-217 | `[1, 2]` prints as `[`, `  1,`, `  2`, `]` on four lines |
| `FormatterProperties.StringKeyExample` | src/Client.php:213 | `['a' => 1]` prints with the quoted key `'a' => ` |
| `FormatterProperties.IntKeyExample` | src/Client.php:209-213 | `[1 => 1]` is not a list, so its key is printed bare as `1 => ` |
| `FormatterProperties.ObjectExample` | src/Client.php:220-240 | An object of any class with properties x = 1 and y = 2 prints as its class name and ` {`, then `  x: 1,`, `  y: 2`, `}` |
| `FormatterProperties.EmptyObjectExample` | src/Client.php:231-232 | An object without fields prints as `Point {}` on one line |
| `FormatterProperties.ArrayOpens` | src/Client.php:204-217 | Below the cap, an array's text starts with `[` |
| `FormatterProperties.ObjectOpens` | src/Client.php:220-240 | Below the cap, an object's text starts with its class name and ` {` |
| `FormatterProperties.TypeTagMatchesContent` | src/Client.php:59-68 | The type tag and content a dump carries agree: class name and brace, `array` and `[`, `string` and a quote, `boolean` and true/false, `NULL` and null, `integer` and the decimal digits |
| `Text.Indent` | src/Client.php:198 | The indentation at depth d is exactly 2*d spaces |
| `Text.IndentStep` | src/Client.php:214 | An item's indentation, depth indent plus two spaces, is the indentation one level deeper |
| `Text.JoinSnoc` | src/Client.php:217 | Imploding a list that grew by one item adds one separator and the item |
| `Text.DecimalRoundTrip` | src/Client.php:189 | An integer's string form reads back as the same integer |
| `Text.RTrim` | src/Client.php:161 | rtrim keeps a prefix, removes only space/tab/LF/CR/NUL/vertical tab, and leaves no such character at the end |
| `Text.ContainsIff` | src/Client.php:275-282 | str_contains holds exactly when the needle occurs at some index; the empty needle is always contained |
| `SourceContext.CodeSnippet` | src/Client.php:146-166 | Empty for an unreadable file; otherwise the lines max(1, line-5)..min(count, line+5), numbered consecutively from 1-based positions, each right-trimmed; never more than 11 with the default context |
| `SourceContext.GetCodeSnippet` | src/Client.php:146-166 | The loop over indices start..end-1 returns exactly `CodeSnippet` |
| `SourceContext.FirstApplicationFrameIsFirst` | src/Client.php:271-285 | The search finds a frame iff some frame is outside `/vendor/` and `BitL/Debug`, and then finds the one of least index |
| `SourceContext.QueryCallerFallback` | src/Client.php:269-288 | The caller is absent only for an empty backtrace; with no qualifying frame it is frame 0 |
| `SourceContext.FindQueryCaller` | src/Client.php:269-288 | The loop returns exactly `QueryCaller` |
| `SourceContext.FilelessFrameIsApplicationFrame` | src/Client.php:272 | A frame without a file counts as the empty path and is accepted |
| `SourceContext.VendorAndPackageFramesSkipped` | src/Client.php:274-282 | Any path containing `/vendor/` or `BitL/Debug` is skipped |
| `HttpClient.DetectDomain` | src/Client.php:261-264 | HTTP_HOST when set, else SERVER_NAME, else none |
| `HttpClient.ResolveDomain` | src/Client.php:38 | An explicit domain wins; none only when neither it nor either server variable is set |
| `HttpClient.SourceLines` | src/Client.php:148-152 | A file's lines are available exactly when it exists and is readable |
| `HttpClient.Innermost` | src/Client.php:80 | debug_backtrace with a limit gives a prefix of the frames, of length min(count, limit) |
| `HttpClient.Client.constructor` | src/Client.php:14-22 | The configuration is fixed at construction, with defaults 127.0.0.1, 8765 and 1; nothing posted yet |
| `HttpClient.Client.Post` | src/Client.php:120-141 | Exactly one request to `http://host:port` + endpoint is recorded; no failure reaches the caller |
| `HttpClient.UrlShape` | src/Client.php:124 | The URL splits back into scheme, host, port (read back as the same number) and endpoint |
| `HttpClient.DefaultUrl` | src/Client.php:15-16 | The default client posts to `http://127.0.0.1:8765` + endpoint |
| `HttpClient.Client.SendError` | src/Client.php:27-40 | Posts to /error the exception's class, message, file, line, trace, the snippet around its line and the resolved domain |
| `HttpClient.Client.SendWarning` | src/Client.php:45-54 | Posts to /warning with the level "Warning" and the resolved domain |
| `HttpClient.Client.SendDump` | src/Client.php:59-68 | Posts to /dump the formatted value and its type tag |
| `HttpClient.Client.SendQuery` | src/Client.php:73-92 | Posts to /query with the connection defaulting to "default" and the file and line of the query caller among the innermost 10 frames, absent when missing |
| `HttpClient.Client.SendMail` | src/Client.php:97-115 | Posts to /mail the message fields as given |
| `Facade.DumpCaller` | src/BitL.php:92-93 | The reported frame is frame 1 when there are two frames, else frame 0, and absent only for an empty backtrace |
| `Facade.DumpLocation` | src/BitL.php:95-99 | The frame's file and line, with "unknown" and 0 for what is missing |
| `Facade.BitL.constructor` | src/BitL.php:12-13 | Initially no client and enabled |
| `Facade.BitL.GetClient` | src/BitL.php:18-25 | Creates a default client only when none is set, stores it, and otherwise returns the stored one |
| `Facade.BitL.SetClient` | src/BitL.php:30-33 | Later calls of client() return the given client |
| `Facade.BitL.Enable` | src/BitL.php:38-41 | The switch is on afterwards; the client is unchanged |
| `Facade.BitL.Disable` | src/BitL.php:46-49 | The switch is off afterwards; the client is unchanged |
| `Facade.BitL.IsEnabled` | src/BitL.php:54-57 | Reports the switch |
| `Facade.BitL.Error` | src/BitL.php:62-69 | Enabled: exactly one /error request through the current or a new default client. Disabled: nothing changes, and no client is created |
| `Facade.BitL.Warning` | src/BitL.php:74-81 | The same gating for /warning |
| `Facade.BitL.Dump` | src/BitL.php:86-103 | Returns the value unchanged either way; when enabled, one /dump request at the caller's file and line |
| `Facade.BitL.Query` | src/BitL.php:120-132 | The same gating for /query |
| `Facade.BitL.Mail` | src/BitL.php:137-151 | The same gating for /mail |
| `ErrorHandling.ErrorLevelToString` | src/ErrorHandler.php:106-126 | Each of the 15 E_* levels maps to its name; every other integer maps to "Unknown Error", and only those do |
| `ErrorHandling.LevelNamesDistinct` | src/ErrorHandler.php:106-126 | Different levels have different names |
| `ErrorHandling.Unsigned` | src/ErrorHandler.php:63 | A PHP integer's 64 bits, read as an unsigned number: non-negative integers are unchanged and a negative 64-bit integer x reads as x + 2^64 |
| `ErrorHandling.BitAnd` | src/ErrorHandler.php:63 | The bitwise AND is no greater than either operand |
| `ErrorHandling.NothingReportedUnderZero` | src/ErrorHandler.php:63-65 | A zero mask suppresses every error |
| `ErrorHandling.LowMaskKeepsBit` | src/ErrorHandler.php:63 | A mask of the n lowest bits keeps each of them |
| `ErrorHandling.AllLevelsReported` | src/ErrorHandler.php:63-65 | Under E_ALL no known level is suppressed |
| `ErrorHandling.MinusOneReportsAll` | src/ErrorHandler.php:63-65 | Under `error_reporting(-1)`, whose 64 bits are all set, no known level is suppressed |
| `ErrorHandling.MaskWithoutNotices` | src/ErrorHandler.php:63-65 | Under E_ALL without E_NOTICE, notices are suppressed and warnings are not |
| `ErrorHandling.Classify` | src/ErrorHandler.php:63-74 | Suppressed iff the mask shares no bit with errno; otherwise an ErrorException for the five fatal levels, else a warning `[<level name>] <message>` |
| `ErrorHandling.ErrorDelegation` | src/ErrorHandler.php:77-85 | The previous error handler is called once, with the original arguments, exactly when the error is reported and a handler was saved |
| `ErrorHandling.CoerceToBool` | src/ErrorHandler.php:56-61 | A value returned through the `: bool` declaration: booleans pass, it is false exactly for false, 0, "" and "0", and null, arrays and objects raise a TypeError |
| `ErrorHandling.ErrorResult` | src/ErrorHandler.php:61-87 | false for a suppressed error or when no handler was saved; otherwise the previous handler's return value passed through the `: bool` declaration, which is a TypeError exactly when that value is null, an array or an object |
| `ErrorHandling.AfterRegister` | src/ErrorHandler.php:17-27 | Registered afterwards; an already registered state is unchanged, and otherwise both replaced handlers are recorded |
| `ErrorHandling.AfterUnregister` | src/ErrorHandler.php:32-51 | Unregistered afterwards; the saved handlers are kept |
| `ErrorHandling.RestoreAction` | src/ErrorHandler.php:38-48 | Nothing happens when not registered; the saved handler is reinstalled when there is one; otherwise PHP's previous handler is restored |
| `ErrorHandling.RegisterIdempotent` | src/ErrorHandler.php:19-21 | Registering twice is registering once |
| `ErrorHandling.UnregisterNoOp` | src/ErrorHandler.php:34-36 | Unregistering when not registered changes nothing, and it always ends unregistered |
| `ErrorHandling.RegisterUnregister` | src/ErrorHandler.php:17-51 | Register then unregister ends unregistered, keeping the handlers registration replaced |
| `ErrorHandling.ErrorHandler.constructor` | src/ErrorHandler.php:10-12 | Initially not registered, with no saved handlers |
| `ErrorHandling.ErrorHandler.Register` | src/ErrorHandler.php:17-27 | The state steps as `AfterRegister`, with the handlers PHP reports as replaced |
| `ErrorHandling.ErrorHandler.Unregister` | src/ErrorHandler.php:32-51 | The state steps as `AfterUnregister`, and returns `RestoreAction` for both handler slots |
| `ErrorHandling.ErrorHandler.HandleError` | src/ErrorHandler.php:56-88 | A suppressed error leaves the facade untouched; otherwise exactly one gated /error or /warning report per `Classify`. The delegation follows `ErrorDelegation` and the answer follows `ErrorResult`, so a previous handler returning null ends in a TypeError only after the report and the call; the registration is unchanged |
| `ErrorHandling.ErrorHandler.HandleException` | src/ErrorHandler.php:93-101 | Exactly one gated /error report, then a call of the saved exception handler iff one was saved |

## Left out

- HTTP transport (src/Client.php:122-140): JSON encoding, the stream context, the timeout and the swallowed failures. `Post` records the URL and payload instead.
- Floating-point numbers and resources among dumped values. Only null, booleans, integers, strings, arrays and objects are modelled. A query's `time` is carried unchanged as a `real`.
- The `(string)` cast of query bindings (src/Client.php:85): bindings are given as strings.
- PHP's conversion of numeric string keys such as `"1"` into integer keys: keys are taken as given.
- Reference cycles between objects: Dafny values are finite, so only the depth cap is modelled.
- Strings are sequences of characters, not bytes.
- `file_exists`, `is_readable` and `file` are replaced by a map from readable paths to their lines.
- `debug_backtrace` is replaced by a frame sequence passed in.
- `$_SERVER` is replaced by the `Environment` fields.
- `getTraceAsString` is replaced by an input string.
- `set_error_handler`, `set_exception_handler` and the `restore_*` functions are not modelled as a runtime. `Register` takes the handlers they report as replaced, and `Unregister` returns the action it takes on each slot.
- The previous handlers' own behaviour: handlers are opaque values. The value the previous error handler returns is a parameter, and the model only records each call in `delegated`.
- `ErrorHandling.CoerceToBool`: a float returned by the previous error handler is not modelled, because floats are not among the modelled values; the TypeError is an outcome, not a thrown exception that unwinds further.
- `BitL::dd` (src/BitL.php:108-115): it ends the process.
- `BitL::register` (src/BitL.php:156-159): a one-line call of `ErrorHandler::register`, which is modelled as `ErrorHandling.ErrorHandler.Register`.
- src/BitLServiceProvider.php, src/helpers.php and config/bitl.php are not part of this model. They are framework wiring, aliases and configuration.
