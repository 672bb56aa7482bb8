# Samvidhaan Saral: request dispatch and backend connectivity, modelled in Dafny

Samvidhaan Saral is a browser client that sends legal text to a Flask backend. The backend asks a
generative model for a structured plain-language explanation and returns it as JSON. This project
models the parts of the system that make decisions:

- **Session controller** (`App.js`, module `App`). The five React state fields (`inputText`,
  `analysisResult`, `isLoading`, `error`, `isEditing`) are the fields of the class `App.Session`.
  The submit handler is split at its `await`: `HandleSimplifyClick` is the synchronous part and
  `Settle` is the continuation once the fetch settles. The focus handler is `HandleInputFocus`.
  How a fetch ends is an input of type `FetchOutcome`. The pure function `Settlement` maps it to a
  stored result or a displayed message.
- **Input bar** (`InputForm.js`, module `InputForm`). This covers the submit button's `disabled`
  guard, the textarea's `disabled`, the character count (UTF-16 code units, as JavaScript counts
  them) and the auto-resize clamp.
- **Availability poller** (`useApiStatus.js`, module `ApiStatus`). This is the class
  `StatusPoller`. Each effect run has its own `cancelled` flag. Probe completions and interval
  ticks arrive as events.
- **Warm-up monitor** (`useApiWarmup.js`, module `ApiWarmup`). This is the class `WarmupRun`: the
  first ping, the hidden iframe, the retry timer, the second ping and the iframe's removal. It
  keeps one quirk of the code: the effect returns a Promise, so teardown cancels nothing.
- **Backend handler** (`app.py`, module `Backend`). This covers body validation (with Python's own
  truthiness and `in` semantics), the removal of a Markdown code fence (Python `strip`,
  `startswith` and slice semantics) and the status and body of every response.
- **Both halves together** (module `Protocol`). The client's request always passes the
  handler's validation. Each response the handler can produce reaches the user as a specific
  message or result. For the crash page this assumes the page arrives with CORS headers (see
  "## Left out").

Shared modules: `Wrappers` (Option, Result), `Json` (parsed JSON values), `Text` (trimming for
both languages' whitespace sets, UTF-16 length, substring search, Python slices) and `JsValues`
(JavaScript truthiness, `String(v)` and reading `.error`).

Network calls, the generative model and `json.loads` are parameters of the model. Timers are
events. Serialising JSON and parsing it back is taken to return the same value.

The code, and so the model, behaves as follows:

- The controller rejects only the empty string (`!inputText`), so whitespace-only text passes that
  test. Only the bar's button guard trims (`App.WhitespaceGuards`).
- On a transport failure the message is the error's own `message`. The fixed fallback is used
  only when that message is empty.
- Teardown does not cancel the warm-up retry (`ApiWarmup.UnmountDuringRetry`).
- A failure of the second warm-up ping is not caught. It escapes the timer callback as an
  unhandled rejection.
- An ok response whose JSON body is falsy but not null (`0`, `false`, `""`) is a success, and the
  value is stored as the result (`App.FalsyBodyStored`). The view tests the stored result's
  truthiness (App.js:81), so it shows no result while the header stays minimised (App.js:79). The
  backend sends such a body when the model's reply is `0`, `false` or `""` as JSON (app.py:107,
  app.py:110).
- An `error` field holding an object with its own `toString` key makes `new Error(...)` throw a
  TypeError, and the user sees that TypeError's message (`App.ErrorObjectThrows`).

## Model

| member | source | states |
|---|---|---|
| `Text.LeadingRun` | app.py:100 | The leading whitespace run: every character before it is whitespace, and the character at its end (if any) is not. |
| `Text.TrailingFrom` | app.py:101 | The start of the trailing whitespace run: every character from it on is whitespace, and the one before it (if any) is not. |
| `Text.JsWhitespace` | frontend/src/components/InputForm.js:44 | Within ASCII, JavaScript's trim removes exactly TAB, LF, VT, FF, CR and SPACE. No whitespace lies above U+FEFF. |
| `Text.PyWhitespace` | app.py:100 | Within ASCII, Python's strip also removes the separators U+001C..U+001F, besides TAB, LF, VT, FF, CR and SPACE. No whitespace lies above U+3000. |
| `Text.WhitespaceSetsDiffer` | app.py:100 | The two sets differ in exactly U+001C..U+001F and U+0085 (Python only) and U+FEFF (JavaScript only). |
| `Text.JsTrim` | frontend/src/components/InputForm.js:44 | `trim()` leaves no whitespace at either end, and is empty exactly when the text is all JavaScript whitespace. |
| `Text.PyStrip` | app.py:100-103 | `strip()` leaves no whitespace at either end, and is empty exactly when the text is all Python whitespace. |
| `Text.TrimsDisagree` | app.py:100 | Python strips a leading U+001C, while JavaScript's `trim` keeps it. |
| `Text.Strip` | app.py:100-103 | The result is a window of the input with only whitespace outside it. Neither of its ends is whitespace. It is empty exactly when the input is all whitespace. |
| `Text.StripFrame` | app.py:101-103 | Strip is determined by its window: whitespace around an already-trimmed string strips to exactly that string. |
| `Text.StripIdempotent` | app.py:101-103 | Stripping an already-stripped string changes nothing. |
| `Text.StripKeepsPrefix` | app.py:103 | A prefix that starts and ends with non-whitespace survives stripping. |
| `Text.Utf16Length` | frontend/src/components/InputForm.js:6 | The code-unit length lies between the character count and twice it. It equals the character count exactly when every character is in the Basic Multilingual Plane. |
| `Text.Utf16LengthAppend` | frontend/src/components/InputForm.js:6 | Code-unit length adds up over concatenation. |
| `Text.ContainsAt` | app.py:52 | Any occurrence of the pattern at some position makes Python's `in` test for strings true. |
| `Text.ContainsWitness` | app.py:52 | Conversely, the `in` test is true only when the pattern occurs at some position. |
| `Text.Contains` | app.py:52 | `p in s` holds whenever `p` is a prefix of `s`, and never when `p` is longer than `s`. With `ContainsAt` and `ContainsWitness`, it holds exactly when `p` occurs somewhere in `s`. |
| `Text.SliceBound` | app.py:101-103 | A slice bound within 0..n is kept. A negative bound counts from the end and is clamped at 0. A bound past the end is clamped at n. |
| `Text.PySlice` | app.py:101 | A Python slice is the contiguous window from the normalised start bound to the normalised stop bound. Its length is their difference, and it is empty when the start is not before the stop. |
| `Text.SliceBetweenFences` | app.py:101-103 | `s[k:-3]` is the text between a k-character opening fence and a 3-character closing fence. It is empty when the string is too short for both. |
| `JsValues.Digits` | frontend/src/App.js:35 | The decimal rendering of a number is non-empty, all digits, has no leading zero, and denotes the number. |
| `JsValues.Decimal` | frontend/src/App.js:35 | A signed integer renders with a leading "-" exactly when negative, followed by digits that denote its magnitude. |
| `JsValues.Truthy` | frontend/src/App.js:40 | JavaScript's falsy values are exactly null, false, 0 and "". Every array and object is truthy, even an empty one. |
| `JsValues.JoinComma` | frontend/src/App.js:41 | The empty list joins to "" and a single part joins to itself. The length is the parts' total length plus one comma between each two neighbours. |
| `JsValues.JoinAppend` | frontend/src/App.js:41 | Joining two non-empty lists gives the two joins with one comma between them. With the empty and one-part cases, this fixes the join completely: the parts, in order, with a comma between each two neighbours. |
| `JsValues.Part` | frontend/src/App.js:41 | An array element contributes "" when it is null, and its own `String()` (or the TypeError it throws) otherwise. |
| `JsValues.Parts` | frontend/src/App.js:41 | Converting the elements one after another gives all their texts, in order, exactly when none throws; otherwise it gives the first element's TypeError, and every element before that one converted. |
| `JsValues.PartsAppend` | frontend/src/App.js:41 | Converting a concatenation converts the first list and then, unless it threw, the second; the texts are the two lists of texts concatenated. |
| `JsValues.ArrayMessageAppend` | frontend/src/App.js:35-41 | An array `error` of any length converts to its two halves' messages joined by a comma, and it throws exactly when one of the halves does. |
| `JsValues.ToJsString` | frontend/src/App.js:35-41 | `String(v)` throws exactly when an object with its own `toString` key is reached, at the top or inside an array, and then with the TypeError "Cannot convert object to primitive value". Otherwise a string gives itself, a number its decimal form, a boolean "true" or "false", an object "[object Object]" and the empty array "". |
| `JsValues.OwnToStringThrows` | frontend/src/App.js:35-41 | An object with its own `toString` key throws the TypeError, alone and as the last element of an array whose earlier elements convert. |
| `JsValues.SingletonMessage` | frontend/src/App.js:41 | A one-element array converts to what its element converts to. A null element gives "". |
| `JsValues.NumberMessage` | frontend/src/App.js:41 | A numeric `error` becomes a message whose digits denote the number, with a sign exactly when it is negative. |
| `JsValues.ReadError` | frontend/src/App.js:35-40 | `v.error` throws exactly on null. It is `undefined` for primitives, arrays and objects without the key. Otherwise it is the key's value. |
| `JsValues.StringMessage` | frontend/src/App.js:41 | A string error value becomes the message unchanged. It is truthy exactly when it is non-empty. |
| `JsValues.TruthyButEmptyMessage` | frontend/src/App.js:35-49 | A truthy `error` such as `[""]` or `[null]` converts to an empty message, which the catch block then replaces with the fallback. |
| `Backend.PyTruthy` | app.py:52 | Python's falsy bodies for `not data` are exactly None, False, 0, and the empty str, list and dict. |
| `Backend.PyHasText` | app.py:52 | `'text' in data` raises exactly for null, booleans and numbers. |
| `Backend.Validate` | app.py:51-56 | A body is accepted exactly when it is a dict with a `text` key, and the accepted text is that key's value (whatever it is). A falsy body gives the 400 rejection, and so does a truthy body for which `'text' in data` is false: a dict without the key, a str without the substring, a list without the element. A truthy number or boolean makes the membership test raise. A str or list that does contain "text" passes it and then raises at `data['text']`. Both crashes happen outside the `try`. |
| `Backend.CleanFence` | app.py:99-103 | An unfenced reply is passed on unchanged, surrounding whitespace included. A fenced reply comes out with no whitespace at either end. The output is never longer than the reply. |
| `Backend.CleanFenceBranches` | app.py:100-103 | The `json` branch gives `strip(st[7:len-3])`, or "" when the stripped reply is shorter than 10 characters. The bare-fence branch gives `strip(st[3:len-3])`, or "" when it is shorter than 6. |
| `Backend.JsonTagRemoved` | app.py:100-103 | On a "```json" reply the bare-fence rule would leave the `json` tag at the front, while CleanFence drops the whole opening fence. That is why the `json` test comes first. |
| `Backend.BareRuleKeepsTag` | app.py:102-103 | The bare-fence slice of a "```json" block starts with `json` after stripping. |
| `Backend.FencedBlock` | app.py:99-103 | A fenced block starts with a fence, starts with "```json" exactly when tagged, and has no whitespace at either end. The matching slice of the block is the body between two line breaks. |
| `Backend.CleanFenceUnwraps` | app.py:99-103 | Round trip: a trimmed text wrapped in a fenced block (tagged or not) with any surrounding whitespace comes back exactly as it was. |
| `Backend.UnfencedUntouched` | app.py:99-103 | A reply whose first character is neither whitespace nor a backtick reaches the parser verbatim. |
| `Backend.ErrorBody` | app.py:54 | An error response body is a JSON object whose only key is `error`, bound to the message. |
| `Backend.SimplifyText` | app.py:51-115 | A rejected body gives 400 with "No text provided in the request". A crash in validation gives Flask's 500 page. Status 200 happens exactly when the body is accepted and the reply exists and parses after cleanup, and the body is then the parsed value. Any other accepted request gives 500 with "Failed to process the text with the AI model." |
| `InputForm.SubmitDisabled` | frontend/src/components/InputForm.js:44 | The button is disabled exactly when loading or when the text is all JavaScript whitespace. An enabled button implies non-empty text. |
| `InputForm.CharCount` | frontend/src/components/InputForm.js:6 | The count is at least the number of characters, and equals it exactly when there is no astral character. |
| `InputForm.Render` | frontend/src/components/InputForm.js:26-67 | The textarea and spinner follow `isLoading` alone. The button follows the trimmed-text guard. The bar's class list is the plain "input-bar " exactly in editing mode. The error paragraph appears exactly when the error is non-empty. |
| `InputForm.TextareaIgnoresEditing` | frontend/src/components/InputForm.js:35 | Flipping `isEditing` never changes whether the textarea is disabled, and it is enabled whenever not loading. |
| `InputForm.Resize` | frontend/src/components/InputForm.js:13-15 | The height is the scroll height capped at 200. The scrollbar is `auto` exactly when content is cut off. |
| `InputForm.ResizeMonotone` | frontend/src/components/InputForm.js:13-15 | Taller content never gives a shorter box, and once the scrollbar is on it stays on. |
| `InputForm.BarClass` | frontend/src/components/InputForm.js:26 | The class list always starts with "input-bar ". It is exactly that in editing mode, and is followed by " minimized" otherwise. |
| `App.SimplifyRequest` | frontend/src/App.js:25-31 | Each request is a JSON `POST` to the one simplify URL, with a body whose only key is `text`, bound to the typed text. |
| `App.StatusOk` | frontend/src/App.js:33 | `response.ok` holds exactly for a 2xx status. |
| `App.HasTruthyError` | frontend/src/App.js:40 | `data.error` is truthy exactly when reading the property succeeds, finds a value, and that value is truthy. |
| `App.TryBlock` | frontend/src/App.js:24-46 | The `try` block throws the fetch's own error on a network failure. A non-ok response with a non-JSON body throws the fixed "non-JSON" message, and an ok one throws the parser's SyntaxError. A null body throws the TypeError. It completes exactly on an ok, JSON, non-null body without a truthy `error`, and then stores the whole body. |
| `App.Settlement` | frontend/src/App.js:33-49 | A failure always carries a non-empty message. Success happens exactly on an ok status with a JSON, non-null body that has no truthy `error`, and the body is then stored whole. |
| `App.NetworkErrorMessage` | frontend/src/App.js:47-49 | A rejected fetch shows its own message, or the fixed fallback when that message is empty. |
| `App.NotOkMessages` | frontend/src/App.js:33-35 | A non-ok response shows the body's `error` string. It shows "Network response was not ok" when there is no truthy `error`, and "Server returned a non-JSON error" when the body is not JSON. |
| `App.OkWithErrorField` | frontend/src/App.js:38-42 | An ok response whose body has a non-empty `error` string ends in that message. |
| `App.ErrorObjectThrows` | frontend/src/App.js:33-49 | On any status, a body whose `error` is an object with its own `toString` key ends in the TypeError "Cannot convert object to primitive value", since `new Error(...)` itself throws inside the `try`. |
| `App.FalsyBodyStored` | frontend/src/App.js:38-45 | An ok response whose JSON body is falsy but not null is a success that stores the value; such a body is 0, false or "". |
| `App.Session.constructor` | frontend/src/App.js:9-13 | Initial state: empty text, no result, not loading, no error, editing mode, nothing sent. |
| `App.Session.SetInputText` | frontend/src/components/InputForm.js:33 | Typing replaces the text and nothing else. |
| `App.Session.HandleSimplifyClick` | frontend/src/App.js:15-31 | Empty text sets the validation message and changes nothing else, sending nothing. Any other text, including whitespace, clears the result and error, sets loading, and sends exactly one request. |
| `App.Session.Settle` | frontend/src/App.js:33-52 | Loading always ends. Success stores the body and leaves editing mode. Failure sets the message and does not touch the result or `isEditing`. Under single flight, afterwards either the result is stored with no error or the error is non-empty with no result. |
| `App.Session.HandleInputFocus` | frontend/src/App.js:56-61 | In result mode, focus returns to editing and drops the result. In editing mode nothing changes. |
| `App.Session.ClickSubmit` | frontend/src/components/InputForm.js:40-44 | A click sends a request exactly when the button is enabled, and it keeps the single-flight invariant. A disabled click changes nothing. A sending click keeps the text and `isEditing`, clears the result and error, starts loading and appends the request for that text. The validation message is never produced this way. |
| `App.WhitespaceGuards` | frontend/src/App.js:16 | Whitespace-only text passes the controller's `!inputText` test, but the bar keeps the button disabled for it. |
| `App.SubmitAndSettle` | frontend/src/App.js:15-52 | One click and its settlement leave the session idle and keep the typed text. When the button was enabled, exactly the request for that text is appended, and either the result is stored with no error and editing mode ends, or a non-empty error is stored with no result and `isEditing` unchanged. When it was disabled, nothing changes. |
| `ApiStatus.ProbeStatus` | frontend/src/hooks/useApiStatus.js:20-23 | A completion writes `online` exactly when the probe resolved, and never writes `checking`. |
| `ApiStatus.StatusPoller.constructor` | frontend/src/hooks/useApiStatus.js:12 | Status starts as `checking`, with no run, no interval and no probe. |
| `ApiStatus.StatusPoller.RunEffect` | frontend/src/hooks/useApiStatus.js:14-31 | An empty base URL does nothing. Otherwise a new run starts with `cancelled` false, one probe goes out at once, and the interval is registered (30000 ms by default). |
| `ApiStatus.StatusPoller.Tick` | frontend/src/hooks/useApiStatus.js:31 | Each tick of a registered interval issues one probe for its run. With no interval registered there is no tick. |
| `ApiStatus.StatusPoller.Complete` | frontend/src/hooks/useApiStatus.js:18-25 | A completion from a cancelled run leaves the status alone. Any other completion overwrites it with its own outcome (the last completion wins). |
| `ApiStatus.StatusPoller.Cleanup` | frontend/src/hooks/useApiStatus.js:33-36 | Cleanup cancels the live run and clears its interval. |
| `ApiStatus.AfterStop` | frontend/src/hooks/useApiStatus.js:21-35 | After cleanup, neither a tick nor a late completion changes the status. |
| `ApiStatus.NoBaseUrl` | frontend/src/hooks/useApiStatus.js:15 | With an empty base URL no probe runs and the status stays `checking`. |
| `ApiWarmup.WarmupRun.constructor` | frontend/src/hooks/useApiWarmup.js:12-20 | An empty base URL does nothing at all. Otherwise exactly one ping goes out. The retry delay defaults to 10000 ms. |
| `ApiWarmup.WarmupRun.FirstPingSettled` | frontend/src/hooks/useApiWarmup.js:19-35 | On success there is no iframe and no timer. On failure exactly one hidden iframe with the base URL as `src` is attached, and one timer of the retry delay is set. |
| `ApiWarmup.WarmupRun.TimerFires` | frontend/src/hooks/useApiWarmup.js:29-31 | The timer issues the second ping, and the iframe is still attached. |
| `ApiWarmup.WarmupRun.SecondPingSettled` | frontend/src/hooks/useApiWarmup.js:30-34 | The iframe is removed whatever the outcome. A failure is an unhandled rejection. |
| `ApiWarmup.WarmupRun.TearDown` | frontend/src/hooks/useApiWarmup.js:37-43 | Teardown undoes nothing: a pending timer stays set. Every method keeps at most two pings and at most one iframe (`Valid`). |
| `ApiWarmup.UnmountDuringRetry` | frontend/src/hooks/useApiWarmup.js:29-43 | Unmounting while the retry is pending clears no timer. Two pings still happen, and the iframe is gone at the end. |
| `Protocol.Delivered` | app.py:110-115 | The client sees the handler's status and its JSON body. An HTML error page is a body that is not JSON. |
| `Protocol.RequestAccepted` | app.py:51-56 | Every request the client sends passes validation with exactly the typed text, blank text included. |
| `Protocol.Submission` | app.py:94-115 | The client never receives the 400 response. A missing or unparsable reply reaches the user as "Failed to process the text with the AI model.". Otherwise the user sees the client's handling of the parsed reply as an ok response. |
| `Protocol.ErrorResponsesShown` | frontend/src/App.js:33-35 | A rejected body reaches the user as "No text provided in the request". A validation crash reaches the user as "Server returned a non-JSON error", provided the crash page reaches the browser as a response (see "## Left out"). |
| `Protocol.TruthinessDiffers` | app.py:52 | Every body Python finds true is also true to JavaScript. The two disagree exactly on the empty list and the empty dict. |
| `Protocol.FencedReplyShown` | app.py:99-110 | A reply wrapped in a fenced block, whose body parses to an object without a truthy `error`, becomes the stored result. |

## Left out

- HTTP itself: `fetch` and `response.json()` become the outcome datatype `App.FetchOutcome`. The
  poller's and warm-up monitor's probes are events. JSON serialisation and parsing on both sides
  (`JSON.stringify`, Flask's `get_json`, `jsonify`, `json.loads`) are not modelled; `json.loads`
  is a parameter.
- The failures of `request.get_json()` (app.py:51): inside the handler but before its `try`, it
  aborts with a 415 for a non-JSON content type and a 400 for malformed JSON. `Backend.Validate`
  starts from the decoded body. The client always sends valid JSON with the JSON content type.
- The generative model, its configuration, the prompt text (app.py:59-92), the API-key check, the
  CORS and dotenv setup, the `/api/test` route, the logging `print` (app.py:114) and the client's `console.error` (App.js:48). The model's reply is an
  input that may be absent (generation raised).
- Rendering: the JSX of App.js, Header, AnalysisResult, the dot-grid background and the textarea
  `style` writes. Only the values the bar derives are modelled.
- Real time: interval and timeout durations are recorded but not measured. Ticks and timer firings
  are events.
- React's batching of state updates and stale closures. Each setter takes effect when it is
  called. Once loading starts, the disabled textarea and button keep further events out.
- React's own reaction to an effect that returns a non-function (a development warning or a
  failing teardown call). The model records only that nothing is cancelled.
- `ApiWarmup.WarmupRun`: each effect run is its own object. When the base URL changes during a
  retry, iframes from overlapping runs share `document.body`, which is not modelled.
- `Json.Value`: numbers are integers on both sides. Floats are not modelled: Python's `not data`
  treats `0.0` as falsy (app.py:52), `json.loads` accepts floats and the non-standard `NaN` and
  `Infinity` (app.py:107), and JavaScript formats floats in its own way.
- `JsValues.Decimal`: numbers are integers. Floating-point values, and JavaScript's exponent
  notation for magnitudes of 10^21 and above, are not modelled.
- `Text.Utf16Length`: characters are Unicode scalar values. Lone surrogates, which JavaScript and
  Python strings can hold, are not modelled.
- `JsValues.NullErrorRead`: the TypeError message for reading a property of `null` uses V8's
  wording. Other engines word it differently.
- `JsValues.ObjectConversionError`: the TypeError message for an object without a usable
  conversion to a primitive uses V8's wording. Other engines word it differently.
- `Protocol.ErrorResponsesShown`: the crash page is assumed to reach the browser as a cross-origin
  response, with CORS headers, as in a deployment without the debugger. Under `app.run(debug=True)`
  (app.py:123) the exception propagates to Werkzeug's debugger page, which does not carry the
  `Access-Control-Allow-Origin` header. The cross-origin fetch then rejects, and the user would see
  the browser's own network-error message. The client's own requests never reach this path
  (`Protocol.RequestAccepted`).
