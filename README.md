# Statuspage API request layer, modelled in Dafny

This project models the request layer of a Java client for the Atlassian
Statuspage REST API. It has four parts:

- **Route templating** (`routes.dfy`, module `Routes`).
  - A route is a URL template such as `/pages/{page_id}/components` plus an HTTP method.
  - Constructing a route rejects templates whose counts of `{` and `}` differ.
  - `compile` prefixes the API base URL. Its loop then replaces the first `{`…first `}` span with the next argument until one of the braces is gone.
  - `Compile` is the loop itself. It is proved equal to the recursive specification `Expand`.
  - The properties are proved against an independent view of a template: literals interleaved with placeholder names (`Render`), whose compiled form is the literals interleaved with the arguments (`Interleave`).
- **Character counting** (`methods.dfy`, module `Methods`). `isEmpty` and the `countChar` loop are the validator the route constructor uses.
- **Request descriptor** (`requests.dfy`, module `Requests`).
  - A compiled route plus a body.
  - The body is kept only when the HTTP method permits one.
  - `toString` prints the method and the compiled URL.
  - The two copies of this class in the repository (packages `de.taucher` and `com.github.taucher2003`) have the same behaviour and are modelled by one class.
- **Requester** (`requesters.dfy`, module `Requesters`). This is a class whose fields are the state the Java class mutates:
  - the pending map from request identity to an optional callback;
  - the currently selected request;
  - the rate-limit time;
  - the shutdown flag.

  Its methods are the sequential transitions:
  - registration;
  - one check of a caller's wait loop;
  - one pass of the dispatch loop;
  - `execute`'s bookkeeping and status switch;
  - `shutdown` and `shutdownNow`.

  The clock is a parameter, and the HTTP outcome (a status code or an I/O failure) is an input.

Java `null` is `Option` where the model admits it: the character sequence given to `isEmpty` and `countChar`, the request body, and the callback. Exceptions are
values of `Exceptions.JavaException`, returned through `Result`.

### Where the intended design and the code differ

Where the dispatcher's intended design and the Java code disagree, the model follows the code:

- **Selection order.** Selection is not first-in-first-out. The pending map is an unordered `HashMap`, and `DispatchStep` may select any pending request.
- **Rate-limit spacing.** The one-second spacing is not enforced between consecutive calls. The dispatch loop waits only while a selection is still set, and `execute` clears the selection as soon as a response arrives. `SpacingOnlyWhileSelected` shows the next request selected in the same millisecond.
- **I/O failures.** An I/O failure neither moves the rate limit nor reaches an asynchronous callback (`IOFailureSkipsCallback`).
- **Shutdown error.** A forced shutdown surfaces as `InternalError` with the source's message, not as a distinct shutdown error.

## Model

| member | source | states |
|---|---|---|
| Routes.Method.Name | src/main/java/de/taucher/atlassian_statuspage_api/requests/Route.java:27-33 | each method's name, as sent to okhttp and printed, is 3 to 6 characters without a blank |
| Routes.NewRoute | src/main/java/de/taucher/atlassian_statuspage_api/requests/Route.java:55-61 | a route is built exactly when the template's `{` and `}` counts agree, and keeps the template and method; otherwise the result is IllegalArgumentException with the source's message |
| Routes.IndexOf | src/main/java/de/taucher/atlassian_statuspage_api/requests/Route.java:75-76 | `indexOf` of a character that occurs gives a position holding that character |
| Routes.IndexOfFirst | src/main/java/de/taucher/atlassian_statuspage_api/requests/Route.java:75-76 | no earlier position holds the character |
| Routes.Compile | src/main/java/de/taucher/atlassian_statuspage_api/requests/Route.java:71-80 | the substitution loop computes the recursive specification `CompileOf`; the result carries the original route and starts with the API base URL |
| Routes.SubstituteKeepsBase | src/main/java/de/taucher/atlassian_statuspage_api/requests/Route.java:72-77 | a substitution never touches the API base URL prefix |
| Routes.RenderCounts | src/main/java/de/taucher/atlassian_statuspage_api/requests/Route.java:55-58 | a template of literals and placeholders without stray braces has one `{` and one `}` per placeholder and is accepted by the constructor |
| Routes.ExpandRenderedFills | src/main/java/de/taucher/atlassian_statuspage_api/requests/Route.java:74-78 | with enough arguments, placeholders are replaced left to right by consecutive arguments, one argument each, and the literal text is kept |
| Routes.ExpandRenderedExhausted | src/main/java/de/taucher/atlassian_statuspage_api/requests/Route.java:77 | a placeholder met after the last argument raises ArrayIndexOutOfBoundsException at that index |
| Routes.ExpandRenderedFails | src/main/java/de/taucher/atlassian_statuspage_api/requests/Route.java:77 | with fewer arguments than placeholders, compilation fails with ArrayIndexOutOfBoundsException at the argument count |
| Routes.InterleaveBraceFree | src/main/java/de/taucher/atlassian_statuspage_api/requests/Route.java:74-78 | filling a template with brace-free arguments leaves no braces |
| Routes.CompileRendered | src/main/java/de/taucher/atlassian_statuspage_api/requests/Route.java:71-80 | for any well-formed template, compilation yields base URL + filled template, or fails exactly when arguments are missing; a successful result has no braces |
| Routes.CompileWithoutPlaceholders | src/main/java/de/taucher/atlassian_statuspage_api/requests/Route.java:72-74 | a template lacking `{` or `}` compiles to exactly the base URL followed by the template |
| Routes.ExpandIgnoresExtraArgs | src/main/java/de/taucher/atlassian_statuspage_api/requests/Route.java:74-78 | arguments beyond those consumed do not change a successful expansion |
| Routes.CompileIgnoresExtraArgs | src/main/java/de/taucher/atlassian_statuspage_api/requests/Route.java:77 | extra arguments passed to `compile` are ignored |
| Routes.SubstituteRemovesOnePair | src/main/java/de/taucher/atlassian_statuspage_api/requests/Route.java:75-77 | when the first `{` precedes the first `}` and no other `{` lies between them, an iteration with a brace-free argument removes exactly one `{` and one `}` |
| Routes.ExpandInvertedFails | src/main/java/de/taucher/atlassian_statuspage_api/requests/Route.java:74-77 | when the first `}` precedes the first `{`, no argument list lets the loop finish |
| Routes.InvertedTemplateAcceptedButNeverCompiles | src/main/java/de/taucher/atlassian_statuspage_api/requests/Route.java:56-77 | the template `}{` passes the constructor's count check but never compiles |
| Routes.PredefinedRoutesAccepted | src/main/java/de/taucher/atlassian_statuspage_api/requests/Route.java:36-48 | every predefined route passes the constructor check with its URL and method, with 0, 1 or 2 placeholders |
| Routes.FillOnePlaceholder | src/main/java/de/taucher/atlassian_statuspage_api/requests/Route.java:71-80 | any route over a template `l0{name}l1` compiles with one brace-free argument to base URL + `l0` + argument + `l1` |
| Routes.FillTwoPlaceholders | src/main/java/de/taucher/atlassian_statuspage_api/requests/Route.java:71-80 | any route over a template `l0{n0}l1{n1}l2` compiles with two brace-free arguments to base URL + `l0` + first + `l1` + second + `l2` |
| Routes.GetPageListCompiles | src/main/java/de/taucher/atlassian_statuspage_api/requests/Route.java:36 | the page-list route compiles without arguments to base URL + `/pages` |
| Routes.PageRouteCompiles | src/main/java/de/taucher/atlassian_statuspage_api/requests/Route.java:37-39 | the three page routes compile with a page id to base URL + `/pages/` + id |
| Routes.ComponentListRouteCompiles | src/main/java/de/taucher/atlassian_statuspage_api/requests/Route.java:43-44 | the component-list routes compile with a page id to base URL + `/pages/` + id + `/components` |
| Routes.ComponentRouteCompiles | src/main/java/de/taucher/atlassian_statuspage_api/requests/Route.java:45-48 | the four single-component routes put the page id and component id in their places |
| Methods.Occurrences | src/main/java/de/taucher/atlassian_statuspage_api/Methods.java:28-34 | the count of a character never exceeds the length |
| Methods.IsEmpty | src/main/java/de/taucher/atlassian_statuspage_api/Methods.java:21-23 | true exactly for null or the empty sequence |
| Methods.CountChar | src/main/java/de/taucher/atlassian_statuspage_api/Methods.java:25-35 | null gives 0; otherwise the loop's count equals the occurrences of the character, at most the length |
| Methods.OccurrencesCountsIndices | src/main/java/de/taucher/atlassian_statuspage_api/Methods.java:28-34 | the count equals the number of indices holding the character |
| Methods.OccurrencesConcat | src/main/java/de/taucher/atlassian_statuspage_api/Methods.java:28-34 | counts add up over concatenation |
| Methods.OccurrencesZeroIffAbsent | src/main/java/de/taucher/atlassian_statuspage_api/Methods.java:30-32 | the count is 0 exactly when the character does not occur |
| Requests.FilterBody | src/main/java/com/github/taucher2003/atlassian_statuspage_api/requests/Request.java:33 | the body is kept when the method permits one and dropped otherwise; GET always drops it, POST/PUT/PATCH always keep it |
| Requests.Request.constructor | src/main/java/de/taucher/atlassian_statuspage_api/requests/Request.java:33-36 | the compiled route is stored unchanged and the body is filtered by the method |
| Requests.Request.ToString | src/main/java/com/github/taucher2003/atlassian_statuspage_api/requests/Request.java:44-47 | the description reads back as the route's method and compiled URL |
| Requests.RouteTextRoundTrip | src/main/java/de/taucher/atlassian_statuspage_api/requests/Request.java:48 | `<METHOD> <url>` reads back as that method and URL: the five method names are told apart by their first letters |
| Requests.DescriptionRoundTrip | src/main/java/de/taucher/atlassian_statuspage_api/requests/Request.java:46-49 | `Request(route=<METHOD> <url>)` parses back to the method and URL |
| Requests.ToStringDeterminesRoute | src/main/java/de/taucher/atlassian_statuspage_api/requests/Request.java:47-49 | equal descriptions mean equal methods and compiled URLs |
| Requests.PageListRequest | src/main/java/de/taucher/atlassian_statuspage_api/StatuspageAPI.java:46-47 | the page-list request targets base URL + `/pages` and, being GET, has no body even though it was given the empty body |
| Requests.CreateComponentRequest | src/main/java/de/taucher/atlassian_statuspage_api/entities/Page.java:206-210 | the create-component request is a POST to the page's component list that keeps its JSON payload |
| Requesters.Authorization | src/main/java/de/taucher/atlassian_statuspage_api/requests/Requester.java:119 | the header is `OAuth ` followed by the API key |
| Requesters.Classify | src/main/java/de/taucher/atlassian_statuspage_api/requests/Requester.java:125-135 | 401 and 422 raise IllegalAccessError and 404 raises NoSuchElementException, with the source's messages; every other code returns the response |
| Requesters.Delivery | src/main/java/de/taucher/atlassian_statuspage_api/requests/Requester.java:79-82 | the callback receives the response exactly when both the handler and the response are non-null |
| Requesters.Requester.constructor | src/main/java/de/taucher/atlassian_statuspage_api/requests/Requester.java:33-45 | the map starts empty, with no selection, no shutdown, and the rate limit set to the creation time |
| Requesters.Requester.Register | src/main/java/de/taucher/atlassian_statuspage_api/requests/Requester.java:47-68 | the request is entered, keyed by identity, with its callback (none for the blocking call); nothing else changes |
| Requesters.Requester.Poll | src/main/java/de/taucher/atlassian_statuspage_api/requests/Requester.java:49-52 | a waiter proceeds exactly when its request is selected, keeps waiting while it is pending, and fails with InternalError when it is neither |
| Requesters.Requester.DispatchStep | src/main/java/de/taucher/atlassian_statuspage_api/requests/Requester.java:89-108 | once the loop has exited it stays exited; otherwise it exits exactly when shut down and drained, an empty map changes nothing, it waits only while a selection is set and `now <= nextRequestAt`, and else some pending request is selected and removed, all other entries untouched |
| Requesters.Requester.Execute | src/main/java/de/taucher/atlassian_statuspage_api/requests/Requester.java:116-141 | the call carries the route's method, URL, OAuth header and filtered body; a response sets the rate limit to `now + 1000` and clears the selection before classification; an I/O failure clears the selection, keeps the rate limit and yields null |
| Requesters.Requester.Shutdown | src/main/java/de/taucher/atlassian_statuspage_api/requests/Requester.java:143-145 | only the flag is raised |
| Requesters.Requester.ShutdownNow | src/main/java/de/taucher/atlassian_statuspage_api/requests/Requester.java:147-150 | the flag is raised and the map emptied |
| Requesters.IdenticalRequestsStayDistinct | src/main/java/de/taucher/atlassian_statuspage_api/requests/Requester.java:36-48 | two requests built alike are two pending entries, though they print alike |
| Requesters.ShutdownNowAbortsWaiter | src/main/java/de/taucher/atlassian_statuspage_api/requests/Requester.java:49-52 | after `shutdownNow`, a waiter whose request was pending fails with InternalError and the dispatch loop stops |
| Requesters.ShutdownDrainsQueue | src/main/java/de/taucher/atlassian_statuspage_api/requests/Requester.java:89-108 | after `shutdown`, a pending request is still selected and its waiter proceeds; only then does the loop stop |
| Requesters.StoppedLoopNeverSelects | src/main/java/de/taucher/atlassian_statuspage_api/requests/Requester.java:49-58 | after `shutdown` and the loop's exit on an empty map, a later submission is never selected: its caller keeps waiting |
| Requesters.SpacingOnlyWhileSelected | src/main/java/de/taucher/atlassian_statuspage_api/requests/Requester.java:99-124 | the loop waits while a selection is set; once `execute` clears it, the next request is selected in the same millisecond, although the rate limit lies a second ahead |
| Requesters.IOFailureSkipsCallback | src/main/java/de/taucher/atlassian_statuspage_api/requests/Requester.java:136-140 | an I/O failure leaves the rate limit where it was and delivers nothing to the callback; the loop then idles |

## Left out

- Threads, `Thread.sleep` busy-waiting, `synchronized` and the daemon dispatch thread are left out. Each loop body is one atomic step, and interleavings between callers and the dispatcher are not modelled.
- Requesters.Requester.DispatchStep: the source picks its request before the rate-limit wait and keeps it through the wait. The model waits first and picks afterwards. A request removed by `shutdownNow` during the wait, which the source would still select, is therefore not captured.
- Requesters.Requester.Poll: one check of the caller's wait loop; the repetition and the sleeping are left out.
- Requesters.Requester.Execute: `now + 1000` is an unbounded integer. Java's 64-bit `long` overflow is not modelled.
- The okhttp call (`OkHttpClient.newCall`, `Request.Builder`) is foreign code. Its outcome is an input. The builder's own checks on method and body are not modelled.
- okhttp's `HttpMethod.permitsRequestBody` is a parameter. Only its answers for GET (false) and POST, PUT and PATCH (true) are assumed; DELETE is left open.
- Handler invocation: callbacks are identities. What a callback does with the response, and the response body's contents, are left out.
- A getter is the field itself: Dafny `const` fields are read directly.
- The `com.github.taucher2003` package's `Route` class, which its `Request` refers to, is not part of this model. Both `Request` classes use the one `Routes` module.
- The clock (`System.currentTimeMillis`) and the API key (read from `StatuspageAPI`) are parameters.
- Logging (`System.out`, `printStackTrace`) is left out.
- Null compile arguments, a null template and a null API key are not modelled: these are plain strings here. In Java a null argument puts the text `null` into the URL, and a null key gives the header `OAuth null`.
- JSON mapping of entities and the `StatuspageAPI` queries are left out, because they are org.json glue over the network. The exception is the two request-building call sites modelled above.
