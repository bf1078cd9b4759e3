# Lab index tracker — a verified model of the service registry

The lab index tracker keeps a registry of services, each with a list of
monitored URLs, and checks on demand whether a URL answers. This project
models, in Dafny, the logic of:

- the Deno server (`server/main.ts`): the registry of `Service { id, name, urls }`
  and `ServiceUrl { id, url, status?, lastPing? }` records, held in one store
  that every route loads whole and writes back whole, and the six routes
  (list, create, delete service, add URL, delete URL, ping);
- the web client's data logic: how a status string is shown
  (`ServicesTable.tsx`), how the component state follows each API call
  (`App.tsx`), and the add-service form's field list and submit guard
  (`AddServiceForm.tsx`);
- the earlier Flask version (`src/main.py`): input validation with quote
  doubling, the create checks, the refresh loop with its counters, and delete.

Files and modules:

| file | module | models |
|---|---|---|
| `util.dfy` | `Util` | `Option`, `Result`, `filter`, `find`, `startsWith`, `includes` |
| `registry.dfy` | `Registry` | the server: `Store` class with `stored: Option<seq<Service>>` and one method per route |
| `services_table.dfy` | `ServicesTable` | `getStatusDisplay`, `getServiceUrls` |
| `app_state.dfy` | `App` | `AppState` class: `services`, `error`, `loading` and the four handlers |
| `add_service_form.dfy` | `AddServiceForm` | `Form` class: `isExpanded`, `name`, `urls` and its handlers |
| `legacy.dfy` | `Legacy` | the Flask app: `validate_and_sterilize`, `home`'s create branch, `ServiceDb` class with create, refresh and delete |

How the outside world enters the model:

- The store file is the field `Store.stored`: None while the file does not
  exist, otherwise the parsed list. A failed route leaves it untouched; a
  successful one assigns the whole new list.
- `crypto.randomUUID()` values are parameters, with a precondition that they
  are not already in use. With that, every route keeps service ids distinct
  and URL ids distinct across the whole registry (`old(IdsUnique(Loaded())) ==> IdsUnique(Loaded())`).
- `new Date().toISOString()` values are opaque string parameters. Ping reads
  the clock up to three times: before the fetch (`timeNow`), in the catch
  block (`timeCaught`) and for `lastPing` (`timeAfter`). They are three
  separate readings in the code, so `lastPing` is not the timestamp inside
  `status`.
- `fetch` is a `FetchOutcome` parameter: `Ok`, `NotOk` or `Throws`. In the
  Flask refresh, `requests.get` is a `Probe` per row (`Responded(code)` or
  `Raised(message)`), and `datetime.now()` is a time string per row.
- In the client, each API call's outcome is an `ApiResult` parameter
  (`Fetched(value)` or `Failed`).

Observations about the code, modelled as written:

- Create accepts an empty `urls` array; it only rejects a falsy `name` or a
  `urls` that is missing or not an array.
- Add-URL, delete-URL and ping act on the first service with the given id
  (`find`), while delete-service removes every service with the id (`filter`).
- In the Flask create, `srv_type` is always `"http"`: `"https://..."` also
  starts with `"http"`, so the `"https"` branch cannot be reached
  (`Legacy.ServiceTypeAlwaysHttp`).
- The length error of `validate_and_sterilize` says "40 characters" also
  when the limit is 256 (the URL). The length limit applies to the input
  before the quotes are doubled, so a stored name can be longer than 40.
- A refresh that gets a non-200 response sets "Not Running" but leaves the
  previous `error` in place and counts toward neither counter.

## Model

| member | source | states |
|---|---|---|
| `Registry.LoadServices` | server/main.ts:22-28 | an absent store reads as the empty list; otherwise the stored list as it is |
| `Registry.Store.List` | server/main.ts:72-75 | answers 200 with the loaded list and writes nothing |
| `Registry.Store.Create` | server/main.ts:78-104 | 400 and no write when `name` is absent or empty or `urls` is not an array (an empty array is accepted); otherwise the store becomes the old list plus one service at the end, whose entries follow the input URLs in order, each with a new id, status "UNKNOWN" and no `lastPing`; answers 201 with that service; ids stay unique |
| `Registry.Store.DeleteService` | server/main.ts:107-120 | 404 and no write when no service has the id; otherwise the store becomes the filtered list (every service with the id removed, the rest in order) and answers 204; ids stay unique |
| `Registry.Store.AddUrl` | server/main.ts:123-153 | 400 and no write without a `url`; 404 and no write when the service is missing; otherwise one "UNKNOWN" entry is appended to the first service with the id only, and the new entry is returned |
| `Registry.Store.DeleteUrl` | server/main.ts:156-178 | 404 and no write when the service is missing or has no entry with the url id; otherwise only that service's matching entries are removed and it answers 204 |
| `Registry.Store.Ping` | server/main.ts:181-217 | 404 and no write for an unknown service or url id; otherwise the one targeted entry gets status "ALIVE@"+timeNow on an ok response, "DEAD@"+timeNow on a non-ok one, "DEAD@"+timeCaught when fetch throws, and `lastPing` timeAfter; its id and url, all other entries and all other services are unchanged; the response is the whole parent service |
| `Registry.DeleteFindsNothingIffAbsent` | server/main.ts:110-116 | the filtered list has the old length exactly when no service has the id, and is then the old list |
| `Registry.DeleteUrlFindsNothingIffAbsent` | server/main.ts:167-174 | the filtered URL list has the old length exactly when no entry has the url id |
| `Registry.AppendKeepsIdsUnique` | server/main.ts:88-99 | appending a service with new ids keeps service ids and URL ids unique |
| `Registry.DeleteKeepsIdsUnique` | server/main.ts:110-118 | removing services keeps ids unique |
| `Registry.AddUrlKeepsIdsUnique` | server/main.ts:142-150 | appending an entry with a new id to one service keeps ids unique |
| `Registry.ShrinkUrlsKeepsIdsUnique` | server/main.ts:167-176 | replacing one service's entries by entries with no new ids (delete-URL, ping) keeps ids unique |
| `Util.Filter` | server/main.ts:110 | the result keeps exactly the elements that pass, and is no longer than the input |
| `Util.FilterAppend` | server/main.ts:110 | filtering distributes over concatenation, so the kept elements stay in order |
| `Util.FilterUnchangedIffAllKept` | server/main.ts:112 | the length is unchanged exactly when every element passes, and then the list is unchanged |
| `Util.FirstIndex` | server/main.ts:134 | the index found holds the first element that matches; None exactly when none matches |
| `ServicesTable.GetStatusDisplay` | client/src/components/ServicesTable.tsx:17-24 | online exactly when the status contains "ALIVE"; offline exactly when it contains "DEAD" but not "ALIVE"; otherwise unknown; a missing or empty status has empty original text, any other status is its own original text |
| `ServicesTable.GetServiceUrls` | client/src/components/ServicesTable.tsx:27-33 | an array is returned unchanged; anything else gives the empty list |
| `ServicesTable.DeadEncodingLacksAlive` | client/src/components/ServicesTable.tsx:19-22 | "DEAD@" followed by an ISO timestamp never contains "ALIVE", so it cannot be shown as online |
| `ServicesTable.DecodesServerStatus` | client/src/components/ServicesTable.tsx:17-24 | every status the server writes decodes as meant: "UNKNOWN" as unknown, a ping status as online exactly when the fetch was ok and as offline otherwise, with the status as its original text |
| `App.AppState.constructor` | client/src/App.tsx:9-11 | no services, no error, loading |
| `App.AppState.FetchServices` | client/src/App.tsx:17-28 | success sets the services and clears the error; failure sets "Failed to fetch services" and keeps the services; loading ends in both cases |
| `App.AppState.HandleAddService` | client/src/App.tsx:30-45 | success appends the returned service at the end and clears the error; failure sets its message and keeps the services |
| `App.AppState.HandleDeleteService` | client/src/App.tsx:47-56 | success removes every service with the id, keeps the rest in order, clears the error; failure sets its message and keeps the services |
| `App.AppState.HandlePingService` | client/src/App.tsx:58-72 | success replaces each service with that id by the returned one, keeping length and all others; failure sets its message and keeps the services |
| `App.PingMirrorsServer` | client/src/App.tsx:62-66 | with distinct service ids, the client's replace-by-id changes the same single entry the server's ping changed |
| `AddServiceForm.Trim` | client/src/components/AddServiceForm.tsx:15 | `trim()` is empty exactly for a string of whitespace, and otherwise starts and ends with a non-whitespace character |
| `AddServiceForm.GuardedFilterKeepsAll` | client/src/components/AddServiceForm.tsx:15-16 | under the submit guard, filtering out blank URLs removes nothing |
| `AddServiceForm.WithoutIndex` | client/src/components/AddServiceForm.tsx:35 | removes exactly the element at the index, or nothing when the index is not a position |
| `AddServiceForm.Form.constructor` | client/src/components/AddServiceForm.tsx:9-11 | collapsed, empty name, one empty URL field |
| `AddServiceForm.Form.Toggle` | client/src/components/AddServiceForm.tsx:44 | flips `isExpanded` and nothing else |
| `AddServiceForm.Form.SetName` | client/src/components/AddServiceForm.tsx:57 | sets the name and nothing else |
| `AddServiceForm.Form.HandleUrlChange` | client/src/components/AddServiceForm.tsx:23-27 | replaces only the field at the index; the length is kept |
| `AddServiceForm.Form.AddUrlField` | client/src/components/AddServiceForm.tsx:29-31 | appends one empty field and leaves the others |
| `AddServiceForm.Form.RemoveUrlField` | client/src/components/AddServiceForm.tsx:33-38 | removes exactly the field at the index when there is more than one field, otherwise nothing; the list is never empty |
| `AddServiceForm.Form.HandleSubmit` | client/src/components/AddServiceForm.tsx:13-21 | passes the name and URLs on only when the name is non-empty and every URL trims to non-empty, and the URLs passed are the form's own; then resets to "", [""] and collapsed; otherwise changes nothing; whatever it passes is accepted by the server's create guard |
| `Legacy.ValidateAndSterilize` | src/main.py:31-42 | fails on a missing or empty input, on length over the limit, on non-ASCII input, in that order and with those messages; succeeds otherwise with the quotes doubled |
| `Legacy.SterilizeLength` | src/main.py:40 | the output is longer than the input by the number of quotes |
| `Legacy.UnsterilizeSterilize` | src/main.py:40-42 | reading each "''" back as one quote recovers the input |
| `Legacy.SterilizeKeepsPrefix` | src/main.py:79 | doubling quotes does not change whether a string starts with "http://" or "https://" |
| `Legacy.ServiceTypeAlwaysHttp` | src/main.py:82-85 | every URL that passes the scheme check gets type "http" |
| `Legacy.NewRow` | src/main.py:74-87 | a row is created exactly when the name (at most 40) and the URL (at most 256) validate and the URL starts with "http://" or "https://"; it holds the sterilized name and URL, "Not Checked", error "None", no online-since time and type "http"; otherwise the first failing check's error |
| `Legacy.Refreshed` | src/main.py:51-63 | a 200 response gives "Running", anything else "Not Running"; online-since changes only when the row turns Running from another status, and then to the current time; an exception records its message as the error; nothing else changes |
| `Legacy.CountsBounded` | src/main.py:48-63 | online count plus offline count is at most the number of services |
| `Legacy.RemoveAtIsWithoutRow` | src/main.py:98-101 | with distinct ids, deleting the row found by key removes that row only |
| `Legacy.ServiceDb.Create` | src/main.py:74-89 | a created row is appended; a raised error adds nothing; keys stay distinct |
| `Legacy.ServiceDb.Delete` | src/main.py:96-102 | an unknown id changes nothing; a known id removes exactly one row, the one with that id |
| `Legacy.ServiceDb.Refresh` | src/main.py:45-66 | every row becomes its refreshed version in place, the counters are the number of 200 responses and of exceptions, and their sum is at most the number of rows |

## Left out

- HTTP plumbing: the Oak application, CORS middleware, static-file serving, `app.listen`, Flask routing, `render_template`, redirects and the HTML the refresh returns.
- File I/O and JSON: the store is an in-memory value; a document that does not parse is not modelled, as the code has no handling for it. Request bodies are modelled as already-parsed values; a `name` or URL that is a non-string JSON value is not modelled.
- A failed write of the store file is not modelled.
- The race between concurrent requests: each route is one atomic step, so the lost update of two overlapping load–save cycles is not modelled.
- The ordering of timestamps: clock readings are opaque strings, so "a later ping never has an earlier `lastPing`" is not stated.
- `console.log`, `console.warn`, `console.error` and `window.confirm`; all rendering.
- `client/src/services/api.ts` (fetch wrappers) and `client/src/types/Service.ts` (an unused type): only their outcomes enter, as `ApiResult`.
- The WTForms validators of `ServiceForm` are declared but never run by `home`, and SQLAlchemy's session and column widths are not modelled; the database is a sequence of rows.
- `AddServiceForm.Form.HandleUrlChange`: requires the index to be a position of the list, as the rendered fields always give one; an index past the end, which would grow the array with holes, is not modelled.
- The client's handlers read `services` from the render they were created in; that staleness is not modelled, each handler acts on the current state.
