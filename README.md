# piradio-io client core in Dafny

This project models the client side of piradio-io, a controller for a radio
that plays internet stations on a RaspberryPi. The model has two modules and
shared wrappers.

- **`RadioApi`** (`RadioApi.dfy`) models `RadioService`. The service keeps one
  mutable base URL, and each remote operation turns into a request: an HTTP
  method, a path and an optional body. `Route` is the server's routing table
  for the REST surface (`GET /stations`, `GET|PUT|DELETE /stations/{id}`,
  `POST /stations`, `GET /status`, `GET /play/{id}`, `GET /stop`). Every
  endpoint function promises that its request reaches exactly its operation
  under the current URL. `RouteDetermines` proves that `Route` is one-to-one:
  two requests reaching the same operation agree on method, path and body.
- **`Home`** (`Home.dfy`) models `HomePage`. It is a class that holds the
  station list (`None` until the first load), the playback status, every
  subscription taken so far and the error flag. Each asynchronous callback is
  one atomic method, and the network result is its `Response` parameter.
  Stations are objects (`Station`). This matters because delete finds the
  station by identity (`indexOf`) and a saved edit writes into the very object
  that was edited. `Subscription` objects carry a `closed` flag. Reconfiguring
  closes every subscription held and then appends two new ones. The list itself
  is never cleared, so only the last two entries can be open (`OneLiveSession`).
- `Wrappers.dfy` holds `Option` and `Response`.

JavaScript semantics that the model makes explicit:
- `if (station._id)` and `if (url)` are false both for a missing string and for
  the empty string (`Truthy`).
- A missing id inside a template literal becomes the text `"undefined"`
  (`IdText`), so a delete or update of a station without an id goes to
  `/stations/undefined`.
- `===` on two missing ids is true, so `isPlaying` holds for a station without
  an id when the selected station has no id either.
- `this.stations.push` and `this.stations.indexOf` throw when no list has been
  loaded yet. The model has the success handler leave everything unchanged in
  that case: the server did create or delete the station, but the page does
  not show it.

The rxjs behaviour the callbacks depend on is modelled as guards.
- A closed subscription delivers nothing.
- The station-list request is one-shot, so its subscription is finished after
  it delivers.
- An error from `getStatus` inside `switchMap` ends the whole status poll, so
  after one failed status fetch the page stops polling until it is reconfigured.

Three further points about what the code does:
- Reconfiguring does not clear the station list or the status. They stay as
  they were until the new session delivers.
- Create appends the station the server returns. Update writes the copy's name
  and url into the edited object, and delete splices the object out. Both act as
  soon as the success reply arrives, without reading its body.
- `getStatus` is declared to return a station (`radio.service.ts:34`), but
  `home.ts` reads the result as `{selectedStation?, isPlaying}`. The model uses
  the second shape (`Status`).

## Model

| member | source | states |
|---|---|---|
| `RadioApi.RadioService.constructor` | src/services/radio.service.ts:14 | the base URL starts as `http://localhost:3000` |
| `RadioApi.RadioService.SetUrl` | src/services/radio.service.ts:18-20 | the base URL becomes the given one; every endpoint function reads `url`, so all later requests are built from it |
| `RadioApi.RadioService.GetStations` | src/services/radio.service.ts:22-24 | the request reaches the list operation (GET `url + "/stations"`, no body) under the current URL, and the reply is the station list |
| `RadioApi.RadioService.GetStation` | src/services/radio.service.ts:26-28 | the request reaches the fetch of station `id` (GET `url + "/stations/" + id`) |
| `RadioApi.RadioService.UpdateStation` | src/services/radio.service.ts:30-32 | the request reaches the update of station `id` with the given station as body (PUT `url + "/stations/" + id`) |
| `RadioApi.RadioService.GetStatus` | src/services/radio.service.ts:34-36 | the request reaches the status operation (GET `url + "/status"`) |
| `RadioApi.RadioService.CreateStation` | src/services/radio.service.ts:38-40 | the request reaches create with the given station as body (POST `url + "/stations"`) |
| `RadioApi.RadioService.Play` | src/services/radio.service.ts:42-44 | the request reaches play of `id` (GET `url + "/play/" + id`), and the response body is discarded |
| `RadioApi.RadioService.Stop` | src/services/radio.service.ts:46-48 | the request reaches stop (GET `url + "/stop"`), and the response body is discarded |
| `RadioApi.RadioService.DeleteStation` | src/services/radio.service.ts:50-52 | the request reaches the delete of station `id` (DELETE `url + "/stations/" + id`, no body) |
| `RadioApi.RouteDetermines` | src/services/radio.service.ts:22-52 | two requests that reach the same operation have the same method, path and body, so each endpoint's request is fixed by what it reaches |
| `Home.AddressRoundTrip` | src/pages/home/home.ts:193 | the base URL `"http://" + address + ":3000"` gives back its address, so no address is lost |
| `Home.AddressUrlInjective` | src/pages/home/home.ts:37 | two addresses give the same base URL only if they are equal |
| `Home.PromptDefault` | src/pages/home/home.ts:179 | the prompt offers the stored address when it is truthy, otherwise `localhost`; never the empty text |
| `Home.IndexOf` | src/pages/home/home.ts:104 | `indexOf` by identity: -1 exactly when the object is absent, otherwise the position of its first occurrence |
| `Home.RemoveFirstAbsent` | src/pages/home/home.ts:104-105 | deleting a station that is not listed leaves the list unchanged |
| `Home.RemoveFirstPresent` | src/pages/home/home.ts:104-105 | deleting a listed station makes the list one shorter; the old list is the new one with the station put back at its first position, so the other stations keep their order |
| `Home.RemoveFirstMultiset` | src/pages/home/home.ts:104-105 | the delete takes exactly one copy of the station out of the list, or none when it is absent |
| `Home.RemoveFirstGone` | src/pages/home/home.ts:103-105 | in a list without repeated objects, the deleted station is no longer listed |
| `Home.AppendThenRemove` | src/pages/home/home.ts:152-153 | deleting a station right after a create appended it restores the previous list |
| `Home.AtMostOnePlaying` | src/pages/home/home.ts:142-144 | in a list with distinct ids, the page shows at most one station as playing |
| `Home.Subscription.Unsubscribe` | src/pages/home/home.ts:165 | a subscription is closed afterwards, however often it is unsubscribed |
| `Home.HomePage.constructor` | src/pages/home/home.ts:18-21 | no station list, no status, no subscriptions and no error at start |
| `Home.HomePage.OnInit` | src/pages/home/home.ts:34-42 | with a truthy stored address the service is pointed at `"http://" + address + ":3000"`, the list is requested there and two fresh open subscriptions are added, so on a page with no earlier subscriptions only those two are open; otherwise nothing changes and the prompt is offered with `localhost` |
| `Home.HomePage.Subscribe` | src/pages/home/home.ts:53-71 | the error flag is cleared, the station list is requested, and exactly two fresh open subscriptions (the list load, then the status poll) are appended after the old ones |
| `Home.HomePage.Unsubscribe` | src/pages/home/home.ts:164-166 | every subscription held is closed, and the list of subscriptions stays as it was |
| `Home.HomePage.OnDestroy` | src/pages/home/home.ts:160-162 | every subscription held is closed |
| `Home.HomePage.PromptConfirmed` | src/pages/home/home.ts:191-197 | every earlier subscription is closed, the base URL becomes `"http://" + address + ":3000"`, the list is requested from it, the error flag is cleared, and two fresh open subscriptions are appended, so only the last two are open |
| `Home.HomePage.StationsDelivered` | src/pages/home/home.ts:55-60 | through an open subscription, a list replaces the local one and a failure raises the error flag; through a closed one nothing changes; the one-shot load is finished afterwards |
| `Home.HomePage.PollTick` | src/pages/home/home.ts:62-65 | a tick issues the status request exactly when the poll is open and the list is loaded and not empty, and the request reaches the status operation |
| `Home.HomePage.StatusDelivered` | src/pages/home/home.ts:66-70 | a delivered status replaces the local one; a failure changes no page state and ends the poll; nothing arrives through a closed poll |
| `Home.HomePage.ShowError` | src/pages/home/home.ts:44-51 | the error flag is raised and nothing else on the page changes |
| `Home.HomePage.Buttons` | src/pages/home/home.ts:115-144 | `onClick` offers Stop alone exactly for the playing station (`isPlaying`, line 143: there is a status, it is playing, and its selected station's id `===` the station's id, so two missing ids match), and Edit, Play and Delete, in that order, for any other; Stop is offered exactly when playing and Play exactly when not |
| `Home.HomePage.Play` | src/pages/home/home.ts:89-91 | a play request is issued exactly when the station's id is truthy; it reaches play of that id and discards the reply |
| `Home.HomePage.StopRequest` | src/pages/home/home.ts:133 | the Stop button's request reaches the stop operation |
| `Home.HomePage.SaveRequest` | src/pages/home/home.ts:79 | the save reaches the update of the original station's id with the copy as body; a station without an id is updated at `/stations/undefined`, because `radio.service.ts:31` puts the id into a template literal |
| `Home.HomePage.SaveCompleted` | src/pages/home/home.ts:74-84 | on success the edited object's name and url become the copy's and its id stays, so saving a copy taken at the start of the edit (`{name, url, _id}` of the station) and left untouched changes nothing; on failure the error flag is raised and the object is untouched; no other station and no other page state changes |
| `Home.HomePage.CreateRequest` | src/pages/home/home.ts:147-152 | the create reaches the create operation with the draft as body; the draft sent is `{name: '', url: ''}` (no id) as edited in the dialog |
| `Home.HomePage.CreateCompleted` | src/pages/home/home.ts:150-157 | on success the server's station is appended to the loaded list and nothing else changes (with no list loaded nothing changes); on failure the list is unchanged and the error flag is raised |
| `Home.HomePage.DeleteRequest` | src/pages/home/home.ts:103 | the delete reaches the delete of the station's id; a station without an id is deleted at `/stations/undefined`, because `radio.service.ts:51` puts the id into a template literal |
| `Home.HomePage.DeleteCompleted` | src/pages/home/home.ts:102-108 | on success the list becomes `RemoveFirst` of the old list and the station (first occurrence by identity spliced out, or unchanged when absent or not loaded); on failure the list is unchanged and the error flag is raised |

## Left out

- The HTTP transport (HttpClient) is left out. Requests are values, and results arrive as `Response` parameters of the callbacks.
- The `timer(0, 1000)` schedule is left out. The poll is modelled by `PollTick` and `StatusDelivered` alone.
- `switchMap` cancelling an in-flight status request when the next tick comes is left out.
- Concurrency and out-of-order completion are left out. Each callback is one atomic step.
- The socket.io wrappers (`websocket.service.ts`, `piradio-websocket.service.ts`) are left out. They only forward events, and `home.ts` does not use them.
- Volume control and push-confirmed updates are left out. Neither appears in this page.
- Dialogs are presentation and are left out: the alert text of `showError`, the action sheet's icons and handlers, the detail modal, the confirm dialog, the popover menu (`showMenu`) and the prompt's Cancel button. What the user types into the edit and create dialogs, and the address typed into the prompt, are parameters.
- `localStorage` is left out. The stored address is the `stored` parameter of `OnInit`, and the write at `home.ts:196` is not modelled.
- `console.log` of a status error is left out.
- `app.module.ts`, `piradio-api.module.ts`, `menu.ts` and `radio-detail.ts` are wiring or presentation and are not part of this model.
