# Phonebook: a Dafny model

This project models the core of a small phonebook web application. It has two parts:

- **The client's `App` component** (`client/App.jsx`). It holds the list of people, the form drafts, the filter text and a notification slot. Its handlers add, replace and delete entries. Its filtered view `personsToShow` and the `Notification` component are derived from that state.
- **The REST service** (`index.js`). Its routes list, fetch, create, update and delete contact records in a document store. Unmatched requests fall to `unknownEndpoint`, and errors go to `errorHandler`.

Layout:

- `wrappers.dfy` defines `Option`.
- `contacts.dfy` defines the `Person` record `{id, name, number}`.
- `text.dfy` holds ASCII lower-casing and substring search (`includes`).
- `sequences.dfy` holds the generic `findIndex`/`filter`, order-preserving subsequences and duplicate-free sequences.
- `person_list.dfy` holds the client's pure list expressions and the notification choice.
- `client_app.dfy` holds the component state as the class `AppState`. Each handler is a method.
- `server.dfy` holds the store as the class `PersonStore`: a map from id to contact, plus the ids in the store's natural order. The GET-by-id branch, `unknownEndpoint` and `errorHandler` are functions. The mutating routes are methods.
- `scenarios.dfy` holds scenarios proved from the contracts alone: create then fetch for any store, body and fresh id; a refused create; a double delete; a confirmed replace; and an old timer clearing a newer message.

Everything outside the code is a parameter:

- A server reply is a `Reply` argument of the client handler.
- `window.confirm` is a boolean argument.
- The store's schema validators are the function field `validate`.
- The store's id-casting rule is the function field `wellFormed`.
- A new id is a `freshId` argument that must not already be stored.
- A `setTimeout` clear is an entry in `pendingClears` holding its delay. `RunClear(k)` is that callback running.

Source behaviour the model keeps:

- POST answers 200 with the saved record (index.js:90).
- DELETE of an id the store cannot cast is a `CastError`, so it answers 400 (index.js:72, 127-128). Every castable id gets 204.
- PUT looks the record up by `body.id` (index.js:103). The path id is not used.
- No earlier clear is ever cancelled (client/App.jsx:45-47, 52-54), so an old clear can remove a newer message.
- A failed delete sets `isSuccess` to false (client/App.jsx:68) and then throws at client/App.jsx:69, because `person` is undefined in `deletePerson`. No message is shown and no clear is scheduled.

## Model

| member | source | states |
|---|---|---|
| Text.LowerChar | client/App.jsx:95 | ASCII `toLowerCase` of one character: upper-case letters move to lower case, everything else is kept, and the result is never an upper-case letter |
| Text.Lower | client/App.jsx:95 | `toLowerCase` keeps the length and lower-cases each position |
| Text.Contains | client/App.jsx:95 | `includes`: true for the empty needle, false for a needle longer than the haystack; `ContainsIff` states it is substring search |
| Text.ContainsIff | client/App.jsx:95 | `includes` holds exactly when the needle occurs at some position of the haystack |
| Text.ContainsInfix | index.js:64 | a string placed between two others is found in the result |
| Text.LowerIdempotent | client/App.jsx:95 | lower-casing twice is lower-casing once |
| Sequences.FirstIndex | client/App.jsx:22 | `find`: the result is the first position that satisfies the predicate, and there is none exactly when no position does |
| Sequences.Filter | client/App.jsx:64 | `filter`: the result is exactly the kept elements, each as often as in the input, in input order |
| Sequences.FilterKeepsAll | client/App.jsx:64 | filtering with a predicate every element passes returns the input unchanged |
| Sequences.FilterCongruent | client/App.jsx:95 | two predicates that agree on the elements filter alike |
| Sequences.DistinctCardinality | index.js:49 | a duplicate-free sequence has as many distinct elements as positions, which makes the count of listed records the number of stored ones |
| PersonList.IndexOfName | client/App.jsx:22 | finds the first entry whose name equals the draft name exactly; none exactly when no entry has that name |
| PersonList.IndexOfId | client/App.jsx:60 | finds the first entry with the given id; none exactly when no entry has it |
| PersonList.ReplaceById | client/App.jsx:28 | the length and every position's id are kept; entries with the returned id become the returned record; all others stay in place; nothing changes when no entry has that id |
| PersonList.ReplaceByIdIdempotent | client/App.jsx:28 | applying the same update twice equals applying it once |
| PersonList.RemoveById | client/App.jsx:64 | no entry with the id is left; every other entry is kept as often as before and in order; nothing changes when no entry has the id |
| PersonList.PersonsToShow | client/App.jsx:93-95 | an empty filter shows the list unchanged; otherwise the result is the order-preserving subsequence of exactly the entries whose lower-cased name contains the lower-cased filter, with their multiplicities |
| PersonList.Matches | client/App.jsx:95 | the filter callback, `name.toLowerCase().includes(filter.toLowerCase())`: every name matches the empty filter, and no name shorter than the filter matches; `MatchesIff` states it as an occurrence at some position |
| PersonList.MatchesIff | client/App.jsx:95 | an entry matches when the lower-cased filter occurs somewhere in its lower-cased name |
| PersonList.PersonsToShowIgnoresFilterCase | client/App.jsx:95 | the view is the same for the filter text and its lower-cased form |
| PersonList.AnaMatchesAnaGarcia | client/App.jsx:95 | the filter "ana" selects the name "Ana García" |
| PersonList.NotificationView | client/App.jsx:151-160 | nothing is rendered exactly when there is no message; otherwise the message is shown with class "success" exactly when `isSuccess` and "error" otherwise |
| PhonebookClient.AddedMessage | client/App.jsx:44 | the success text: "Added " followed by exactly the returned name |
| PhonebookClient.AppState.constructor | client/App.jsx:6-11 | empty list, empty drafts and filter, no message, `isSuccess` false, no pending clear |
| PhonebookClient.AppState.Load | client/App.jsx:13-17 | the fetched list replaces `persons`; nothing else changes |
| PhonebookClient.AppState.SetNewName | client/App.jsx:78-81 | the name draft becomes the input value |
| PhonebookClient.AppState.SetNewNumber | client/App.jsx:83-86 | the number draft becomes the input value |
| PhonebookClient.AppState.SetNewFilter | client/App.jsx:88-91 | the filter text becomes the input value |
| PhonebookClient.AppState.AddPerson | client/App.jsx:19-57 | for a listed name: an update carrying the existing id and name with the new number is sent only after confirmation; a successful reply replaces by the returned id; a decline or a failure changes nothing, and no notification is touched. For a new name: a create of the drafts is sent; success appends the returned record, sets `isSuccess`, shows "Added <name>" and schedules a 5000 ms clear; failure keeps the list, clears `isSuccess`, shows the server's error and schedules a 15000 ms clear |
| PhonebookClient.AppState.DeletePerson | client/App.jsx:59-76 | an unlisted id or a declined prompt changes nothing; else a delete of that id is sent; success removes every entry with the id, keeping the rest in order; failure only sets `isSuccess` to false; the message and the pending clears never change |
| PhonebookClient.AppState.RunClear | client/App.jsx:45-54 | any pending clear, old or new, removes the message showing now; it leaves the list and `isSuccess` alone, and only that clear leaves the queue |
| PhonebookServer.MissingIdText | index.js:64 | the GET 404 text "Infomation of <id> has already been removed from server"; it is proved to contain the requested id |
| PhonebookServer.MissingNameText | index.js:111 | the PUT 404 text "Infomation of <name> has already been removed from server, please refresh the page"; it is proved to contain `body.name` |
| PhonebookServer.UnknownEndpoint | index.js:118-122 | 404 with `{error: 'unknown endpoint'}` |
| PhonebookServer.ErrorHandler | index.js:124-134 | an error named CastError gives 400 `{error: 'malformatted id'}`; one named ValidationError gives 400 `{error: message}`; it answers exactly these two and passes every other error on |
| PhonebookServer.Finish | index.js:122-136 | a route's sent response stands; an error it passes on is answered with 400 exactly when `errorHandler` recognises it, and is left unhandled otherwise |
| PhonebookServer.PersonStore.constructor | index.js:6 | an empty store using the given validators and id rule, with its invariant established |
| PhonebookServer.PersonStore.FindAll | index.js:36-38 | `Person.find({})` returns one record per stored id, in the store's order, and exactly the stored records |
| PhonebookServer.PersonStore.ListAll | index.js:35-41 | 200 with a list as long as the store, holding exactly the stored records |
| PhonebookServer.PersonStore.Info | index.js:43-53 | 200 with a page whose count is the number of stored records |
| PhonebookServer.PersonStore.GetById | index.js:55-69 | a stored id gives 200 with its record; an absent well-formed id gives 404 with a message naming it; an id the store cannot cast is a CastError |
| PhonebookServer.PersonStore.Without | index.js:72 | removing an id from the store's order drops exactly that id and keeps the rest in order |
| PhonebookServer.PersonStore.Delete | index.js:71-77 | for a well-formed id: 204 whether or not it was stored; afterwards it is absent and every other record and its order are unchanged. An uncastable id is a CastError and changes nothing |
| PhonebookServer.PersonStore.Create | index.js:79-93 | an accepted body is stored under the fresh id and returned with 200; a refused body is a ValidationError with the validator's message and changes nothing; the invariant (ids unique, stored records valid) is preserved |
| PhonebookServer.PersonStore.Update | index.js:95-116 | lookup is by `body.id`, never the path id. Order: cast error, then validation error, then either 200 with the record whose name and number were replaced, or 404 naming `body.name` with the store unchanged; the store's order never changes |
| Scenarios.ServerCreateThenGet | index.js:55-93 | for any store, accepted body and fresh id: POST answers 200 with the body under the fresh id, a following GET by that id answers the same, and LIST holds the record |
| PhonebookServer.PersonStore.Handle | index.js:35-136 | every request in the model is answered with 200, 204, 400 or 404; an unmatched one gets the unknown-endpoint response; GET by id passes through `errorHandler`; read-only routes leave the store unchanged; the invariant is preserved |

## Left out

- React rendering: the `Fliter`, `PersonForm` and `Persons` components and the page markup are not modelled, apart from `Notification`'s choice. `preventDefault`, `console.log` and `console.error` are not modelled either.
- HTTP calls through axios and `personService`: each call's outcome is a parameter (`Reply` for create and update, a boolean for delete).
- `window.confirm`: a boolean parameter. The prompt text is not modelled.
- Timer timing: there is no clock. A scheduled clear records only its delay, and `RunClear` lets any pending clear run.
- Asynchrony: each handler and the response it awaits form one atomic step. The `persons` value a handler captured is therefore always the current one. Races between requests in flight are not modelled.
- The delete-failure message at `client/App.jsx:69` is never produced. That line refers to an undefined `person` and throws. Only the preceding `setIsSuccess(false)` is modelled.
- A create that fails without a server response (a network error) is not modelled. Reading `error.response.data.error` would throw after `setIsSuccess(false)`. The model assumes the server answered with an error body.
- `toLowerCase` is ASCII-only. Letters outside A-Z keep their case.
- `models/person` (schema, validators, the id type and its JSON transform) is not part of this model. The validators are `validate`, id casting is `wellFormed`, and id generation is the `freshId` argument.
- Store faults other than `CastError` and `ValidationError` (an unavailable store, answered with 500 by Express's default handler) are never raised by the modelled routes. `ErrorHandler` and `Finish` still pass such errors on.
- The `/info` page text and its wall-clock `Date` string are not modelled; only the count is.
- Express plumbing is not modelled: `cors`, `express.json`, `express.static`, morgan logging, `/health`, `dotenv` and `app.listen`. `Request` stands for the routes above, with `Unmatched` for every other request.
- PUT bodies with missing fields are not modelled; every update body carries `id`, `name` and `number`.
- The store's natural order for LIST is modelled as insertion order.
- PhonebookServer.PersonStore.Handle: states the facts common to all routes plus the GET-by-id and unmatched results. The outcomes of the mutating routes are stated on `Delete`, `Create` and `Update`, which it calls.
