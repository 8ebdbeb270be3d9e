# OpenPanel Swift SDK — event dispatch core in Dafny

This project models the event-dispatch core of the OpenPanel analytics SDK for Swift. It has three parts:

- **Dispatcher** (`openpanel.dfy`, module `Dispatcher`): the `OpenPanel` actor as a class with the fields
  `profileId`, `global`, `queue` and `options`. `sent` is an outbox that records, in order, every payload
  handed to the delivery client. `_send` makes a fixed sequence of checks: not initialised → drop,
  `disabled == true` → drop, filter refuses → drop, `waitForProfile == true` with no profile → queue,
  otherwise deliver with the profile id back-filled into track payloads. The functions `RouteOf`, `HeldOf`
  and `DeliveredOf` state this decision for a single payload and for a whole sequence. The class methods
  are proved against them, and lemmas about those functions give the drop, queue and flush guarantees.
- **Payload envelope codec** (`payloads.dfy`, module `Payloads`): the five-variant `TrackHandlerPayload`,
  encoded as `{type, payload}` over an abstract JSON value (`json.dfy`). Decoding dispatches on the
  `type` string and rejects unknown tags. It is proved to round-trip for every variant and every
  combination of absent optional fields.
- **Delivery client** (`api.dfy`, module `ApiClient`): the `API` actor as a class with `baseUrl`,
  `headers`, `maxRetries` and `initialRetryDelayMs`. `Post` gives each request the headers
  `Overlay(headers, options)`: the stored headers overlaid by the per-call options. The method
  `RequestHeaders` runs the source's key-by-key `setValue` loop and is proved to produce exactly that
  overlay. `post` is a recursive function over a scripted network
  `net: nat -> Outcome`, one outcome per attempt. It returns the verdict, every request issued and
  every back-off delay slept, in whole milliseconds. `fetch` is `post` behind a URL guard. URL validity is
  a parameter `validUrl: string -> bool`.

`scenarios.dfy` drives fresh dispatcher instances through sequences of public calls: waiting for a
profile and then identifying, `ready`, accumulating globals, per-call precedence, `disabled`, a
filter, and `clear` keeping the queue. Each scenario proves what reaches the outbox.

`maps.dfy` holds `Overlay`, the one dictionary merge the source uses everywhere. The source writes it as
`merge { _, new in new }` or as a loop of key assignments. `wrappers.dfy` holds `Option` and `Result`.

Three behaviours of the code that the model keeps as written:

- `post` re-reads the actor's current `headers` on every retry attempt: each recursive call rebuilds
  the request at `Sources/Internal/API.swift:33-35`. `Post` reads `headers` on each attempt too. In this
  sequential model, headers cannot change during a call.
- `_identify` merges the global properties into the identify payload only when `global` is non-nil;
  otherwise it sends the payload as given (`Sources/OpenPanel.swift:162-168`). `IdentifyWithGlobal`
  states both cases.
- `_initialize` passes no `maxRetries` or `initialRetryDelay` to `updateConfig`
  (`Sources/OpenPanel.swift:113-116`), so after initialisation 3 retries and 500 ms always apply.
  `OpenPanel.Initialize` states this.

## Model

| member | source | states |
|---|---|---|
| `Maps.Overlay` | Sources/OpenPanel.swift:144-147 | merging `top` into `base`: keys of both; a shared key takes `top`'s value; other keys of `base` keep theirs |
| `Payloads.Encode` | Sources/Payloads.swift:16-35 | the envelope has exactly the keys `type` and `payload`; `type` is the variant's tag, one of the five known tags |
| `Payloads.Tag` | Sources/Payloads.swift:19-33 | the discriminator written for each variant is one of the five known tags |
| `Payloads.EncodeTrack` | Sources/Payloads.swift:57-67 | the track object always has `name`; it has `properties` and `profileId` exactly when they are set; no other key |
| `Payloads.DecodeTrack` | Sources/Payloads.swift:57-67 | a missing `name` fails with key-not-found; a decoded struct takes its name and any present profile id from the fields |
| `Payloads.EncodeIdentify` | Sources/Payloads.swift:69-85 | the identify object always has `profileId`; each optional key is present exactly when its field is set; no other key |
| `Payloads.DecodeIdentify` | Sources/Payloads.swift:69-85 | a missing `profileId` fails with key-not-found; the profile id and every present personal field of a decoded struct come from the fields |
| `Payloads.EncodeAlias` | Sources/Payloads.swift:87-95 | the alias object has exactly `profileId` and `alias`, with the struct's values |
| `Payloads.DecodeAlias` | Sources/Payloads.swift:87-95 | decoding succeeds exactly when both keys hold strings, and then yields them; a missing key fails with key-not-found |
| `Payloads.EncodeCounter` | Sources/Payloads.swift:97-119 | increment and decrement objects always have `profileId` and `property`; `value` is present exactly when set |
| `Payloads.DecodeIncrement` | Sources/Payloads.swift:97-107 | a missing `profileId` fails with key-not-found; a decoded struct takes profile id, property and any present value from the fields |
| `Payloads.DecodeDecrement` | Sources/Payloads.swift:109-119 | a missing `profileId` fails with key-not-found; a decoded struct takes profile id, property and any present value from the fields |
| `Payloads.Decode` | Sources/Payloads.swift:37-54 | a non-object, a missing `type`, an unknown tag, or a known tag without `payload` each fail with their own error; a success always comes from an envelope whose `type` is the tag of the decoded variant |
| `Payloads.DecodeNeedsTaggedPayload` | Sources/Payloads.swift:38-50 | with a known tag, decoding succeeds only if `payload` is an object that decodes as the struct that tag names, and the result is that struct in that variant |
| `Payloads.TagInjective` | Sources/Payloads.swift:19-33 | two payloads get the same tag exactly when they are the same variant, so the tag-to-variant mapping is injective |
| `Payloads.DecodeFollowsTag` | Sources/Payloads.swift:40-50 | an envelope carrying the tag of `p` can only decode to `p`'s variant |
| `Payloads.TrackRoundTrip` | Sources/Payloads.swift:57-67 | a track payload's fields decode back to the same struct, with or without properties and profile id |
| `Payloads.IdentifyRoundTrip` | Sources/Payloads.swift:69-85 | an identify payload's fields decode back to the same struct for every combination of absent optional fields |
| `Payloads.IdentifyFieldsRoundTrip` | Sources/Payloads.swift:69-85 | each field of an encoded identify payload reads back as the value it was written from |
| `Payloads.TrackEnvelopeRoundTrip` | Sources/Payloads.swift:19-21 | a `.track` envelope decodes to the same `.track` payload |
| `Payloads.IdentifyEnvelopeRoundTrip` | Sources/Payloads.swift:31-33 | an `.identify` envelope decodes to the same `.identify` payload |
| `Payloads.CounterEnvelopeRoundTrip` | Sources/Payloads.swift:87-119 | alias, increment and decrement envelopes decode to the same payload, with or without a counter value |
| `Payloads.RoundTrip` | Sources/Payloads.swift:16-54 | `decode(encode(p)) == p` for every variant |
| `ApiClient.ConfiguredHeaders` | Sources/Internal/API.swift:18-19 | the stored headers are the given defaults (or none) plus `Content-Type: application/json`, which overrides any default of that name |
| `ApiClient.Api.constructor` | Sources/Internal/API.swift:16-22 | base URL as given; headers as above; `maxRetries` defaults to 3; the initial delay defaults to 500 ms |
| `ApiClient.Api.UpdateConfig` | Sources/Internal/API.swift:24-30 | replaces every setting with the same defaults as `init` |
| `ApiClient.Api.RequestHeaders` | Sources/Internal/API.swift:43-45 | the key-by-key `setValue` loop leaves the stored headers overlaid by the per-call options: an option overrides a header of the same name, and other headers are unchanged |
| `ApiClient.Api.Post` | Sources/Internal/API.swift:32-67 | an encoding failure makes no request; otherwise between 1 and max(maxRetries - attempt, 0) + 1 requests, all with the same URL, headers and body; one delay fewer than requests; the delays are `initialRetryDelay * 2^n` from `attempt` on, each after a transport error |
| `ApiClient.Api.Fetch` | Sources/Internal/API.swift:69-74 | an invalid `baseUrl + path` fails with no request; otherwise at most max(maxRetries, 0) + 1 requests to that URL; delay i is d·2^i and follows a transport error |
| `ApiClient.Final` | Sources/Internal/API.swift:50-65 | success exactly for a 2xx response, carrying its body; a non-HTTP response, a non-2xx status (with its code) and a final transport error each fail with their own error |
| `ApiClient.Api.RetriesLeft` | Sources/Internal/API.swift:60 | a retry remains exactly when `attempt < maxRetries`, and then attempt plus the retries left is `maxRetries` |
| `ApiClient.Backoff` | Sources/Internal/API.swift:61 | one delay per retry; the first is d·2^from |
| `ApiClient.BackoffAt` | Sources/Internal/API.swift:61 | the i-th delay of the schedule starting at attempt `from` is d·2^(from+i) |
| `ApiClient.PostResult` | Sources/Internal/API.swift:50-65 | the result is the verdict on the last attempt; that attempt was a transport error only if every retry was used |
| `ApiClient.FetchDelayAt` | Sources/Internal/API.swift:60-63 | the delay after the i-th failed attempt of a fetch is `initialRetryDelay * 2^i`, and that attempt threw a transport error |
| `ApiClient.PostSucceedsAfter` | Sources/Internal/API.swift:58-63 | transport errors from attempt a up to attempt k ≤ maxRetries, then a 2xx: success with that body after exactly k - a + 1 requests |
| `ApiClient.TransientErrorsThenSuccess` | Sources/Internal/API.swift:58-63 | k ≤ maxRetries transport errors, then a 2xx: success after k + 1 requests, with delays d·1, d·2, …, d·2^(k-1) |
| `ApiClient.AlwaysFailingNetwork` | Sources/Internal/API.swift:59-65 | a network that always throws: max(maxRetries, 0) + 1 requests, the full back-off schedule, then a transport failure |
| `ApiClient.ThreeRetriesThenGiveUp` | Sources/Internal/API.swift:20-21 | with the defaults: 4 requests, delays of 500, 1000 and 2000 ms, then a transport failure |
| `ApiClient.FirstAnswerIsFinal` | Sources/Internal/API.swift:50-58 | a non-HTTP response or any status on the first attempt ends the call: one request, no delay, and the verdict on that answer (a 2xx gives success with the body) |
| `ApiClient.HttpErrorIsFinal` | Sources/Internal/API.swift:54-56 | a status outside 200...299 fails at once, carrying that status code, after one request |
| `Dispatcher.EnsureProfileId` | Sources/OpenPanel.swift:202-212 | a track payload without a profile id takes the current one; a track payload with one keeps it; every other variant is unchanged |
| `Dispatcher.RouteOf` | Sources/OpenPanel.swift:178-200 | the checks in source order: no options → not initialised; else `disabled == true` → dropped; else filter refuses → dropped; else waiting with no profile → held; else delivered back-filled |
| `Dispatcher.HasPersonalData` | Sources/OpenPanel.swift:160 | an identify payload has no personal data exactly when it is only a profile id, with properties absent or empty |
| `Dispatcher.HeldOf` | Sources/OpenPanel.swift:188-191 | the payloads the decision queues are a sub-collection of the submitted ones |
| `Dispatcher.DeliveredOf` | Sources/OpenPanel.swift:193-199 | each submitted payload is queued, sent or dropped, never more than one of these |
| `Dispatcher.BackFilled` | Sources/OpenPanel.swift:194 | every payload of a sequence back-filled, position by position |
| `Dispatcher.SingleSend` | Sources/OpenPanel.swift:178-200 | for one payload: queued exactly when the decision holds it, sent (back-filled) exactly when it delivers it |
| `Dispatcher.SendStep` | Sources/OpenPanel.swift:89-91 | resubmitting one more snapshot item extends the queue and the outbox by what the decision does with that item |
| `Dispatcher.NothingLeavesUninitialized` | Sources/OpenPanel.swift:179-182 | with no options, nothing is queued and nothing is sent |
| `Dispatcher.NothingLeavesWhenDisabled` | Sources/OpenPanel.swift:184 | with `disabled == true`, nothing is queued or sent, whatever the filter and the wait setting |
| `Dispatcher.FilteredIsDropped` | Sources/OpenPanel.swift:186 | a payload the filter refuses is neither queued nor sent |
| `Dispatcher.HeldWhileWaiting` | Sources/OpenPanel.swift:188-191 | waiting with no profile: exactly the accepted payloads are queued, in order, and nothing is sent |
| `Dispatcher.DeliveredWhileOpen` | Sources/OpenPanel.swift:193-199 | gate open: nothing is queued, and exactly the accepted payloads are sent, in order, back-filled |
| `Dispatcher.NothingHeldWhenGateOpen` | Sources/OpenPanel.swift:188 | once a profile is known or waiting is off, the decision never queues |
| `Dispatcher.FlushDeliversEverything` | Sources/OpenPanel.swift:86-92 | gate open, not disabled, nothing filtered: the flushed items all go out in their original order and none stays queued |
| `Dispatcher.BackFillSettles` | Sources/OpenPanel.swift:205-207 | back-filling a second time changes nothing once a profile id was filled in |
| `Dispatcher.TrackPayloadFor` | Sources/OpenPanel.swift:143-153 | properties are never nil: the globals (or none) overlaid by the per-call ones; the profile id is the per-call `"profileId"` if present, else the current profile |
| `Dispatcher.IdentifyWithGlobal` | Sources/OpenPanel.swift:161-168 | personal fields are unchanged; with globals present, properties become the globals overlaid by the identify's own; without globals, the payload is unchanged |
| `Dispatcher.DefaultHeaders` | Sources/OpenPanel.swift:102-111 | client id, SDK name `swift`, SDK version `0.1.0` and user agent are present; a client-secret header is present exactly when a secret is configured; no other header |
| `Dispatcher.DeviceProperties` | Sources/OpenPanel.swift:118-124 | the device keys are exactly `__brand`, `__device`, `__os`, `__osVersion` and `__model` |
| `Dispatcher.DeviceWrites` | Sources/OpenPanel.swift:119-124 | the five successive assignments equal overlaying the device keys onto the globals |
| `Dispatcher.OpenPanel.constructor` | Sources/OpenPanel.swift:40-42 | no profile, no globals, empty queue, no options; the client points at the default API URL with default settings |
| `Dispatcher.OpenPanel.Send` | Sources/OpenPanel.swift:178-200 | the queue gains what the decision holds and the outbox gains what it delivers; nothing else changes |
| `Dispatcher.OpenPanel.Flush` | Sources/OpenPanel.swift:86-92 | the queue becomes what resubmitting the snapshot re-queues; the outbox gains what the snapshot delivers, in order |
| `Dispatcher.OpenPanel.Initialize` | Sources/OpenPanel.swift:96-125 | options are stored; the client gets the base URL (default if none), the default headers and the default retry settings; the globals gain the five device keys |
| `Dispatcher.OpenPanel.Ready` | Sources/OpenPanel.swift:127-130 | waiting is switched off (when initialised), the queue ends empty and its items are resubmitted |
| `Dispatcher.OpenPanel.SetGlobalProperties` | Sources/OpenPanel.swift:132-141 | with no globals, the map is adopted; otherwise the key-by-key loop leaves old globals overlaid by the map |
| `Dispatcher.OpenPanel.Track` | Sources/OpenPanel.swift:143-154 | the payload built by `TrackPayloadFor` goes through the send decision |
| `Dispatcher.OpenPanel.Identify` | Sources/OpenPanel.swift:156-171 | the profile id is set; the queue is flushed first and ends empty; the identify payload (merged with globals) follows only when it carries personal data |
| `Dispatcher.OpenPanel.Alias` | Sources/OpenPanel.swift:66-68 | the alias payload goes through the send decision unchanged |
| `Dispatcher.OpenPanel.Increment` | Sources/OpenPanel.swift:70-72 | the increment payload goes through the send decision unchanged |
| `Dispatcher.OpenPanel.Decrement` | Sources/OpenPanel.swift:74-76 | the decrement payload goes through the send decision unchanged |
| `Dispatcher.OpenPanel.Clear` | Sources/OpenPanel.swift:173-176 | profile and globals become nil; the queue, options and outbox are untouched (by the frame) |
| `Scenarios.WaitThenIdentify` | Sources/OpenPanel.swift:156-158 | waiting with no profile, two tracks are held; identifying as "u1" sends both, in order, tagged "u1", and the queue ends empty |
| `Scenarios.ReadyReleasesHeld` | Sources/OpenPanel.swift:127-130 | a held track is released by `ready` without a profile id |
| `Scenarios.GlobalsAccumulate` | Sources/OpenPanel.swift:132-141 | two `setGlobalProperties` calls accumulate; a later track carries both keys |
| `Scenarios.PerCallPropertyWins` | Sources/OpenPanel.swift:145-147 | a per-call property overrides a global one of the same key |
| `Scenarios.DisabledSendsNothing` | Sources/OpenPanel.swift:184 | with `disabled == true`, no operation sends or queues anything |
| `Scenarios.FilterBlocks` | Sources/OpenPanel.swift:186 | a filter refusing "blocked" lets exactly the "allowed" track through |
| `Scenarios.ClearKeepsQueue` | Sources/OpenPanel.swift:173-176 | `clear` resets profile and globals but not the queue; `ready` still sends the held track |

## Left out

- Actor isolation, the `Task {}` fire-and-forget wrappers (`Sources/OpenPanel.swift:46-84`) and
  re-entrancy across the `await`s in `_initialize`. Each public call is one sequential method call,
  and `_initialize` runs to completion at once.
- Dispatcher.OpenPanel.Send: applies `ensureProfileId` when the payload is handed over. In the source
  it runs later, inside the spawned task, and could see a profile id set in between.
- The network hand-off: `Task { api.fetch }` becomes an append to the outbox `sent`. Its failure is
  only logged in the source, so it never feeds back into dispatcher state.
- `URLSession`, real HTTP, `JSONEncoder` byte output and `URL(string:)`. They are replaced by a scripted
  outcome per attempt, an optional encoded body (`None` when encoding throws) and a URL-validity
  predicate.
- ApiClient.Api.Post: delays are whole milliseconds and `initialRetryDelay` is a `nat`, not a
  floating-point `TimeInterval`. `pow`, the nanosecond conversion and `Task.sleep` are represented
  only by the recorded delay.
- Device probing (`Sources/Internal/DeviceInfo.swift` is not part of this model). The user agent and
  the device info are parameters of `Initialize`.
- `logError`/`print`: they have no effect on state.
- Synthesized `Codable` on the inner structs: it is modelled as writing every present field, omitting
  nil optionals and reading absent or null optionals as nil.
- Swift's `Int` counter values are a 64-bit newtype; an out-of-range JSON number decodes as corrupted
  data.
- Maps.Overlay / ApiClient.Api.RequestHeaders: keys are equal only when they are the same sequence of
  characters. In the source, `URLRequest` header names are case-insensitive: an option `User-Agent`
  replaces a stored `user-agent`, while the model keeps both. Swift `String` dictionary keys also compare
  by canonical equivalence, so the precomposed and decomposed spellings of "café" are one key in
  `_track` and `_setGlobalProperties`; the model keeps two. The only `fetch` caller passes no options.
