# License lifecycle of the AI caption service

The service sells access to a caption generator. A buyer's license is a row of
the `licenses` table: an email, a unique `license_key` and the instant
`active_until`. `POST /generate` admits a request only when a record exists for
the `license_key` header (main.py:53) and its `active_until` does not lie before now. It
then asks the text-generation provider for a caption and appends a row to the
`caption_records` log. `POST /webhook` receives the payment provider's events.
A `sale` creates or renews a license, either until the next charge date or for
thirty days. A `subscription_cancelled` expires the license at the current
instant. Any other event is ignored.

This project models that core in Dafny:

- `records.dfy` (module `Records`): the two tables as values. The licenses table is
  a map keyed by `license_key`. `KeyedByLicenseKey` is the uniqueness constraint.
- `lifecycle.dfy` (module `Lifecycle`): the gate `Admits` and the pure transition
  functions `GenerateResult` and `WebhookResult`, with their answers and status
  codes, and one lemma per promised behaviour.
- `server.dfy` (module `Server`): the class `CaptionService` whose `licenses` map and
  `captions` sequence the two handlers update in place. Each method is tied to
  the pure function of the same request and keeps the uniqueness invariant.
- `runs.dfy` (module `Runs`): any sequence of requests handled one after another,
  and what holds over every such run. Keys stay unique. Licenses are never
  deleted and emails never rewritten. The caption log only grows. Only a `sale`
  creates a license. After a `sale`, the key's `active_until` is the instant that
  sale granted until a later request touches the key (a `sale` or a
  cancellation): renewal overwrites, it does not accumulate.
- `literal_lookup.dfy` (module `LiteralLookup`): the license lookups read literally
  (see Findings).

Instants are integers counting seconds, so thirty days are `30 * 86400`. The
provider's reply, or its error, is an input to a generate request. Webhook form
fields arrive already decoded as optional strings. A field counts as given when
it is present and not empty, as Python's truthiness has it. The next charge
date arrives as an optional, already parsed instant.

Where the code departs from the documented design of the service, the model follows the code:

- Boundary. `main.py:62` refuses only when `active_until < now`. A license is
  therefore still admitted at the instant `now == active_until`, including right
  after a cancellation at that same instant. The documented policy treats the
  instant `active_until` as already expired.
- Ignored events answer the status `"ignored event <name>"` (`main.py:149`), not `"ignored <name>"`.
- `topic`, `tone` and `channel` are only required to be strings (`main.py:39-42`).
  An empty string is accepted, although the documented request format asks for non-empty values.

The lookups at `main.py:58-61`, `main.py:122-125` and `main.py:138-141` are
modelled by their evident intent, "find the record with this key". This is a
deliberate abstraction: read literally they return the row's `id`, as the
Findings section shows.

## Model

| member | source | states |
|---|---|---|
| `Lifecycle.UnknownKeyRefused` | main.py:57-63 | a key with no stored record is refused with 403 and the detail "License expired or not found", and the caption log is unchanged, whatever the provider would reply |
| `Lifecycle.GenerateGate` | main.py:62-63 | a request passes the gate if and only if a record exists and `now <= active_until` (equality admitted); every refusal leaves the log unchanged |
| `Lifecycle.GenerateAppendsOne` | main.py:71-90 | an admitted request with a provider reply appends exactly one record (topic, tone, channel, reply) after the old log and answers 200 with the reply |
| `Lifecycle.ProviderErrorLogsNothing` | main.py:71-93 | a provider error appends nothing and answers 500 carrying the error's detail |
| `Lifecycle.MissingFieldRejected` | main.py:102-108 | a payload missing `event_name`, `email` or `license_key`, or with one of them empty, answers 400 with the detail "Missing fields in Gumroad payload" whatever the event, and the table is unchanged |
| `Lifecycle.SaleSetsActiveUntil` | main.py:112-134 | a `sale` sets the key's `active_until` to the next charge date, or to now plus thirty days, and answers status "ok" with that same instant |
| `Lifecycle.SaleRenewsExisting` | main.py:122-127 | a `sale` on a stored key keeps its email and key and adds no record |
| `Lifecycle.SaleInsertsUnknown` | main.py:128-133 | a `sale` on an unknown key inserts exactly one record with the given email, key and granted `active_until` |
| `Lifecycle.SaleIdempotent` | main.py:112-133 | repeating a `sale` with the same next charge date, at any instant, leaves the table and the answer as the first one did |
| `Lifecycle.CancelExpiresNow` | main.py:136-145 | `subscription_cancelled` sets a stored key's `active_until` to now and changes nothing else; on an unknown key it changes nothing; both answer "cancelled" |
| `Lifecycle.CancelledAdmittedOnlyUntilNow` | main.py:136-145 | after a cancellation at `now`, the gate still admits the key at `now` and refuses it at every later instant |
| `Lifecycle.OtherEventIgnored` | main.py:147-149 | any other event leaves the table unchanged and answers the status "ignored event " followed by the event's name |
| `Lifecycle.WebhookFramesOtherKeys` | main.py:110-149 | a webhook changes no record except that of the key named by a well-formed `sale` or `subscription_cancelled` |
| `Lifecycle.WebhookKeepsKeyed` | main.py:121-133 | every webhook keeps one record per key, deletes no record and rewrites no email |
| `Server.CaptionService.constructor` | main.py:33-36 | the tables created on a new database hold no license and no caption, and satisfy the uniqueness constraint |
| `Server.CaptionService.Generate` | main.py:50-93 | the handler leaves the licenses table as it was; its new caption log and answer are those of `GenerateResult` on the old state; it keeps the uniqueness invariant |
| `Server.CaptionService.Webhook` | main.py:96-149 | the handler leaves the caption log as it was; its new licenses table and answer are those of `WebhookResult` on the old table; it keeps the uniqueness invariant |
| `Runs.RunKeepsLicenses` | models.py:17-23 | over every run, keys stay unique, no license is deleted and no stored email is rewritten |
| `Runs.RunAppendsCaptions` | main.py:80-88 | over every run the caption log only grows: the old log stays a prefix |
| `Runs.GeneratesKeepLicenses` | main.py:56-93 | generate requests never change the licenses table, so whether a key is admitted at any instant is the same after them |
| `Runs.WebhooksKeepCaptions` | main.py:96-149 | webhooks never change the caption log |
| `Runs.RunFramesKey` | main.py:121-145 | a key that no request of a run may change keeps its record, or its absence, through the run |
| `Runs.OnlySaleCreates` | main.py:128-132 | a key absent at the start of a run with no well-formed `sale` for it is absent at the end: only a `sale` creates a license |
| `Runs.LastSaleWins` | main.py:125-127 | after a `sale` with next charge date `T`, followed by requests that do not touch the key, the key is active until exactly `T`, whatever it held before |
| `LiteralLookup.GateAsWrittenNeverAdmits` | main.py:58-63 | with the lookup read literally, the gate admits nothing, and every stored key fails with an attribute error |
| `LiteralLookup.PaidLicenseFailsAsWritten` | main.py:58-63 | a license stored with id 1 and active until 100 fails the gate as written at instant 0, while the intended gate admits it and logs a caption |
| `LiteralLookup.RenewOrCancelAsWrittenFails` | main.py:122-143 | read literally, a `sale` or cancellation on a stored key fails with an attribute error, while the intended transition renews or expires the record |

## Findings

| source | as written | input that shows it | evidently intended | confidence | as-written member | corrected member |
|---|---|---|---|---|---|---|
| main.py:58-63 | `scalar_one_or_none()` on a Core `Table.select()` returns the first column, the integer `id`, and `lic.active_until` then raises on that integer, so every stored key gets a 500 | a key stored with id 1 and `active_until` 100, generate at instant 0 | look up the license record and admit it while `active_until >= now` | high; not executed | `LiteralLookup.PaidLicenseFailsAsWritten` | `Lifecycle.GenerateGate` |
| main.py:122-127 | the same lookup makes `lic` the integer `id`, and assigning `lic.active_until` raises, so a stored license can never be renewed (a row with id 0 would instead be inserted a second time and break the unique key) | a second `sale` for a key already stored | overwrite the stored record's `active_until` | high; not executed | `LiteralLookup.RenewOrCancelAsWrittenFails` | `Lifecycle.SaleRenewsExisting` |
| main.py:138-143 | the same lookup makes `lic` the integer `id`, and assigning `lic.active_until` raises, so a stored license can never be cancelled | `subscription_cancelled` for a key already stored | set the stored record's `active_until` to now | high; not executed | `LiteralLookup.RenewOrCancelAsWrittenFails` | `Lifecycle.CancelExpiresNow` |

## Left out

- The HTTP layer is not modelled: routing, the `license_key` header (read under exactly that name, since main.py:53 disables the underscore conversion; the comment on that line names `X-License-Key` instead), body and form decoding (main.py:29-53, main.py:96-102) and the `GET /` liveness route (main.py:45-47). Requests arrive as already decoded fields.
- The provider call is not modelled: the client, its configuration and the chat-completion request (main.py:15-27, main.py:72-78). It is a foreign network call. Its stripped reply or its error detail is an input.
- The prompt text (main.py:66-70) is not modelled. It only reaches the provider, whose reply is an input here, so it has no effect on the state.
- The database plumbing is not modelled: `db.py`, the table creation at startup (main.py:33-36), sessions and commits. The database-assigned `id` and `created_at` columns are not part of the records. A failing commit inside the `try` (an answer of 500) is not modelled.
- Timestamp parsing is not modelled: `datetime.fromisoformat` after replacing `Z` (main.py:117), and the error it raises on a malformed date. The next charge date arrives already parsed, and an empty one as absent. Time zones, the mix of naive and aware datetimes, sub-second precision and the ISO-8601 text of the answer are also left out.
- Concurrency is not modelled. Two webhooks racing on the same key are a property of the server. Runs here handle one request at a time.
