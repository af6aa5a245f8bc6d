# Plann.er trip creation and error handling, modelled in Dafny

Plann.er is a small trip-planning HTTP service. This project models its two
pieces of request-level decision logic.

- **`POST /trips`** (`CreateTrip` module, `create_trip.dfy`). The handler
  rejects a start instant that is already past. It then rejects an end
  before the start. Only then does it store one trip whose only participant
  is the owner, mail the owner and return `{ tripIP, tripDestination }`.
  The comparisons are pure and become the function `CheckDates`. The
  success path updates the store and the outbox step by step, so it is the
  method `TripService.CreateTrip` on a class holding `trips`, `outbox` and
  the identifier counter. That method is proved equal to the function
  `Step`, and the handler's rules are proved as lemmas about `Step`, about
  the store invariant `Consistent`, and about `Run`, which handles a
  sequence of requests against the same store.
- **The error handler** (`ErrorHandler` module, `error_handler.dfy`). This
  is a first-match dispatch on the error's class: Zod validation errors,
  then client errors, then Fastify errors, then anything else. The result is
  the status, the JSON body and the log entry, if one is written.

Instants are integer milliseconds, and "now" is an input. The outcome of
the store write and of the mail send (`Attempt`) is also an input. A failed
call at either point propagates the collaborator's error (`Reply.Threw`).

The model follows the code as written. In particular:
- Only the owner participant is created. There are no invitees, and no
  `is_owner`/`is_confirmed` flags are set.
- The mail carries only a sender and a recipient: no subject, body or
  confirmation link.
- A failed mail send is not swallowed. The handler's promise rejects with
  that error, and the trip written just before stays stored.
- An end equal to the start is accepted, because the comparison is the
  strict `isBefore`.

## Model

| member | source | states |
|---|---|---|
| `ErrorHandler.Handle` | src/error-handler.ts:29-48 | the body's shape is decided by the first class in the order Zod, client, Fastify; only Fastify and unclassified errors are logged, with their message and stack; the status is never 0; Zod and client errors get 400, the others 500 or the error's own status; a `{ message }` body is never empty |
| `ErrorHandler.ValidationReply` | src/error-handler.ts:15-19 | a Zod error gets 400 `{ message: "Invalid input", errors: fieldErrors }` and no log entry |
| `ErrorHandler.ClientReply` | src/error-handler.ts:22-27 | a client error (not also a Zod error) gets 400 with its own message, no log entry, and its code, or "CLIENT_ERROR" when the code is absent or empty |
| `ErrorHandler.FrameworkReply` | src/error-handler.ts:38-43 | a Fastify error (neither Zod nor client) gets its status code, or 500 when that is absent or 0; its message, or "Internal server error" when that is empty; and it is logged |
| `ErrorHandler.FallbackReply` | src/error-handler.ts:45-48 | any other error gets a logged 500 `{ message: "Internal server error" }` |
| `ErrorHandler.FallbackHidesMessage` | src/error-handler.ts:46-48 | two unclassified errors get the same status and body, so the error's own message never reaches the client |
| `ErrorHandler.FirstMatch` | src/error-handler.ts:29-43 | adding classes that are tested after one the error already belongs to does not change the reply |
| `CreateTrip.CheckDates` | src/routes/create-trip.ts:26-32 | past start exactly when now is strictly after the start; end-before-start exactly when the start is not past and the end is strictly before it; accepted exactly when now <= start <= end |
| `CreateTrip.Utf16Length` | src/routes/create-trip.ts:15 | the string length the schema's `min(4)` measures: UTF-16 code units, between the number of characters and twice it, and twice it exactly when every character lies outside the Basic Multilingual Plane |
| `CreateTrip.DestinationLength` | src/routes/create-trip.ts:15 | the destination rule counts UTF-16 units: two emoji pass, "Rio" fails, "Rome" passes |
| `CreateTrip.NewTrip` | src/routes/create-trip.ts:34-41 | the trip written for a request has the given id and exactly one participant, and for a schema-valid request that passed the date gates it has the stored shape |
| `CreateTrip.Step` | src/routes/create-trip.ts:23-53 | trips and mails are only appended, at most one of each; the id counter moves exactly when a trip is stored; a mail is sent exactly when the reply is `Created`, and that reply always comes with its trip stored |
| `CreateTrip.PastStartRejected` | src/routes/create-trip.ts:26-28 | if now is after the start, the reply is 400 "starts_at must be in the future" whatever the end is, and the state is unchanged |
| `CreateTrip.StartAtNowPasses` | src/routes/create-trip.ts:26 | a start equal to now is not rejected as past |
| `CreateTrip.EndBeforeStartRejected` | src/routes/create-trip.ts:30-32 | if the start is not past and the end is before it, the reply is 400 "starts_at must be before ends_at" and the state is unchanged |
| `CreateTrip.EqualEndPasses` | src/routes/create-trip.ts:30 | an end equal to a start that is not past is not rejected |
| `CreateTrip.StartGateFirst` | src/routes/create-trip.ts:26-32 | when both rules are broken the past-start error is returned |
| `CreateTrip.RejectionHasNoEffect` | src/routes/create-trip.ts:26-45 | a request is rejected if and only if it breaks a date rule, and a rejection writes no trip and sends no mail |
| `CreateTrip.SuccessEffects` | src/routes/create-trip.ts:34-52 | on success one trip is appended after the unchanged old ones, with the request's destination, start and end and the owner as its only participant; one mail goes from "Trip Planner" <tripplanner@mail.er> to the owner; the reply is the new trip's id and the request's destination |
| `CreateTrip.StoreFailureHasNoEffect` | src/routes/create-trip.ts:34-41 | a failing store write propagates its error and changes nothing |
| `CreateTrip.MailFailureKeepsTrip` | src/routes/create-trip.ts:43-48 | a failing mail send propagates its error; the trip stays stored and no mail is recorded |
| `CreateTrip.StepPreservesConsistent` | src/routes/create-trip.ts:15-41 | for a body the schema admits (destination of at least 4 UTF-16 units), every request keeps distinct ids below the counter, stored trips with start <= end, destinations of at least 4 UTF-16 units and one participant, and no more mails than trips |
| `CreateTrip.NotIdempotent` | src/routes/create-trip.ts:34-41 | two identical successful requests store two trips with distinct ids |
| `CreateTrip.Run` | src/routes/create-trip.ts:23-53 | over a sequence of requests, one reply per request; stored trips are never changed or removed; the new mails are exactly one per `Created` reply, from the fixed sender to that call's owner, in call order |
| `CreateTrip.RunPreservesConsistent` | src/routes/create-trip.ts:23-53 | any sequence of schema-valid requests keeps the store invariant |
| `CreateTrip.TripService.CreateTrip` | src/routes/create-trip.ts:23-53 | the in-place handler applies the two gates in order, then the store write and the mail send; its new store, outbox and counter and its reply are those of `Step`; it keeps the store invariant; a rejection leaves the store and outbox untouched |

## Left out

- Zod schema parsing, `z.coerce.date()` and email syntax checking (lines 14-20 of src/routes/create-trip.ts) belong to a foreign library. The body is taken as already typed. Only the `destination` minimum length is kept, as the precondition `WellFormed`.
- `error.flatten().fieldErrors` is Zod's computation. The flattened map is a field of the modelled error.
- Fastify route registration, type providers and `reply` plumbing are framework wiring. The reply is a returned value. Nothing says whether a status sent by the Fastify branch is one Fastify accepts.
- The registration of `errorHandler` is not part of this model. The error a failed collaborator throws is returned as `Threw`, not passed through the error handler.
- The Prisma client and the nodemailer transport are external I/O. They become the `trips` and `outbox` sequences, with success or failure given as `Attempt` inputs. `getMailClient` and `sendMail` failing are one input.
- Prisma's generated UUIDs are modelled as a counter. Only their uniqueness is used.
- The participant's identifier and any schema defaults for its flags are not part of this model, since the Prisma schema is outside the modelled code.
- The `console.log` of the test-message URL is output only.
- Strings are sequences of Unicode scalar values, so a JavaScript string holding a lone surrogate is not modelled.
- JavaScript falsiness is modelled for absent values, empty strings and 0. A `NaN` status code is not modelled.
- src/routes/confirm-trip.ts only echoes `tripId` and logs the parameters. Its dayjs locale setup is a formatting library.
- src/env.ts and src/server.ts are environment parsing and server startup.
