# Order ledger of the restaurant server

The restaurant server keeps every order it has been sent in one in-memory
array, `orders`, in arrival order. Three request handlers change it:

- `POST /order` stores a copy of the request body with `status` set to
  "Preparing" and a `time` stamp, overriding whatever the body carried under
  those two names;
- `POST /mark-prepared` finds the first record whose `orderId` is the
  request's and sets its status to "Prepared";
- `POST /finalize-bill` finds the first such record, sets its status to
  "Completed" and stores the request's `finalTotal` on it.

Two read-only handlers filter the array: `GET /orders` (the kitchen view,
status "Preparing") and `GET /manager-data` (every record not "Completed").
Every mutating handler replies `{ success: true }`, whether or not a record was
found.

The project has three modules:

- `Wrappers` (`wrappers.dfy`): `Option`, standing for a JSON property that may
  be absent.
- `Orders` (`orders.dfy`): the records, the lookup of the first record with an
  id (`Array.prototype.find`), the two updates and the two views as functions on
  the ledger, and the lemmas about them. `Orders.Request`, `Orders.Apply`, `Orders.Run` and
  `Orders.Placements` describe the event loop handling the mutating requests one
  after another from the ledger of server/server.js:8; `Run` and `Placements`
  exist only to state `Orders.RunKeepsRecords`.
- `Server` (`server.dfy`): the class `Ledger` whose field `orders` the three
  handler methods reassign, each proved against the functions of `Orders`.

The request body is modelled by `Orders.Body`: the `orderId`, a `status`, a
`time` and a `finalTotal` if the client sent them, and every other property as
an opaque payload `P`. A total is of an opaque type `T`; the server never
computes with it. The time stamp is a parameter of `PlaceOrder`, since it comes
from the clock.

An absent `orderId` is `None`, and `None` matches `None`. In the source,
`undefined === undefined` is true, so a mark-prepared or finalize-bill request
without an `orderId` updates the first record that was placed without one.
The model keeps that behaviour.

A product description of this system says that "Completed" is terminal and that
no status moves backwards. The code has no such guard: mark-prepared moves a
Completed record back to Prepared, and the record then shows again in the
manager view. The model follows the code, and `Orders.PrepareAfterFinalize` and
`Orders.PrepareReopensCompleted` state this behaviour. The same description
also covers a table allocator, a waiting queue, billing arithmetic and
order-id generation. None of these is in `server/server.js`, so none is
modelled.

## Model

| member | source | states |
|---|---|---|
| `Orders.Placed` | server/server.js:16 | the stored record has status Preparing and the server's time stamp whatever the body said, and keeps the body's id, `finalTotal` and other properties |
| `Orders.PlacedIgnoresBodyStatusAndTime` | server/server.js:16 | two bodies that differ only in their own `status` and `time` give the same record |
| `Orders.FirstMatch` | server/server.js:26 | returns None exactly when no record carries the id; otherwise the index of a record carrying it with no earlier record carrying it |
| `Orders.FirstMatchIsUnique` | server/server.js:32 | any index that is a first match is the index the lookup returns |
| `Orders.Prepare` | server/server.js:26-27 | length unchanged; the first record with the id gets status Prepared whatever its old status, all its other fields and all other records unchanged; an unknown id leaves the ledger equal to before |
| `Orders.Finalize` | server/server.js:32-35 | length unchanged; the first record with the id gets status Completed and the request's total, nothing else changes; an unknown id leaves the ledger equal to before |
| `Orders.PrepareAt` | server/server.js:26-27 | with a first match at i, mark-prepared is the single update at index i |
| `Orders.FinalizeAt` | server/server.js:32-35 | with a first match at i, finalize-bill is the single update at index i |
| `Orders.PrepareIdempotent` | server/server.js:26-27 | marking the same id prepared twice equals marking it once |
| `Orders.FinalizeIdempotent` | server/server.js:32-35 | finalizing the same id twice with the same total equals finalizing it once |
| `Orders.PrepareAfterFinalize` | server/server.js:26-35 | a finalized record marked prepared again has status Prepared and still carries the bill's total |
| `Orders.Select` | server/server.js:22-23 | the filtered list is no longer than the ledger and holds only ledger records whose status is accepted |
| `Orders.SelectConcat` | server/server.js:22-23 | filtering a concatenation is concatenating the filtered parts, so ledger order is kept |
| `Orders.SelectSingleton` | server/server.js:22-23 | a one-record ledger is kept exactly when its status is accepted |
| `Orders.SelectCount` | server/server.js:22-23 | each accepted record occurs in the filtered list as often as in the ledger, a rejected one never |
| `Orders.SelectMembership` | server/server.js:22-23 | a record is in the filtered list if and only if it is in the ledger with an accepted status |
| `Orders.SelectUpdate` | server/server.js:22-23 | replacing record i changes the filtered list only at i's place |
| `Orders.KitchenOrders` | server/server.js:22 | every listed record is a ledger record with status Preparing, and every ledger record with status Preparing is listed |
| `Orders.ManagerOrders` | server/server.js:23 | every listed record is a ledger record not Completed, and every ledger record not Completed is listed |
| `Orders.SelectCoversUpdate` | server/server.js:22-23 | both views of a ledger with record i replaced, in terms of the views of the parts before and after i |
| `Orders.ViewsAfterPlace` | server/server.js:16-23 | a placed order is appended at the end of both the kitchen and the manager view |
| `Orders.ViewsAfterPrepare` | server/server.js:22-27 | after mark-prepared the record is gone from the kitchen view and sits, as Prepared, in its place in the manager view |
| `Orders.ViewsAfterFinalize` | server/server.js:22-35 | after finalize-bill the record is absent from both views and the rest of each view is unchanged |
| `Orders.PrepareReopensCompleted` | server/server.js:23-27 | mark-prepared on a Completed record brings it back into the manager view, which grows by one |
| `Orders.Apply` | server/server.js:15-39 | one request adds one record exactly when it is a placement, and keeps every existing record's place, id, time stamp and payload |
| `Orders.RunKeepsRecords` | server/server.js:8-35 | over any run of requests the ledger grows by exactly the number of placements, and no record is removed, moved, or has its id, time stamp or payload changed |
| `Server.Ledger.constructor` | server/server.js:8 | the ledger starts empty |
| `Server.Ledger.PlaceOrder` | server/server.js:15-20 | appends exactly the placed record at the end, earlier records unchanged; both views gain it at the end; replies success |
| `Server.Ledger.MarkPrepared` | server/server.js:25-29 | the new ledger is `Prepare` of the old one; length unchanged; replies success whether or not the id was found |
| `Server.Ledger.FinalizeBill` | server/server.js:31-39 | the new ledger is `Finalize` of the old one; length unchanged; replies success whether or not the id was found |

## Left out

- Express setup, JSON and static middleware, routing and `app.listen` (server/server.js:1-5, 41): transport plumbing.
- The Google Sheets `sync` call and its URL (server/server.js:7, 10-13, 18, 36): awaited before the reply; `sync` catches its own errors, so it only delays the `{ success: true }` reply and never affects the ledger.
- `new Date().toLocaleString()` (server/server.js:16): clock and locale formatting; the time stamp is a parameter of `Server.Ledger.PlaceOrder`.
- Arithmetic on `finalTotal`: the server never computes with it, so it is of an opaque type.
- Interleaving of the `async` handlers at `await`: each handler is modelled as one atomic step, since it changes the ledger before its first `await`.
- Reply timing: `/order` and `/finalize-bill` reply only after `await sync(order)` settles (server/server.js:18-19, 36-38), and other requests can be handled in between; `Server.Ledger.PlaceOrder` and `Server.Ledger.FinalizeBill` return `success` in the same step as the ledger change, so the model does not capture the delayed reply or a reply that never comes when the network call hangs.
- Ids other than strings: `orderId` is modelled as an optional string. JSON numbers, `null` (which is not `===` to an absent id) and objects (never `===` to a freshly parsed one) are not distinguished.
- Bodies that are JSON arrays, whose spread yields index-named properties: the body is modelled as an object.
- Aliasing: the source updates the found record object in place; the model replaces the record at its index, which has the same effect because no code writes through any other reference after the update. The spread at server/server.js:16 is shallow, so nested body values stay shared with `req.body`, and the handler's local `order` stays referenced across `await sync(order)`; neither is written to afterwards.
- The manager view's `{ orders: ... }` wrapper object (server/server.js:23): only the list inside it is modelled.
