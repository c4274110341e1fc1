# Device lock server: in-memory bookkeeping

The server keeps two stores in memory. They are lost on restart.

- `dispositivos` is the device registry. It is an append-only list of records `{id, nome, modelo, androidVersion, status, ultimoContato}`.
  - Registration appends a record that is `online`. Its id is the decimal text of the millisecond clock.
  - Listing rewrites every record's `status` in place. A record is `online` when fewer than 60 seconds have passed since `ultimoContato`, and `offline` otherwise.
- `comandosPendentes` is the command mailbox. It maps a device id to the FIFO list of `{tipo, timestamp}` commands that the device has not collected yet.
  - A lock or unlock request creates the mailbox if it is missing. It then appends one `BLOQUEAR` or `DESBLOQUEAR` command.
  - A poll returns the list (`[]` when there is none) and leaves an empty mailbox behind.
  - Both hold for every id that is not the name of an `Object.prototype` member, while the object's prototype is still `Object.prototype` (before any poll on `__proto__`). For such names the handlers misbehave, because the store is a plain object; see Findings. `Commands` and class `App` model the mailbox keyed by own keys only, which is the evident intent.

The Dafny project has five modules:

- `Decimal` (decimal.dfy): the id text produced by `Date.now().toString()`.
- `Commands` (commands.dfy): the mailbox as a map of sequences, with its operations and lemmas.
- `Registry` (registry.dfy): the device records, the online/offline rule and the listing refresh.
- `Server` (server.dfy): class `App`. Its fields are the two stores. It has one method per route handler, and a `while` loop that performs the status refresh in place.
- `PrototypeLookup` (prototype.dfy): the handlers as written against a plain JavaScript object (see Findings).

Clock readings are integer millisecond parameters. Registration reads the clock twice: `Date.now()` for the id and `new Date()` for `ultimoContato`. `App.Registrar` therefore takes two readings. Device ids are not unique. `Decimal.FormatIntInjective` proves that two registrations get the same id exactly when they read the same millisecond.

The code has only two command kinds: lock and unlock. It has no camera commands, no live-stream relay, no viewer sets and no `streaming` field, so the model has none of these. The code also writes `ultimoContato` only at registration. `Registry.RegisteredDeviceStatus` shows the consequence: a device is listed offline from 60 seconds after it registered. Polling does not help: `Server.App.Comandos` ensures `dispositivos == old(dispositivos)`, so a poll leaves every `ultimoContato` as it was.

## Model

| member | source | states |
|---|---|---|
| `Decimal.Format` | server.js:17 | The id text is non-empty and made only of decimal digits. It has a leading zero only for 0, and one digit exactly for values below 10. |
| `Decimal.ParseFormat` | server.js:17 | Reading the id text back as a decimal number gives the clock reading it was made from. |
| `Decimal.FormatIntInjective` | server.js:17 | Two ids are equal if and only if the clock readings are equal. Ids collide within one millisecond and differ otherwise. |
| `Decimal.FormatInt` | server.js:17 | The id text of any clock reading is non-empty. It starts with a digit exactly for readings that are not negative, and with '-' exactly for negative ones. Its digits are `Decimal.Format` of the reading's magnitude, whose value `Decimal.ParseFormat` pins (see `Decimal.FormatIntValue`). |
| `Decimal.FormatIntValue` | server.js:17 | Reading the id text back gives the clock reading: the digits after an optional '-' parse to the reading's magnitude, and the '-' is there exactly for negative readings. |
| `Commands.Enqueue` | server.js:43-44 | A request adds `id` to the mailbox keys and makes that mailbox one longer. The earlier entries keep their order and the new command is last. Every other device's mailbox is unchanged. |
| `Commands.Drain` | server.js:36-37 | A poll returns exactly the pending list, in order. It leaves an empty mailbox under `id`, created if it was absent. Every other mailbox is unchanged. |
| `Commands.EnqueueAllAppends` | server.js:44 | After a series of requests for one device, its mailbox is the old contents followed by those commands in request order. |
| `Commands.EnqueueAllIsolated` | server.js:50-51 | A series of requests for one device leaves every other device's mailbox unchanged. |
| `Commands.FifoDrain` | server.js:34-53 | After N requests on an empty or absent mailbox, a poll returns exactly those N commands in request order. The mailbox is then empty, a second poll returns `[]`, and other devices are untouched. |
| `Commands.DrainIsDestructive` | server.js:36-37 | A second poll with no request in between returns `[]` and changes nothing more. A poll of an absent mailbox returns `[]` and leaves an empty mailbox. |
| `Commands.EnqueueCommutes` | server.js:41-53 | Requests for two different devices give the same state in either order. |
| `Commands.DrainIgnoresOtherEnqueue` | server.js:34-53 | A request for one device does not change what a poll of another device returns. |
| `Registry.StatusAt` | server.js:58-59 | The elapsed time is divided by 1000 and compared with 60 seconds. The status is online if and only if fewer than 60000 ms have passed since the last contact. |
| `Registry.RefreshAll` | server.js:57-60 | The refreshed list, built by applying `Registry.Refresh` (the status rule of lines 58-59) to each record in order, has as many records as the stored one. |
| `Registry.RefreshAllAt` | server.js:57-60 | At every position, the refreshed record equals the stored one in every field except `status`. Its status is online if and only if now minus `ultimoContato` is below 60000 ms. |
| `Registry.RefreshAllIdempotent` | server.js:57-60 | Listing twice at the same instant gives the same list as listing once. |
| `Registry.RefreshAllIgnoresStatus` | server.js:57-60 | The listed statuses depend only on the time and the other fields. A stale stored status never shows through. |
| `Registry.Register` | server.js:19-28 | Registration appends the `Registry.NewDevice` record, so the list grows by exactly one record, at the end, and the existing records are kept. The new record has the given id, status online, `ultimoContato` equal to the contact reading, and the supplied model and OS version. Its name is 'Dispositivo Android' when the supplied name is missing or empty, and the supplied name otherwise (line 21). |
| `Registry.RegisteredDeviceStatus` | server.js:24-25 | A registered device is listed at the end under its id. It is online if and only if fewer than 60 s have passed since registration. |
| `Registry.OfflineIsPermanent` | server.js:58-59 | Once a device is listed offline, every later listing shows it offline. |
| `Server.App.constructor` | server.js:11-12 | A process starts with no devices and no mailboxes. |
| `Server.App.Registrar` | server.js:15-31 | Returns the decimal text of the id clock reading, and appends the record `Registry.Register` describes with that id. The mailboxes are unchanged. |
| `Server.App.Comandos` | server.js:34-39 | Returns what `Commands.Drain` returns and stores the mailboxes it leaves behind. The devices are unchanged. This is the own-key mailbox; the source differs for `Object.prototype` names (see Findings). |
| `Server.App.Push` | server.js:43-44 | Stores `Commands.Enqueue` of the command with the given kind and time. The devices are unchanged. This is the own-key mailbox; the source throws for `Object.prototype` names (see Findings). |
| `Server.App.Bloquear` | server.js:41-46 | Enqueues one `BLOQUEAR` command with the request time. The devices are unchanged. This is the own-key mailbox; the source throws for `Object.prototype` names (see Findings). |
| `Server.App.Desbloquear` | server.js:48-53 | Enqueues one `DESBLOQUEAR` command with the request time. The devices are unchanged. This is the own-key mailbox; the source throws for `Object.prototype` names (see Findings). |
| `Server.App.Dispositivos` | server.js:55-62 | The loop leaves the stored list equal to `Registry.RefreshAll` of the old list, and returns that list. The mailboxes are unchanged. |
| `Server.LockUnlockThenPoll` | server.js:34-53 | On a fresh server, a lock and then an unlock for one device are returned in that order by the first poll, and the second poll returns `[]`. |
| `Server.RegisterThenList` | server.js:15-61 | On a fresh server, a listing after one registration holds exactly that device. It has the returned non-empty id, the supplied model and OS version, and the supplied name, or 'Dispositivo Android' when the name is empty. It is online if and only if the listing comes less than 60 s after registration. |
| `PrototypeLookup.EnqueueAsWritten` | server.js:41-46 | The handler as written throws exactly when the id is `__proto__`, or an inherited method name with no mailbox. Otherwise it stores what `Commands.Enqueue` stores. |
| `PrototypeLookup.DrainAsWritten` | server.js:34-39 | The poll as written answers something other than a command list exactly for `__proto__` and for an inherited method name with no mailbox. Otherwise it answers what `Commands.Drain` answers. A poll on `__proto__` re-parents the object; every other poll leaves the state `Commands.Drain` leaves. |
| `PrototypeLookup.LockOnConstructorThrows` | server.js:43-44 | A lock for the id "constructor" on an empty server throws as written. The corrected mailbox queues it. |
| `PrototypeLookup.AsWrittenMatchesModel` | server.js:41-53 | For an id other than `__proto__` that is not an inherited method name, or that already has a mailbox, the lock/unlock and poll handlers as written behave exactly like the corrected mailbox. |
| `PrototypeLookup.LockWorksAfterPoll` | server.js:36-44 | For every id other than `__proto__`, a poll stores an own empty list, and a lock after it queues exactly as the corrected mailbox does. |
| `PrototypeLookup.LockOnProtoKeyThrows` | server.js:43-44 | While the object's prototype is still `Object.prototype` (before any poll on `__proto__`), a lock for the id `__proto__` throws whatever is stored, and a poll of it does not answer a command list. |

## Left out

- HTTP plumbing is not modelled: Express, cors, static files, body parsing, `res.json`, `res.sendFile`, `app.listen` and `console.log`. The methods return the payload values instead.
- The constant `success: true` of the register, lock and unlock responses is not returned.
- The wall clock is not modelled. Each `Date.now()` / `new Date()` reading is an integer millisecond parameter.
- `ultimoContato` is stored as an integer, not as an ISO-8601 string. `toISOString()` followed by `new Date(...)` gives back the same millisecond, so nothing is lost.
- Registry.StatusAt: uses exact real division instead of IEEE double division. For integer millisecond differences both give the same result against 60.
- Request fields are `Option<string>`: absent or a string. Other JSON values (numbers, booleans, `null`, objects) are not modelled. For the name, every falsy one behaves like an absent name.
- Device records are JavaScript objects that the listing loop mutates in place. Here they are values in a sequence. The array is their only reference, so no aliasing is lost.
- PrototypeLookup.DrainAsWritten: a poll on `__proto__` makes an empty array the object's prototype. The model marks that outcome (`Reparented`) and follows the object no further. From then on ids such as `push` or `map` would find Array.prototype methods and throw too; `InheritedNames` is the set of throwing ids only while the prototype is still `Object.prototype`.
- PrototypeLookup.EnqueueAsWritten: assumes the object's prototype is still `Object.prototype`, so it does not describe lock requests after a poll on `__proto__`.
- PrototypeLookup.LockOnProtoKeyThrows: holds only while the prototype is still `Object.prototype`. After one poll on `__proto__`, line 37 makes a new array the prototype; a later lock on `__proto__` pushes onto that array without error, and the next poll answers it as a list. From then on Array.prototype names such as `push` or `map`, and index ids such as "0" once the array holds a command, throw instead. The model does not follow the object past that poll.
- PrototypeLookup.AsWrittenMatchesModel: excludes `__proto__`, for which the source throws on lock (`PrototypeLookup.LockOnProtoKeyThrows`) and re-parents the object on poll.
- Server.App.Comandos: models the own-key mailbox. For an `Object.prototype` name without a mailbox the source answers a function (or, for `__proto__`, the prototype object) instead of a list; `PrototypeLookup.DrainAsWritten` models that.
- Server.App.Push: models the own-key mailbox. The source throws for `__proto__` and for `Object.prototype` method names without a mailbox; `PrototypeLookup.EnqueueAsWritten` models that.
- Server.App.Bloquear: never fails here. The source throws for the same ids as `Server.App.Push`.
- Server.App.Desbloquear: never fails here. The source throws for the same ids as `Server.App.Push`.
- Concurrency is out of scope. Node runs each handler to completion before the next, so every method is atomic.

## Findings

| source | as written | input that shows it | evidently intended | confidence | as-written member | corrected member |
|---|---|---|---|---|---|---|
| server.js:43-44 | `comandosPendentes` is an object literal, so `comandosPendentes[deviceId]` also finds inherited `Object.prototype` methods. That lookup is truthy, so no mailbox is created, and `.push` on a function throws a TypeError: the lock request fails. The id `__proto__` reads `Object.prototype`, which has no `push` either. The unlock handler (server.js:50-51) and the poll (server.js:36, which answers a function or an object instead of a list) share the flaw. | `POST /api/bloquear/constructor` on a fresh server | Every id gets its own mailbox, and lock/unlock never fail (a `Map` or `Object.create(null)`) | not executed; high | `PrototypeLookup.LockOnConstructorThrows` | `Commands.Enqueue` |
