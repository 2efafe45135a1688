# Babelfish server: driver registry

A Babelfish server keeps a registry that maps each language name to a running
driver pool. The pool turns that language's source text into a universal
syntax tree. The registry is filled in two ways:

- explicitly, with `AddDriver(lang, img)`;
- lazily, when `Driver(lang)` misses and provisions the language with its
  default image.

`ParseUAST` answers a parse request with the driver for the request's
language. It uses the request's own language if one is given, otherwise the
detected one. Any failure to obtain a driver becomes a `Fatal` response, never
a transport error. `Close` closes every registered driver.

The model is three files:

- `wrappers.dfy` (module `Wrappers`): `Option` and `Result`.
- `protocol.dfy` (module `Protocol`): the request, response and status types the
  server reads and builds.
- `server.dfy` (module `Babelfish`): the error kinds, the collaborators, the
  class `Server` with its `drivers` map field, and the step functions and
  lemmas.

Each method of `Server` that changes the map is proved against a step function
on plain maps: `AddDriverStep`, `DriverStep` or `ParseStep`. What the server
promises is stated on those functions and in the lemmas about them.

Collaborators whose code is not part of this model are parameters:

- `Collaborators` holds image-reference parsing (`runtime.NewDriverImage`), the
  default image of a language (`DefaultDriverImageReference`), language
  detection (`GetLanguage`), and each driver's own `ParseUAST` and `Close`. These
  are arbitrary functions, fixed when the server is constructed.
- `Provisioning` is passed fresh to every call that may provision. It gives that
  call's answers from `rt.InstallDriver` and `StartDriverPool`, so every call may
  succeed or fail on its own.
- The `concurrent` parameter of `Driver` and `ParseUAST` is a pool that another
  caller registers for the same language in a specific window. That window opens
  when this call's read of the map (server.go:84-86) finds nothing. It closes
  when this call's `AddDriver` takes the lock (server.go:89). `None` is a
  sequential run.

The `AlreadyInstalled` branch of `Driver` (server.go:90) can only be reached
through that race. `SequentialMissNeverAlreadyInstalled` proves that the branch
is dead when `concurrent` is `None`. `RacedMissReturnsWinner` proves what
happens when the branch is taken.

Three points where the code's behaviour is easy to misread:

- `Close` returns nil whatever the drivers return (server.go:120-127), and so
  does `Server.Close`. `CloseIntended` gives the first-error policy; see
  Findings.
- `AlreadyInstalled` is raised only by the check at server.go:58-61 that the
  language already has a pool. Nothing about installing an image raises it.
- The comment on the `Transport` field (server.go:23) says it defaults to
  "docker". `NewServer` leaves it empty, and so does the constructor.

## Model

| member | source | states |
|---|---|---|
| `Babelfish.Server.constructor` | server.go:33-38 | a new server's driver map is empty; Transport is left empty; it keeps the collaborators it is given; install and pool-start answers come with each call |
| `Babelfish.AddDriverStep` | server.go:55-81 | a language already present gives AlreadyInstalled(lang, img) and no change; an image-parse or install failure gives Runtime wrapping that error and no change; a pool-start failure gives that error unwrapped and no change; when lang is absent and image parsing, install and pool start all succeed, lang maps to the started pool and nil is returned; success happens exactly when all three succeed on an absent lang, and exactly when lang is newly present; no other language's entry changes |
| `Babelfish.Server.AddDriver` | server.go:55-81 | the new map and the returned error are exactly AddDriverStep of the old map (installs with force-reinstall false) |
| `Babelfish.DriverStep` | server.go:83-100 | a hit returns the registered pool and changes nothing; a miss runs AddDriver with the default image for (Transport, lang); any error but AlreadyInstalled becomes MissingDriver(lang, that error); otherwise the pool the map now holds for lang is returned; a returned pool is always the map's entry for lang; no entry is replaced and only lang can be added |
| `Babelfish.Server.Driver` | server.go:83-100 | the new map and the result are exactly DriverStep of the old map and the current Transport |
| `Babelfish.ParseStep` | server.go:102-117 | uses the request's language when it is non-empty, else the detected one; a driver error gives a Fatal response with no tree and exactly one error string, "error getting driver: " followed by the error's text, which starts with "missing driver for language " and the language; otherwise it returns the driver's response to the unchanged request; no entry is replaced |
| `Babelfish.Server.ParseUAST` | server.go:102-117 | the new map and the response are exactly ParseStep of the old map and the current Transport |
| `Babelfish.Server.Close` | server.go:119-128 | calls Close on the driver of every registered language exactly once; leaves the map as it is; returns the accumulator as written over the results in visiting order, which is nil |
| `Babelfish.CloseAsWrittenIsNil` | server.go:120-127 | the as-written accumulator (a result is kept only if an error is already held) is nil for every sequence of driver results |
| `Babelfish.CloseDropsDriverError` | server.go:122 | one driver whose Close fails: the as-written accumulator gives nil, the intended one gives that driver's error |
| `Babelfish.CloseIntended` | server.go:119-128 | corrected accumulator: nil exactly when every driver closed cleanly, otherwise the first failing driver's error in visiting order |
| `Babelfish.AddDriverOnlyOnce` | server.go:58-80 | after a successful AddDriver of lang, another AddDriver of lang with any image is refused as AlreadyInstalled, and the first pool stays the only one |
| `Babelfish.SequentialMissNeverAlreadyInstalled` | server.go:87-96 | without a concurrent caller, the AddDriver a miss makes never returns AlreadyInstalled; the lookup fails exactly when that AddDriver fails, with MissingDriver wrapping its error, and otherwise returns the new pool |
| `Babelfish.RacedMissReturnsWinner` | server.go:87-96 | when another caller registers lang first, the miss's AddDriver returns AlreadyInstalled; the lookup absorbs it, returns the other caller's pool, and no second pool is created |
| `Babelfish.LookupThenHit` | server.go:84-99 | once a lookup has produced a pool, every later lookup of that language returns the same pool and changes nothing |
| `Babelfish.DetectedLanguageIsServed` | server.go:103-116 | a request with no language, whose detected language is already served, is answered by that pool and the map is unchanged |
| `Babelfish.RunKeepsEveryPool` | server.go:55-117 | over any sequence of AddDriver, Driver and ParseUAST calls, no registered pool is ever replaced or removed, and every newly served language is one that some call asked for |

## Left out

- `Serve` (server.go:40-53): it sets up the gRPC server, logs, and installs the
  server as a process-wide parser. This is network and I/O plumbing.
- The `sync.RWMutex` locking (server.go:29, 56-57, 84-86, 94-96): locks are
  no-ops in this sequential model. Concurrency shows up only in the
  `concurrent` parameter of `Driver` and `ParseUAST`, described above.
- The internals of `runtime.NewDriverImage`, `Runtime.InstallDriver`,
  `ExecDriver`, `StartDriverPool`, `DefaultScalingPolicy`, `DefaultPoolTimeout`,
  `DefaultDriverImageReference` and `GetLanguage`. Their code is not part of
  this model, so they are arbitrary functions, as described above. The scaling
  policy and pool timeout are arguments that `StartDriverPool` receives. They
  are folded into `Provisioning.start`.
- Pool scaling, idle eviction and the worker lifecycle of the driver-pool layer.
  Its code is not part of this model.
- A driver's `ParseUAST` and `Close` are pure functions of the driver handle. The
  model does not track whether a driver is closed, or any other state a driver
  keeps.
- `Server.Close` reports, as ghost outputs, the order it visited the languages
  in and each driver's Close result. That order is `:|` choice over the keys. It stands for
  Go's unspecified map iteration order.
- A pool-start error is modelled as an opaque foreign error
  (`Foreign`), so `ErrAlreadyInstalled.Is` never recognises it. The code of
  `StartDriverPool` is not part of this model.
- Error texts: the kind, its arguments and the "error getting driver: " prefix
  follow server.go:16-18 and 112. The ": " that joins a wrapping error to the
  text of what it wraps is assumed (`Message`), because the go-errors package is
  not part of this model.
- Request content is a `string`, not the byte slice that `GetLanguage` receives.

## Findings

| source | as written | input that shows it | evidently intended | confidence | as-written member | corrected member |
|---|---|---|---|---|---|---|
| server.go:122 | `if cerr := d.Close(); cerr != nil && err != nil { err = cerr }` with `err` starting as nil, so `err` is never set and `Close` always returns nil | a server with one driver whose `Close` returns an error: `Close` returns nil | `cerr != nil && err == nil`: report the first driver error, still closing every driver | high; not executed | `Babelfish.CloseDropsDriverError` | `Babelfish.CloseIntended` |

`Server.Close` keeps the as-written behaviour, because it models the code.
`CloseIntended` is the reference for what a correct `Close` would return for
the same sequence of driver results.
