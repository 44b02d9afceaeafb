# codeceptjs-monocart-coverage: the coverage lifecycle plugin, in Dafny

The plugin in `lib/index.js` collects V8 coverage for every CodeceptJS test
and hands it to a monocart `CoverageReport`. It does three things:

- It picks the backend to drive. This is the first registered CodeceptJS
  helper whose name is `Playwright` or `Puppeteer`. With none, it does nothing
  at all.
- It keeps one flag, `coverageRunning`. A "start coverage" action is queued
  before every step and a "take coverage" action after every test. Each action
  checks the flag and whether the page offers `page.coverage`.
- It turns the JS and CSS entries harvested from the driver into one batch for
  the report. Playwright passes them through. Puppeteer turns each JS entry
  into raw V8 script coverage, `{source: text, ...rawScriptCoverage}`.

The project has three modules:

- `Json` (`json.dfy`): JavaScript values and objects. An object is a map from
  property names to values. `Get` reads a property; a missing one is
  `undefined`. `Spread` gives the properties that `...v` adds to a literal.
- `Adapters` (`adapters.dfy`): the backends and their names, helper
  selection, the start options, and batch normalisation. These are pure
  functions with contracts and lemmas.
- `Lifecycle` (`lifecycle.dfy`): the state machine.
  - `Next` is one queued action as a pure transition. `Run` applies a whole
    sequence of actions.
  - Lemmas give the guards and the run-level invariant.
  - The class `Controller` holds the closure state (`coverageRunning`, the
    report batches, and ghost logs of start, stop and generate calls). Its
    methods are proved to perform exactly `Next`.
  - `Install` is the exported plugin function.

The runner's recorder runs queued actions one at a time, so the actions are
applied in sequence. "Page ready" means `helper.page && helper.page.coverage`
is truthy when the action runs. The stop calls' results are parameters.

## Behaviour worth knowing

- A take action that finds coverage running but no page, or no
  `page.coverage`, returns early and leaves the flag set
  (lib/index.js:118-120). The start actions that follow are then no-ops, and
  the next take with a ready page stops coverage on whatever page is current
  then (`TakeWithoutPageKeepsRunning`).
- There is no error handling. The flag is set before the start call and
  cleared before the stop call, whatever those calls do (lib/index.js:107-108,
  121-122).
- Only Playwright and Puppeteer are supported, both through `page.coverage`.

## Model

| member | source | states |
|---|---|---|
| `Adapters.BackendNamed` | lib/index.js:76-77 | a name is supported exactly when it is the name of some backend, and then the answer is that backend |
| `Adapters.SelectHelper` | lib/index.js:76-82 | the result is none exactly when no registered key is supported; otherwise it is the backend named by a registered key that has no supported key before it |
| `Adapters.SelectHelperSkipsUnsupported` | lib/index.js:77 | unsupported helpers registered before the rest do not change the selection |
| `Adapters.StartRequestFor` | lib/index.js:24-53 | both backends start JS and CSS coverage without reset on navigation; only Puppeteer asks for raw script coverage |
| `Adapters.ToRawV8` | lib/index.js:61-66 | the record has `source` plus exactly the properties of `rawScriptCoverage`, each with its value; `source` is the entry's `text` unless the raw coverage has its own `source`; a missing or non-object raw coverage leaves only `source` |
| `Adapters.RawV8List` | lib/index.js:61 | one record per JS entry, the i-th record being the normalised i-th entry |
| `Adapters.PlaywrightBatch` | lib/index.js:34-40 | the batch is the JS entries and then the CSS entries, unchanged, of length the sum |
| `Adapters.PuppeteerBatch` | lib/index.js:55-67 | the batch has length the sum; its first part is the normalised JS entries in order and the rest is the CSS entries unchanged |
| `Adapters.Batch` | lib/index.js:34-68 | the batch added for either backend keeps every entry: length the sum, CSS last and unchanged, JS first per backend |
| `Lifecycle.RecordsAppend` | lib/index.js:40 | adding a batch to the report extends the flat list of records by exactly that batch |
| `Lifecycle.StartWhileRunningIsNoOp` | lib/index.js:101-103 | a start action while coverage runs leaves the whole state unchanged, with no start call |
| `Lifecycle.StartWithoutPageIsNoOp` | lib/index.js:104-106 | a start action without a ready page changes nothing, and a later step with the page ready does start coverage |
| `Lifecycle.StartWhenIdle` | lib/index.js:107-108 | a start action while idle with the page ready sets the flag, makes exactly one start call with the backend's options, and leaves the report alone |
| `Lifecycle.TakeWhileIdleIsNoOp` | lib/index.js:115-117 | a take action while idle makes no stop call and adds no batch |
| `Lifecycle.TakeWhenRunning` | lib/index.js:118-122 | a take action while running with the page ready clears the flag, makes one stop call and adds exactly one batch, so the report gains exactly `|js| + |css|` records |
| `Lifecycle.TakeWithoutPageKeepsRunning` | lib/index.js:118-120 | a take action while running without a ready page changes nothing, and the start action after it changes nothing either |
| `Lifecycle.NextKeepsConsistent` | lib/index.js:99-124 | every action keeps the start calls equal to the stop calls plus one while running, and the batches equal to the stop calls |
| `Lifecycle.RunKeepsConsistent` | lib/index.js:99-124 | the same balance holds after any sequence of actions |
| `Lifecycle.StepsStartAtMostOnce` | lib/index.js:99-110 | a run of consecutive step actions makes at most one start call and touches no report; it makes one exactly when coverage was idle and some step found the page ready, and coverage then runs |
| `Lifecycle.InitialRun` | lib/index.js:74 | from the initial state, every run keeps the start/stop/batch balance: at most one capture open, one unmatched start exactly while running, equal starts and batches when idle, one batch per stop call |
| `Lifecycle.Controller.constructor` | lib/index.js:74 | the flag starts clear, the report starts empty, and no calls have been made |
| `Lifecycle.Controller.OnStepBefore` | lib/index.js:99-110 | the new state is one start action applied to the old one; the flag is set exactly when it was set or the page is ready; the report is untouched |
| `Lifecycle.Controller.OnTestAfter` | lib/index.js:113-124 | the new state is one take action applied to the old one; the flag stays set only when it was set and the page was not ready; the report gains the batch exactly when a capture was running and the page was ready |
| `Lifecycle.Controller.OnAllAfter` | lib/index.js:93-95 | the `all.after` handler records one more generate request and changes nothing else |
| `Lifecycle.Install` | lib/index.js:72-92 | no controller, hence no subscription and no report, exactly when no registered helper is supported; otherwise a fresh idle controller with an empty report for the selected backend |

## Left out

- The driver calls `startJSCoverage`, `startCSSCoverage`, `stopJSCoverage`
  and `stopCSSCoverage` are foreign. A start is recorded as its options
  (`StartRequestFor`). What the stop calls return is given to the take action
  as its `js` and `css` parameters.
- `CoverageReport` is a foreign library. `add` is modelled as appending a
  batch to the report sequence. `generate` is modelled only as a count of
  requests. The `cleanCache` call at installation and the copy of
  `coverageOptions` given to its constructor have no effect on this model's
  state and are left out.
- The `console.error` message for an unsupported setup is output only; the
  model gives no controller in that case.
- The event dispatcher, the recorder queue and its third argument, and the
  `Promise.all` pairs are host plumbing. Actions are applied one at a time,
  in the order the recorder runs them.
- A rejected driver or report call is not modelled. The code has no error
  handling: the flag is already set (start) or cleared (stop) when the call
  is made, and the rejection goes to the runner.
- `Json.Spread` gives no properties for a string or an array, although in
  JavaScript those spread their indices. Puppeteer's `rawScriptCoverage` is an
  object or absent, so this case does not arise here.
- Page identity is not modelled: readiness is one boolean per action. When a
  take leaves the flag set because the page was missing, the model gives the
  next ready take an ordinary batch of what the stop calls return, although
  coverage was never started on that page; what the driver returns or throws
  then is not part of this model.
- JavaScript numbers are modelled as integers. The plugin only copies them.
- Helper keys are taken in the order given. JavaScript puts integer-like keys
  first, but helper names are never integer-like.
- `codecept.conf.js` is static configuration and is not part of this model.
