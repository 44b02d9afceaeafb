/** The coverage lifecycle of the plugin exported by lib/index.js: the
    `coverageRunning` flag, the "start coverage" action queued before every
    step, the "take coverage" action queued after every test, and the report
    batches they produce.

    The runner's recorder runs queued actions one at a time, so the actions are
    modelled as events applied in sequence. `pageReady` stands for
    `helper.page && helper.page.coverage` being truthy when the action runs;
    `js` and `css` are what `stopJSCoverage` and `stopCSSCoverage` return. */
module Lifecycle {
  import opened Json
  import opened Adapters

  datatype Event =
    | StepBefore(pageReady: bool)
    | TestAfter(pageReady: bool, js: seq<Fields>, css: seq<Fields>)
    | AllAfter

  /** The plugin's state and what it has asked of its collaborators so far:
      the start requests sent to the driver, the number of stop calls, the
      batches added to the coverage report, and the number of `generate`
      requests. */
  datatype State = State(
    running: bool,
    starts: seq<StartRequest>,
    takes: nat,
    report: seq<seq<Fields>>,
    generates: nat)

  const Initial := State(false, [], 0, [], 0)

  /** Every start is matched by one later take, except the one of a capture
      still running, and every take adds exactly one batch. */
  ghost predicate Consistent(s: State)
  {
    |s.starts| == s.takes + (if s.running then 1 else 0) &&
    s.takes == |s.report|
  }

  /** One queued action of the plugin, run against state `s`. */
  function Next(b: Backend, s: State, e: Event): State
  {
    match e
    case StepBefore(ready) =>
      if s.running || !ready then s
      else s.(running := true, starts := s.starts + [StartRequestFor(b)])
    case TestAfter(ready, js, css) =>
      if !s.running || !ready then s
      else s.(running := false, takes := s.takes + 1, report := s.report + [Batch(b, js, css)])
    case AllAfter =>
      s.(generates := s.generates + 1)
  }

  /** The actions of a whole run, in order. */
  function Run(b: Backend, s: State, es: seq<Event>): State
    decreases |es|
  {
    if es == [] then s else Run(b, Next(b, s, es[0]), es[1..])
  }

  /** All records handed to the report, batch after batch. */
  function Records(report: seq<seq<Fields>>): seq<Fields>
  {
    if report == [] then [] else report[0] + Records(report[1..])
  }

  lemma {:induction false} RecordsAppend(report: seq<seq<Fields>>, batch: seq<Fields>)
    ensures Records(report + [batch]) == Records(report) + batch
  {
    if report == [] {
      assert [] + [batch] == [batch];
      assert Records([batch][1..]) == [];
    } else {
      assert (report + [batch])[1..] == report[1..] + [batch];
      RecordsAppend(report[1..], batch);
    }
  }

  /** A start action while coverage is running changes nothing: no start
      call, the flag stays set. */
  lemma StartWhileRunningIsNoOp(b: Backend, s: State, ready: bool)
    requires s.running
    ensures Next(b, s, StepBefore(ready)) == s
  {
  }

  /** A start action with no page or no `page.coverage` changes nothing, so
      the flag stays clear and the next step tries again. */
  lemma StartWithoutPageIsNoOp(b: Backend, s: State)
    ensures Next(b, s, StepBefore(false)) == s
    ensures !s.running ==> Next(b, Next(b, s, StepBefore(false)), StepBefore(true)).running
  {
  }

  /** A start action that finds the page ready while idle sets the flag and
      makes exactly one start call, with the backend's options. */
  lemma StartWhenIdle(b: Backend, s: State)
    requires !s.running
    ensures Next(b, s, StepBefore(true)).running
    ensures Next(b, s, StepBefore(true)).starts == s.starts + [StartRequestFor(b)]
    ensures Next(b, s, StepBefore(true)).report == s.report
  {
  }

  /** A take action while coverage is not running makes no stop call and adds
      no batch. */
  lemma TakeWhileIdleIsNoOp(b: Backend, s: State, ready: bool, js: seq<Fields>, css: seq<Fields>)
    requires !s.running
    ensures Next(b, s, TestAfter(ready, js, css)) == s
  {
  }

  /** A take action while running with the page ready clears the flag, makes
      one stop call and adds exactly one batch holding every harvested entry. */
  lemma TakeWhenRunning(b: Backend, s: State, js: seq<Fields>, css: seq<Fields>)
    requires s.running
    ensures !Next(b, s, TestAfter(true, js, css)).running
    ensures Next(b, s, TestAfter(true, js, css)).takes == s.takes + 1
    ensures Next(b, s, TestAfter(true, js, css)).report == s.report + [Batch(b, js, css)]
    ensures |Records(Next(b, s, TestAfter(true, js, css)).report)| == |Records(s.report)| + |js| + |css|
  {
    RecordsAppend(s.report, Batch(b, js, css));
  }

  /** A take action while running but with no page leaves the flag set and
      adds nothing, so the start actions that follow stay no-ops. */
  lemma TakeWithoutPageKeepsRunning(b: Backend, s: State, js: seq<Fields>, css: seq<Fields>, ready: bool)
    requires s.running
    ensures Next(b, s, TestAfter(false, js, css)) == s
    ensures Next(b, Next(b, s, TestAfter(false, js, css)), StepBefore(ready)) == s
  {
  }

  lemma NextKeepsConsistent(b: Backend, s: State, e: Event)
    requires Consistent(s)
    ensures Consistent(Next(b, s, e))
  {
  }

  /** Over any run, starts and takes alternate: the start calls outnumber the
      stop calls by one while coverage runs and equal them otherwise, and the
      report holds one batch per stop call. */
  lemma {:induction false} RunKeepsConsistent(b: Backend, s: State, es: seq<Event>)
    requires Consistent(s)
    ensures Consistent(Run(b, s, es))
    decreases |es|
  {
    if es != [] {
      NextKeepsConsistent(b, s, es[0]);
      RunKeepsConsistent(b, Next(b, s, es[0]), es[1..]);
    }
  }

  /** Any run of consecutive step actions makes at most one start call and
      adds nothing to the report; it makes one exactly when coverage was idle
      and some step found the page ready, and then coverage is running. */
  lemma {:induction false} StepsStartAtMostOnce(b: Backend, s: State, es: seq<Event>)
    requires forall i :: 0 <= i < |es| ==> es[i].StepBefore?
    ensures Run(b, s, es).report == s.report && Run(b, s, es).takes == s.takes
    ensures Run(b, s, es).running <==> s.running || exists i :: 0 <= i < |es| && es[i].pageReady
    ensures Run(b, s, es).starts ==
      if !s.running && Run(b, s, es).running then s.starts + [StartRequestFor(b)] else s.starts
    decreases |es|
  {
    if es != [] {
      var t := Next(b, s, es[0]);
      assert forall i :: 1 <= i < |es| ==> es[1..][i - 1] == es[i];
      StepsStartAtMostOnce(b, t, es[1..]);
      if Run(b, t, es[1..]).running && !s.running && !t.running {
        var i :| 0 <= i < |es[1..]| && es[1..][i].pageReady;
        assert es[i + 1].pageReady;
      }
    }
  }

  /** From the plugin's initial state, a run never ends with more than one
      capture open, and every batch in the report came from its own stop
      call. */
  lemma InitialRun(b: Backend, es: seq<Event>)
    ensures Consistent(Run(b, Initial, es))
    ensures |Run(b, Initial, es).starts| <= |Run(b, Initial, es).report| + 1
    ensures Run(b, Initial, es).running ==>
      |Run(b, Initial, es).starts| == |Run(b, Initial, es).report| + 1
    ensures !Run(b, Initial, es).running ==>
      |Run(b, Initial, es).starts| == |Run(b, Initial, es).report|
  {
    RunKeepsConsistent(b, Initial, es);
  }

  /** The plugin's state for the helper it drives; the closure of the exported
      function in lib/index.js. */
  class Controller {
    const backend: Backend
    var coverageRunning: bool
    var report: seq<seq<Fields>>
    ghost var starts: seq<StartRequest>
    ghost var takes: nat
    ghost var generates: nat

    ghost function Snapshot(): State
      reads this
    {
      State(coverageRunning, starts, takes, report, generates)
    }

    ghost predicate Valid()
      reads this
    {
      Consistent(Snapshot())
    }

    constructor (b: Backend)
      ensures backend == b && Valid() && Snapshot() == Initial
    {
      backend := b;
      coverageRunning := false;
      report := [];
      starts := [];
      takes := 0;
      generates := 0;
    }

    /** The "start coverage" action queued on `step.before`. */
    method OnStepBefore(pageReady: bool)
      requires Valid()
      modifies this
      ensures Valid()
      ensures Snapshot() == Next(backend, old(Snapshot()), StepBefore(pageReady))
      ensures coverageRunning <==> old(coverageRunning) || pageReady
      ensures report == old(report) && takes == old(takes)
    {
      if coverageRunning {
        return;
      }
      if !pageReady {
        return;
      }
      coverageRunning := true;
      starts := starts + [StartRequestFor(backend)];
    }

    /** The "take coverage" action queued on `test.after`. */
    method OnTestAfter(pageReady: bool, js: seq<Fields>, css: seq<Fields>)
      requires Valid()
      modifies this
      ensures Valid()
      ensures Snapshot() == Next(backend, old(Snapshot()), TestAfter(pageReady, js, css))
      ensures coverageRunning <==> old(coverageRunning) && !pageReady
      ensures starts == old(starts)
      ensures report == if old(coverageRunning) && pageReady then old(report) + [Batch(backend, js, css)] else old(report)
    {
      if !coverageRunning {
        return;
      }
      if !pageReady {
        return;
      }
      coverageRunning := false;
      takes := takes + 1;
      report := report + [Batch(backend, js, css)];
    }

    /** The `all.after` handler: asks the report to generate. */
    method OnAllAfter()
      requires Valid()
      modifies this
      ensures Valid()
      ensures Snapshot() == Next(backend, old(Snapshot()), AllAfter)
    {
      generates := generates + 1;
    }
  }

  /** The exported plugin function: with no supported helper registered it
      subscribes to nothing and builds no report; otherwise it drives the
      first supported helper, starting idle with an empty report. */
  method Install(helperKeys: seq<string>) returns (c: Controller?)
    ensures c == null <==> SelectHelper(helperKeys).None?
    ensures c != null ==>
      fresh(c) && c.backend == SelectHelper(helperKeys).value &&
      c.Valid() && c.Snapshot() == Initial
  {
    var helperName := SelectHelper(helperKeys);
    if helperName.None? {
      return null;
    }
    c := new Controller(helperName.value);
  }
}
