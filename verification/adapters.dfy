/** The per-backend coverage helpers of lib/index.js: which registered
    CodeceptJS helper the plugin drives, what it asks the driver for when
    coverage starts, and how the harvested JS and CSS entries become the one
    batch handed to the coverage report. */
module Adapters {
  import opened Json

  /** The keys of `v8CoverageHelpers`, in declaration order. */
  datatype Backend = Playwright | Puppeteer

  function Name(b: Backend): string
  {
    match b
    case Playwright => "Playwright"
    case Puppeteer => "Puppeteer"
  }

  /** `v8Names.includes(name)`, answered with the backend of that name. */
  function BackendNamed(name: string): (r: Option<Backend>)
    ensures r.Some? ==> Name(r.value) == name
    ensures r.None? <==> forall b: Backend :: Name(b) != name
  {
    if name == "Playwright" then Some(Playwright)
    else if name == "Puppeteer" then Some(Puppeteer)
    else None
  }

  predicate Supported(name: string)
  {
    BackendNamed(name).Some?
  }

  /** The plugin chooses its backend as the first key of the registered
      helpers (in their key order) that names a supported backend, and
      nothing when no key does. */
  function SelectHelper(keys: seq<string>): (r: Option<Backend>)
    ensures r.None? <==> forall i :: 0 <= i < |keys| ==> !Supported(keys[i])
    ensures r.Some? ==>
      exists i :: 0 <= i < |keys| && keys[i] == Name(r.value) &&
        forall j :: 0 <= j < i ==> !Supported(keys[j])
  {
    if keys == [] then None
    else if Supported(keys[0]) then BackendNamed(keys[0])
    else
      var rest := SelectHelper(keys[1..]);
      assert forall i :: 1 <= i < |keys| ==> keys[i] == keys[1..][i - 1];
      rest
  }

  /** The options of the two `start...Coverage` calls of one backend. */
  datatype StartRequest = StartRequest(
    jsResetOnNavigation: bool,
    jsIncludeRawScriptCoverage: bool,
    cssResetOnNavigation: bool)

  /** Both backends keep coverage across navigations; only Puppeteer asks for
      the raw V8 script coverage its batch is built from (an option that is
      absent reads as false). */
  function StartRequestFor(b: Backend): (r: StartRequest)
    ensures !r.jsResetOnNavigation && !r.cssResetOnNavigation
    ensures r.jsIncludeRawScriptCoverage <==> b == Puppeteer
  {
    match b
    case Playwright => StartRequest(false, false, false)
    case Puppeteer => StartRequest(false, true, false)
  }

  /** `{source: it.text, ...it.rawScriptCoverage}` for one Puppeteer JS entry:
      the record has a `source` property and every property of the raw script
      coverage, and a `source` of the raw coverage wins over the text. */
  function ToRawV8(it: Fields): (r: Fields)
    ensures "source" in r
    ensures forall k :: k in r <==> k == "source" || k in Spread(Get(it, "rawScriptCoverage"))
    ensures forall k :: k in Spread(Get(it, "rawScriptCoverage")) ==>
      r[k] == Spread(Get(it, "rawScriptCoverage"))[k]
    ensures "source" !in Spread(Get(it, "rawScriptCoverage")) ==> r["source"] == Get(it, "text")
    ensures !Get(it, "rawScriptCoverage").Object? ==> r == map["source" := Get(it, "text")]
  {
    map["source" := Get(it, "text")] + Spread(Get(it, "rawScriptCoverage"))
  }

  /** `jsCoverage.map(ToRawV8)`: one record per entry, in the same order. */
  function RawV8List(js: seq<Fields>): (r: seq<Fields>)
    ensures |r| == |js|
    ensures forall i :: 0 <= i < |js| ==> r[i] == ToRawV8(js[i])
  {
    if js == [] then [] else [ToRawV8(js[0])] + RawV8List(js[1..])
  }

  /** Playwright hands over its JS entries and then its CSS entries, untouched. */
  function PlaywrightBatch(js: seq<Fields>, css: seq<Fields>): (r: seq<Fields>)
    ensures |r| == |js| + |css|
    ensures r[..|js|] == js && r[|js|..] == css
  {
    js + css
  }

  /** Puppeteer hands over one raw V8 record per JS entry, in order, and then
      its CSS entries, untouched. */
  function PuppeteerBatch(js: seq<Fields>, css: seq<Fields>): (r: seq<Fields>)
    ensures |r| == |js| + |css|
    ensures forall i :: 0 <= i < |js| ==> r[i] == ToRawV8(js[i])
    ensures r[|js|..] == css
  {
    RawV8List(js) + css
  }

  /** The batch `takeCoverage` adds to the report for the given backend. */
  function Batch(b: Backend, js: seq<Fields>, css: seq<Fields>): (r: seq<Fields>)
    ensures |r| == |js| + |css|
    ensures r[|js|..] == css
    ensures b == Playwright ==> r[..|js|] == js
    ensures b == Puppeteer ==> forall i :: 0 <= i < |js| ==> r[i] == ToRawV8(js[i])
  {
    match b
    case Playwright => PlaywrightBatch(js, css)
    case Puppeteer => PuppeteerBatch(js, css)
  }

  /** Selecting over keys that start with unsupported names is selecting over
      the rest: unrelated helpers registered first change nothing. */
  lemma {:induction false} SelectHelperSkipsUnsupported(pre: seq<string>, keys: seq<string>)
    requires forall i :: 0 <= i < |pre| ==> !Supported(pre[i])
    ensures SelectHelper(pre + keys) == SelectHelper(keys)
  {
    if pre != [] {
      assert (pre + keys)[0] == pre[0];
      assert (pre + keys)[1..] == pre[1..] + keys;
      SelectHelperSkipsUnsupported(pre[1..], keys);
    } else {
      assert pre + keys == keys;
    }
  }
}
