/**
 * The bridge: the keyed effect of the scanner screen. Whenever the observed
 * slot value differs from the value the effect last ran for (and on the first
 * observation), the effect runs again; if the slot holds a payload it submits
 * one script that calls the page's `window.onBarcodeScanned` with the payload
 * embedded verbatim, unescaped, between single quotes. An absent slot submits
 * nothing. Script results are not consumed.
 */
module Screens {
  import opened Wrappers
  import opened ViewModel

  /** The guard that skips the call when the page has not defined the callback. */
  const Guard: string := "if (window.onBarcodeScanned) "
  /** Everything before the payload. */
  const Prefix: string := Guard + "window.onBarcodeScanned('"
  /** Everything after the payload. */
  const Suffix: string := "');"

  /** The script text submitted for payload `data`. */
  function ScriptFor(data: string): (r: string)
    ensures |r| == |Prefix| + |data| + |Suffix|
    ensures r[..|Guard|] == Guard
    ensures r[..|Prefix|] == Prefix
    ensures r[|Prefix|..|Prefix| + |data|] == data
    ensures r[|r| - |Suffix|..] == Suffix
  {
    Prefix + data + Suffix
  }

  /** Reads the payload back out of a script, when the script has the shape `ScriptFor` produces. */
  function PayloadOf(script: string): (r: Option<string>)
    ensures r.Some? ==> ScriptFor(r.value) == script
  {
    if |script| >= |Prefix| + |Suffix| && script[..|Prefix|] == Prefix && script[|script| - |Suffix|..] == Suffix then
      var data := script[|Prefix|..|script| - |Suffix|];
      assert script == script[..|Prefix|] + data + script[|script| - |Suffix|..];
      Some(data)
    else
      None
  }

  /** Every script carries its payload verbatim: reading it back gives the payload. */
  lemma ScriptRoundTrip(data: string)
    ensures PayloadOf(ScriptFor(data)) == Some(data)
  {
    var script := ScriptFor(data);
    assert script[..|Prefix|] == Prefix;
    assert script[|script| - |Suffix|..] == Suffix;
  }

  /** Distinct payloads give distinct scripts. */
  lemma ScriptForInjective(a: string, b: string)
    requires ScriptFor(a) == ScriptFor(b)
    ensures a == b
  {
    ScriptRoundTrip(a);
    ScriptRoundTrip(b);
  }

  /** The effect body for an observed slot: no script for an absent slot, one for a present payload. */
  function ScriptOf(scannedData: Option<string>): (r: Option<string>)
    ensures r.Some? <==> scannedData.Some?
    ensures r.Some? ==> PayloadOf(r.value) == scannedData
  {
    match scannedData
    case Some(data) =>
      ScriptRoundTrip(data);
      Some(ScriptFor(data))
    case None => None
  }

  /**
   * The scripts one observation submits, given the key the effect last ran
   * for (None before its first run): nothing when the observed value equals
   * that key, otherwise what the effect body submits for it.
   */
  function Emitted(lastKey: Option<Option<string>>, scannedData: Option<string>): (r: seq<string>)
    ensures |r| <= 1
    ensures |r| == 1 <==> lastKey != Some(scannedData) && scannedData.Some?
    ensures |r| == 1 ==> PayloadOf(r[0]) == scannedData
  {
    if lastKey == Some(scannedData) then []
    else
      match ScriptOf(scannedData)
      case Some(script) => [script]
      case None => []
  }

  /** The effect key after a run of observations starting from `lastKey`. */
  function KeyAfter(lastKey: Option<Option<string>>, observed: seq<Option<string>>): Option<Option<string>> {
    if observed == [] then lastKey else Some(observed[|observed| - 1])
  }

  /**
   * All scripts submitted over a run of observations, in order. There are
   * never more scripts than observations, and every script carries a payload
   * that was observed.
   */
  function Submissions(lastKey: Option<Option<string>>, observed: seq<Option<string>>): (r: seq<string>)
    ensures |r| <= |observed|
    ensures forall i :: 0 <= i < |r| ==> PayloadOf(r[i]).Some? && PayloadOf(r[i]) in observed
    decreases |observed|
  {
    if observed == [] then []
    else
      var rest := Submissions(Some(observed[0]), observed[1..]);
      assert forall x :: x in observed[1..] ==> x in observed;
      Emitted(lastKey, observed[0]) + rest
  }

  /** Observing one more value appends exactly what that observation emits. */
  lemma {:induction false} SubmissionsSnoc(lastKey: Option<Option<string>>, observed: seq<Option<string>>, x: Option<string>)
    ensures Submissions(lastKey, observed + [x]) == Submissions(lastKey, observed) + Emitted(KeyAfter(lastKey, observed), x)
    decreases |observed|
  {
    if observed != [] {
      assert (observed + [x])[0] == observed[0];
      assert (observed + [x])[1..] == observed[1..] + [x];
      SubmissionsSnoc(Some(observed[0]), observed[1..], x);
    }
  }

  /**
   * The effect is keyed on the value: observing the same value again right
   * away submits nothing, so two equal consecutive scans yield one script.
   */
  lemma {:induction false} RepeatedObservationSilent(lastKey: Option<Option<string>>, observed: seq<Option<string>>, x: Option<string>)
    ensures Submissions(lastKey, observed + [x, x]) == Submissions(lastKey, observed + [x])
  {
    assert observed + [x, x] == (observed + [x]) + [x];
    SubmissionsSnoc(lastKey, observed + [x], x);
    assert KeyAfter(lastKey, observed + [x]) == Some(x);
  }

  /**
   * When every observation holds a payload and each differs from the one
   * before it (and from the starting key), each one is delivered as exactly
   * one script, in observation order.
   */
  lemma {:induction false} DistinctScansAllDelivered(lastKey: Option<Option<string>>, observed: seq<Option<string>>)
    requires forall i :: 0 <= i < |observed| ==> observed[i].Some?
    requires forall i :: 0 < i < |observed| ==> observed[i] != observed[i - 1]
    requires observed != [] ==> lastKey != Some(observed[0])
    ensures |Submissions(lastKey, observed)| == |observed|
    ensures forall i :: 0 <= i < |observed| ==> Submissions(lastKey, observed)[i] == ScriptFor(observed[i].value)
    decreases |observed|
  {
    if observed != [] {
      var tail := observed[1..];
      if tail != [] {
        assert tail[0] == observed[1];
      }
      DistinctScansAllDelivered(Some(observed[0]), tail);
      var e := Emitted(lastKey, observed[0]);
      assert |e| == 1;
      ScriptRoundTrip(observed[0].value);
      ScriptForInjective(PayloadOf(e[0]).value, observed[0].value);
    }
  }

  /**
   * The remembered state of the scanner screen: the view model it collects
   * from (a shared reference), the key of the last effect run (None before
   * the first run), and, as ghost logs, every slot value it has observed and
   * every script it has handed to the web view's `evaluateJavascript`.
   */
  class ScannerWebView {
    const scannerViewModel: ScannerViewModel
    var lastKey: Option<Option<string>>
    ghost var observed: seq<Option<string>>
    ghost var evaluated: seq<string>

    /** The key is the last observed value, and the scripts are exactly those the keyed effect emits for the observations. */
    ghost predicate Valid()
      reads this
    {
      lastKey == KeyAfter(None, observed) && evaluated == Submissions(None, observed)
    }

    constructor (scannerViewModel: ScannerViewModel)
      ensures Valid() && this.scannerViewModel == scannerViewModel
      ensures observed == [] && evaluated == []
    {
      this.scannerViewModel := scannerViewModel;
      lastKey := None;
      observed := [];
      evaluated := [];
    }

    /**
     * One recomposition with the slot's current value: the keyed effect runs
     * when that value differs from the last key (or on the first run), and
     * then submits a script only when the value is present.
     */
    method Recompose()
      requires Valid()
      modifies this
      ensures Valid()
      ensures lastKey == Some(scannerViewModel.ScannedData())
      ensures observed == old(observed) + [scannerViewModel.ScannedData()]
      ensures evaluated == old(evaluated) + Emitted(old(lastKey), scannerViewModel.ScannedData())
    {
      var scannedData := scannerViewModel.ScannedData();
      SubmissionsSnoc(None, observed, scannedData);
      if lastKey != Some(scannedData) {
        lastKey := Some(scannedData);
        match scannedData {
          case Some(data) =>
            evaluated := evaluated + [ScriptFor(data)];
          case None =>
        }
      }
      observed := observed + [scannedData];
    }
  }
}
