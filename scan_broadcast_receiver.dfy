/**
 * The event listener: a broadcast receiver that accepts only the configured
 * scan action, reads the decoded barcode from one string extra (an empty
 * string when that extra is missing) and writes it into the view model it
 * holds, if any. Every other broadcast is ignored.
 */
module Scanning {
  import opened Wrappers
  import opened ViewModel

  /**
   * The two configuration constants the receiver reads: the broadcast action
   * it accepts (`APP_SCANNER_INTENT`) and the name of the extra carrying the
   * decoded data (`ZEBRA_SCANNER_INTENT`). Their values are configuration.
   */
  datatype ScanningConfig = ScanningConfig(appScannerIntent: string, zebraScannerIntent: string)

  /** A value in an intent's extras bundle: a string, or a value of some other type. */
  datatype Extra = Str(s: string) | NonString

  /** A received broadcast: its (nullable) action and its extras. */
  datatype Intent = Intent(action: Option<string>, extras: map<string, Extra>)

  /** `Intent.getStringExtra`: the named extra when it is present and holds a string, otherwise null. */
  function GetStringExtra(intent: Intent, name: string): (r: Option<string>)
    ensures r.Some? <==> name in intent.extras && intent.extras[name].Str?
    ensures r.Some? ==> intent.extras[name] == Str(r.value)
  {
    if name in intent.extras then
      match intent.extras[name]
      case Str(s) => Some(s)
      case NonString => None
    else None
  }

  /**
   * The payload `onReceive` forwards to the view model, or None when it
   * ignores the broadcast. The broadcast is accepted exactly when its action
   * is present and equals the configured scan action; the payload is then the
   * string extra, or "" when that extra is missing or not a string.
   */
  function DecodedPayload(intent: Intent, config: ScanningConfig): (r: Option<string>)
    ensures r.Some? <==> intent.action == Some(config.appScannerIntent)
    ensures r.Some? && config.zebraScannerIntent in intent.extras && intent.extras[config.zebraScannerIntent].Str? ==>
              r.value == intent.extras[config.zebraScannerIntent].s
    ensures r.Some? && !(config.zebraScannerIntent in intent.extras && intent.extras[config.zebraScannerIntent].Str?) ==>
              r.value == ""
  {
    if intent.action.Some? && intent.action.value == config.appScannerIntent then
      Some(GetStringExtra(intent, config.zebraScannerIntent).GetOr(""))
    else
      None
  }

  /** The writes one broadcast makes to the slot: none, or exactly one update. */
  function WritesFor(intent: Intent, config: ScanningConfig): (ops: seq<SlotOp>)
    ensures |ops| <= 1
    ensures |ops| == 1 <==> intent.action == Some(config.appScannerIntent)
    ensures |ops| == 1 ==> ops[0].Update? && Some(ops[0].data) == DecodedPayload(intent, config)
  {
    match DecodedPayload(intent, config)
    case Some(data) => [Update(data)]
    case None => []
  }

  /** Only the action and the payload extra are inspected: changing any other extra changes nothing. */
  lemma OtherExtrasIgnored(intent: Intent, config: ScanningConfig, name: string, v: Extra)
    requires name != config.zebraScannerIntent
    ensures DecodedPayload(intent.(extras := intent.extras[name := v]), config) == DecodedPayload(intent, config)
  {
  }

  /** The receiver. `scannerViewModel` is null when it was built without one. */
  class ScanBroadcastReceiver {
    var scannerViewModel: ScannerViewModel?

    /** The no-argument constructor: no view model, so every broadcast is dropped. */
    constructor Detached()
      ensures scannerViewModel == null
    {
      scannerViewModel := null;
    }

    /** Stores the reference itself: later updates land in the caller's holder. */
    constructor (scannerViewModel: ScannerViewModel)
      ensures this.scannerViewModel == scannerViewModel
    {
      this.scannerViewModel := scannerViewModel;
    }

    /**
     * `onReceive`: never fails. A matching broadcast makes exactly one update
     * of the held view model's slot; anything else, or a missing view model,
     * leaves every slot as it was.
     */
    method OnReceive(config: ScanningConfig, intent: Intent)
      requires scannerViewModel != null ==> scannerViewModel.Valid()
      modifies if scannerViewModel == null then {} else {scannerViewModel}
      ensures scannerViewModel != null ==> scannerViewModel.Valid()
      ensures scannerViewModel != null ==>
                scannerViewModel.history == old(scannerViewModel.history) + WritesFor(intent, config)
      ensures scannerViewModel != null && intent.action == Some(config.appScannerIntent) ==>
                scannerViewModel.ScannedData() == DecodedPayload(intent, config)
      ensures scannerViewModel != null && intent.action != Some(config.appScannerIntent) ==>
                scannerViewModel.ScannedData() == old(scannerViewModel.ScannedData())
    {
      var action := intent.action;
      if action.Some? && action.value == config.appScannerIntent {
        var decodedData := GetStringExtra(intent, config.zebraScannerIntent);
        if scannerViewModel != null {
          scannerViewModel.UpdateScannedData(decodedData.GetOr(""));
        }
      }
    }
  }
}
