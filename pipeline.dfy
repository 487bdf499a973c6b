/**
 * The three parts composed: a broadcast reaches the view model through the
 * receiver, and the screen's keyed effect, which last ran for the slot's
 * previous value, observes the new value.
 */
module Pipeline {
  import opened Wrappers
  import opened ViewModel
  import opened Scanning
  import opened Screens

  /**
   * What the page receives for one broadcast, when the effect last ran for
   * the slot's value before the broadcast. A matching broadcast whose payload
   * differs from that value yields exactly the script for the payload (the
   * empty payload included); a non-matching broadcast, or a repeat of the
   * value already shown, yields nothing.
   */
  lemma BroadcastToScript(config: ScanningConfig, intent: Intent, slot: Option<string>)
    ensures var after := ApplyAll(slot, WritesFor(intent, config));
            var sent := Emitted(Some(slot), after);
            (intent.action != Some(config.appScannerIntent) ==> after == slot && sent == []) &&
            (intent.action == Some(config.appScannerIntent) ==>
               after == DecodedPayload(intent, config) &&
               (slot == after ==> sent == []) &&
               (slot != after ==> sent == [ScriptFor(after.value)]))
  {
    var after := ApplyAll(slot, WritesFor(intent, config));
    if intent.action == Some(config.appScannerIntent) {
      LastWriteWins(slot, WritesFor(intent, config));
      var sent := Emitted(Some(slot), after);
      if slot != after {
        ScriptRoundTrip(after.value);
        ScriptForInjective(PayloadOf(sent[0]).value, after.value);
      }
    }
  }
}
