# Zebra WebView scan pipeline — a Dafny model

This project models the path a hardware barcode scan takes in the Zebra WebView Android app. The app shows one web page. A scan reaches the page in three steps:

- **State holder** (`ViewModel`, file `scanner_view_model.dfy`). `ScannerViewModel` holds one optional slot. The slot starts absent. `UpdateScannedData` overwrites it with a string. `ClearScannedData` resets it to absent. `ScannedData()` is the public read view of that same slot. A ghost `history` records every write. `Valid()` ties the slot to the fold `ApplyAll(None, history)`, so lemmas about the fold apply to the object.
- **Event listener** (`Scanning`, file `scan_broadcast_receiver.dfy`). `ScanBroadcastReceiver.OnReceive` accepts a broadcast only when its action is present and equals the configured scan action. It then reads the payload string extra, using `""` when the extra is missing. It writes the result into the view model it holds. If it holds no view model, nothing changes. Any other action is ignored.
- **Bridge** (`Screens`, file `scanner_web_view.dfy`). This is the keyed effect of the scanner screen. For a present slot value `d`, the script is `if (window.onBarcodeScanned) window.onBarcodeScanned('<d>');`, with `d` embedded verbatim. An absent slot produces no script. `ScannerWebView.Recompose` runs the effect only on the first observation and when the observed value differs from the previous key. Each run appends at most one script to a ghost log of what was passed to `evaluateJavascript`.
- `Pipeline` (file `pipeline.dfy`) composes the three parts for one broadcast.

The scanning configuration constants (`ScanningConfig.APP_SCANNER_INTENT` and `ScanningConfig.ZEBRA_SCANNER_INTENT`) are not part of this model's sources. They are a `ScanningConfig` value passed to `OnReceive`. An intent's extras are a map from names to `Extra`. An `Extra` is a string or a value of another type, because `getStringExtra` also returns null for a present non-string extra.

Where the code and the system's design description disagree, the model follows the code:
- **No escaping.** The design asks for the payload to be escaped. The code embeds it verbatim, so the model does too (`ScriptFor`).
- **Callback name.** The design writes the callback as `onBarcodeScanned`. The code calls `window.onBarcodeScanned`.
- **No notification for a repeated value.** The design asks for a notification on every set, even when the value is unchanged. The code uses a state flow and an effect keyed on the value, and neither re-fires for an equal value. So two equal consecutive scans produce one script (`RepeatedObservationSilent`, `Pipeline.BroadcastToScript`).

## Model

| member | source | states |
|---|---|---|
| ViewModel.ScannerViewModel.constructor | app/src/main/java/com/stankovic/zebrawebview/viewmodel/ScannerViewModel.kt:8-9 | The slot, read through the public view, starts absent, with an empty write history. |
| ViewModel.ScannerViewModel.UpdateScannedData | app/src/main/java/com/stankovic/zebrawebview/viewmodel/ScannerViewModel.kt:11-13 | Afterwards the slot holds exactly `data`, so it is never absent. The write is appended to the history, and the invariant tying the slot to the history holds. |
| ViewModel.ScannerViewModel.ClearScannedData | app/src/main/java/com/stankovic/zebrawebview/viewmodel/ScannerViewModel.kt:15-17 | Afterwards the slot is absent, whatever it held. The clear is appended to the history. |
| ViewModel.ApplyAllAppend | app/src/main/java/com/stankovic/zebrawebview/viewmodel/ScannerViewModel.kt:11-17 | Applying two write sequences in turn is the same as applying their concatenation. |
| ViewModel.LastWriteWins | app/src/main/java/com/stankovic/zebrawebview/viewmodel/ScannerViewModel.kt:12-16 | After any non-empty write sequence, the slot is the last update's string, or absent if the last write was a clear. |
| ViewModel.HistoryIrrelevant | app/src/main/java/com/stankovic/zebrawebview/viewmodel/ScannerViewModel.kt:12 | The slot keeps no history. Two slots that receive the same non-empty write sequence end up equal. |
| ViewModel.RepeatedWriteAbsorbed | app/src/main/java/com/stankovic/zebrawebview/viewmodel/ScannerViewModel.kt:12-16 | Doing a write twice in a row (`update(d)` twice, or `clear` twice) leaves the same slot as doing it once, anywhere in a history. |
| Scanning.GetStringExtra | app/src/main/java/com/stankovic/zebrawebview/scanning/ScanBroadcastReceiver.kt:22 | The extra is returned exactly when it is present and holds a string. Otherwise the result is null. |
| Scanning.DecodedPayload | app/src/main/java/com/stankovic/zebrawebview/scanning/ScanBroadcastReceiver.kt:19-23 | A broadcast is accepted if and only if its action is non-null and equals the configured scan action. The accepted payload is the string extra, or `""` when the extra is absent or not a string. |
| Scanning.WritesFor | app/src/main/java/com/stankovic/zebrawebview/scanning/ScanBroadcastReceiver.kt:21-24 | A broadcast causes either no write or exactly one update. It causes the update if and only if the action matches, and the update carries the decoded payload. |
| Scanning.OtherExtrasIgnored | app/src/main/java/com/stankovic/zebrawebview/scanning/ScanBroadcastReceiver.kt:19-22 | Changing or adding an extra other than the payload key leaves the decoded payload unchanged. |
| Scanning.ScanBroadcastReceiver.Detached | app/src/main/java/com/stankovic/zebrawebview/scanning/ScanBroadcastReceiver.kt:12 | A receiver built with no argument holds no view model. |
| Scanning.ScanBroadcastReceiver.constructor | app/src/main/java/com/stankovic/zebrawebview/scanning/ScanBroadcastReceiver.kt:14-16 | The receiver holds the given view model itself, not a copy. |
| Scanning.ScanBroadcastReceiver.OnReceive | app/src/main/java/com/stankovic/zebrawebview/scanning/ScanBroadcastReceiver.kt:18-25 | Has no precondition on the broadcast. With a view model held, a matching action makes the slot the decoded payload (`""` for a missing extra, never absent, never the old value). Any other action leaves the slot unchanged. Exactly the writes of `WritesFor` are appended to the history. Without a view model, the method may change nothing. |
| Screens.ScriptFor | app/src/main/java/com/stankovic/zebrawebview/screens/ScannerWebView.kt:71 | The script starts with the guard `if (window.onBarcodeScanned) ` and the call prefix. It ends with `');`. The payload appears verbatim in between, and the length is a fixed constant plus the payload's length. |
| Screens.PayloadOf | app/src/main/java/com/stankovic/zebrawebview/screens/ScannerWebView.kt:71 | Inverse of the script template: every payload it extracts rebuilds the given script exactly. |
| Screens.ScriptRoundTrip | app/src/main/java/com/stankovic/zebrawebview/screens/ScannerWebView.kt:71 | Extracting the payload from the script for `d` gives back `d`, for every `d`, including `""` and payloads containing quotes. |
| Screens.ScriptForInjective | app/src/main/java/com/stankovic/zebrawebview/screens/ScannerWebView.kt:71 | Distinct payloads give distinct scripts. |
| Screens.ScriptOf | app/src/main/java/com/stankovic/zebrawebview/screens/ScannerWebView.kt:69-74 | The effect body produces a script if and only if the slot is present, and that script carries the slot's payload. |
| Screens.Emitted | app/src/main/java/com/stankovic/zebrawebview/screens/ScannerWebView.kt:68-75 | One observation submits at most one script. It submits one exactly when the value differs from the last key and is present, and that script carries the observed payload. |
| Screens.Submissions | app/src/main/java/com/stankovic/zebrawebview/screens/ScannerWebView.kt:68-75 | Over a run of observations, there are never more scripts than observations. Every script carries a payload that was observed. |
| Screens.SubmissionsSnoc | app/src/main/java/com/stankovic/zebrawebview/screens/ScannerWebView.kt:68 | One more observation appends exactly what the effect emits for it, keyed on the previous observation. |
| Screens.RepeatedObservationSilent | app/src/main/java/com/stankovic/zebrawebview/screens/ScannerWebView.kt:35 | Observing the same value twice in a row submits the same scripts as observing it once. |
| Screens.DistinctScansAllDelivered | app/src/main/java/com/stankovic/zebrawebview/screens/ScannerWebView.kt:68-75 | Suppose every observation is present and each differs from the one before it. Then each observation yields exactly one script, for its payload, in order. |
| Screens.ScannerWebView.constructor | app/src/main/java/com/stankovic/zebrawebview/screens/ScannerWebView.kt:31-35 | The screen collects from the given view model (a shared reference). It has not yet run the effect or submitted anything. |
| Screens.ScannerWebView.Recompose | app/src/main/java/com/stankovic/zebrawebview/screens/ScannerWebView.kt:68-75 | The new key is the current slot value. The submitted scripts grow by exactly `Emitted(old key, value)`: nothing for an unchanged or absent value, otherwise one script for the payload. The log stays equal to `Submissions` of all observations. |
| Pipeline.BroadcastToScript | app/src/main/java/com/stankovic/zebrawebview/scanning/ScanBroadcastReceiver.kt:18-25 | A non-matching broadcast changes neither the slot nor the page. A matching one sets the slot to the decoded payload, and the page then receives that payload's script, unless the payload equals the value already shown. |

## Left out

- WebView construction, settings and URL loading (`ScannerWebView.kt:38-60`), and the Scaffold/AndroidView layout (`:77-86`). These are UI configuration.
- `MainActivity.kt`: `onCreate` wiring, `setWebView`, and registering or unregistering the receiver in `onResume`/`onPause`. This is Android lifecycle plumbing. The `Context` argument of `onReceive` is unused by the code and is not modelled.
- Threading and flow machinery: the thread-safety of `MutableStateFlow`, `collectAsState` and coroutine cancellation. The slot is plain state. The effect is a sequential step, `Recompose`, that the model calls once per observed value. A state flow may also skip intermediate values between recompositions. The model sees only the values it is given.
- Evaluating the JavaScript, and whether the page defines `window.onBarcodeScanned`. The model ends at the script string handed to `evaluateJavascript`, whose result callback is `null`. The log of submitted scripts is ghost state.
- Escaping of the payload. The code does none, so a payload containing `'` or `\` produces a script that may not parse. The model makes no claim that scripts are well formed.
- The values of `ScanningConfig.APP_SCANNER_INTENT` and `ScanningConfig.ZEBRA_SCANNER_INTENT`. `ScanningConfig` is not part of this model, and the two constants are a parameter.
