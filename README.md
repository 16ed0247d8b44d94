# code-masher-loader, modelled in Dafny

The extension mirrors a local source file into a web IDE's editor. The model covers three pieces.

- **The content script's main-frame context** (`GlitchyByteMainFrameContext`). It stores key-value pairs for the popup. It runs the sync loop: every 3000 ms it fetches the configured URL. When the body's SHA-256 hex digest differs from the last one, it dispatches an `ExternalEditorToIDE` event with status `updateCode`. When autoplay is on, it then clicks replay, or play if replay is disabled.
- **The simulation-player context** (`GlitchyByteSimulationPlayerContext`). It debounces clicks on play/pause: every time the "next" control is seen disabled, the pending 10000 ms timer is replaced by a new one.
- **The popup**. It holds the saved state record `CodeSyncState` with its defaults and JSON round trip. Its control handlers send `set-item` and `update-state` messages and switch the badge.

Files and modules:

- `wrappers.dfy` (`Wrappers`): `Option`, standing for `null`/`undefined`.
- `json.dfy` (`Json`): parsed JSON values, JavaScript truthiness and property reads.
- `protocol.dfy` (`Protocol`): the messages the popup sends to the page.
- `hex_encoding.dfy` (`HexEncoding`): the hex step of `getHexHash`, with a decoder as its partner.
- `main_frame.dfy` (`MainFrame`): class `MainFrameContext`.
- `simulation_player.dfy` (`SimulationPlayer`): class `SimulationPlayerContext`.
- `popup.dfy` (`PopupScript`): `CodeSyncState` as a datatype with functions, and class `Popup`.

Host effects are explicit:

- A pending `setTimeout` is an entry of the context's `timers` map, keyed by a positive handle. Cancelling removes the entry. A timer firing is a method call (`Tick`, `Fire`) that receives what the environment supplies.
- The page's button states are parameters: `next-button.disabled`, and `ReplayState` for the replay control (enabled, disabled or missing).
- Whether `new Request(url, { mode: "cors" })` accepts a URL value is the predicate `isRequestUrl`, given to the constructor.
- The outcome of `fetch` is the input datatype `FetchOutcome`: `Ok(text)`, `NotOk` or `Rejected`.
- SHA-256 of the UTF-8 text is the function `digest`, given to the constructor. Its values are never looked into.
- Dispatched events and clicks are appended to `effects`. So are messages and badge changes in the popup.

In these points the code behaves differently from what one might expect, and the model follows the code:

- A rejected fetch has no handler, so the poll chain stops and nothing is rescheduled (`Tick` with `Rejected`). `timeoutId` then keeps the handle of the timer that has already fired.
- `updateState` forgets the digest whenever it holds a handle, whichever flag changed. A stale handle left by a rejected poll counts as held.
- `playSimulation` does not check that the replay control exists. It clicks replay exactly when replay is not disabled. When the control is missing, reading its `disabled` throws before any click; the poll chain has no handler for that, so it stops as after a rejected fetch, with the program already sent to the editor and its digest recorded.
- `scheduleSync` builds its `Request` before setting the timer. For a URL the request rejects, `updateState` throws after cancelling the old poll and forgetting the digest: no poll is pending, `timeoutId` stays null and `sendResponse` is never called.
- A message whose `message` field matches no case gets no answer at all, as does an `update-state` that throws.
- The debounce timer clicks play/pause with no autoplay check.
- The field is spelt `isAutplayEnabled` in `CodeSyncState` and in the stored JSON document. Only the `update-state` message renames it to `isAutoplayEnabled`.

## Model

| member | source | states |
|---|---|---|
| `Json.Truthy` | package/popup.js:10 | a JSON value is falsy exactly when it is `null`, `false`, `0` or `""` |
| `Json.Property` | package/popup.js:10 | on a truthy document, `state.url`, `state.isSyncEnabled` and `state.isAutplayEnabled` yield a value exactly when the document is an object that has that member, and then that member's value; otherwise `undefined` |
| `HexEncoding.ToRadix16` | package/setup.js:93 | `toString(16)` gives at least one digit; a value below 16 gives its single digit |
| `HexEncoding.PadStart` | package/setup.js:93 | `padStart(width, pad)` has length max(width, original length), ends with the original string, and is pad characters before it |
| `HexEncoding.ByteHex` | package/setup.js:93 | each byte's piece is two lowercase hex digits |
| `HexEncoding.ByteHexIsPaddedRadix16` | package/setup.js:93 | the two-digit piece is exactly `b.toString(16).padStart(2, '0')`, for bytes below 16 and above |
| `HexEncoding.HexEncode` | package/setup.js:92-93 | the joined hex string has length 2 × the number of digest bytes |
| `HexEncoding.HexEncodeAt` | package/setup.js:92-93 | byte i occupies characters 2i and 2i+1: its high nibble's digit (zero-padded), then its low nibble's |
| `HexEncoding.HexEncodeAlphabet` | package/setup.js:93 | the hex string contains only `0-9a-f` |
| `HexEncoding.HexDecode` | package/setup.js:92-93 | reading digit pairs back gives half as many bytes as characters, or fails |
| `HexEncoding.HexRoundTrip` | package/setup.js:92-93 | decoding the hex string gives back the digest bytes |
| `HexEncoding.HexDecodeSound` | package/setup.js:92-93 | any string that decodes is the hex string of what it decodes to |
| `HexEncoding.HexEncodeInjective` | package/setup.js:92-93 | two digests have equal hex strings iff they are equal |
| `MainFrame.ProgramText` | package/setup.js:53-62 | a poll hands a text to `dispatchNewProgram` iff the response was ok and its body non-empty, and then hands the body verbatim |
| `MainFrame.PlayTarget` | package/setup.js:97-105 | the control clicked is replay iff the replay control is enabled, play iff it is disabled, and none iff it is missing |
| `MainFrame.MainFrameContext.constructor` | package/setup.js:10-13 | a new context has empty storage, no hash, no handle and no pending timer |
| `MainFrame.MainFrameContext.AtMostOneTimer` | package/setup.js:38-45 | in every reachable state at most one sync timer is pending, and a pending one is the timer `timeoutId` names |
| `MainFrame.MainFrameContext.HexHash` | package/setup.js:89-95 | the hex digest has two characters per digest byte and decodes back to the digest |
| `MainFrame.MainFrameContext.HexHashFaithful` | package/setup.js:75-76 | comparing hex digests, as `dispatchNewProgram` does, is comparing the digests themselves; the hex digest has twice the digest's length |
| `MainFrame.MainFrameContext.SetItem` | package/setup.js:24-27 | afterwards the key maps to the value; every other key keeps its value and no key is added |
| `MainFrame.MainFrameContext.GetItem` | package/setup.js:29-32 | answers the stored value, or `undefined` iff the key is absent |
| `MainFrame.MainFrameContext.ScheduleSync` | package/setup.js:49-71 | for a URL the request accepts, adds exactly one 3000 ms timer capturing the URL and autoplay flag, under a fresh positive handle no pending timer holds; for any other URL it throws and sets no timer |
| `MainFrame.MainFrameContext.UpdateState` | package/setup.js:34-47 | afterwards a sync timer is pending iff `isSyncEnabled` is truthy and the request accepts the URL, and it is the only one; otherwise `timeoutId` is null; the hash is reset to null iff a handle was held at call time, otherwise left as is; `sendResponse` is reached iff sync is off or the URL is accepted |
| `MainFrame.MainFrameContext.DispatchNewProgram` | package/setup.js:74-87 | returns true iff the text's hex digest differs from `programHash`; then it logs exactly one `updateCode` event with the text verbatim and records the digest, otherwise it changes nothing |
| `MainFrame.MainFrameContext.PlaySimulation` | package/setup.js:97-105 | throws iff the replay control is missing, clicking nothing; otherwise exactly one click: replay if it is enabled, play if it is disabled |
| `MainFrame.MainFrameContext.Tick` | package/setup.js:51-69 | a non-ok or empty poll logs nothing and keeps the hash; a new digest logs the program and then one click exactly when autoplay is on and the replay control exists; an unchanged digest logs nothing; a rejected poll, or a new digest with autoplay on and no replay control, leaves no timer and keeps the fired handle; every other poll leaves exactly one new timer with the same URL and flag |
| `MainFrame.MainFrameContext.HandleMessage` | package/setup.js:14-20 | `set-item` stores and answers `undefined`; `get-item` answers the stored value or `undefined`; `update-state` behaves as its handler and answers `undefined` unless it throws on the URL; any other message changes nothing and gets no answer |
| `SimulationPlayer.SimulationPlayerContext.constructor` | package/setup.js:115-116 | a new player context is idle, with no click yet |
| `SimulationPlayer.SimulationPlayerContext.ArmedMeansOneTimer` | package/setup.js:123-136 | armed means exactly one pending timer; idle means none |
| `SimulationPlayer.SimulationPlayerContext.MutationCallback` | package/setup.js:123-136 | next disabled: the pending timer (if any) is cancelled and exactly one new 10000 ms timer is armed; next enabled: nothing changes |
| `SimulationPlayer.SimulationPlayerContext.Fire` | package/setup.js:131-135 | firing clicks play/pause once and returns to idle with no timer pending |
| `PopupScript.NewCodeSyncState` | package/popup.js:13-17 | each field takes its argument, or its default when the argument is `undefined` |
| `PopupScript.DefaultState` | package/popup.js:13-17 | `new CodeSyncState()` has url `http://localhost:10101/Player.java`, sync false and autoplay false |
| `PopupScript.FromJson` | package/popup.js:8-11 | a document that is not an object gives the defaults; for an object each present member is taken as is and each missing one falls back to its default |
| `PopupScript.ToJson` | package/popup.js:19-21 | the document has exactly the members `url`, `isSyncEnabled` and `isAutplayEnabled` |
| `PopupScript.FromJsonToJson` | package/popup.js:8-21 | `fromJson(toJson(s))` restores all three fields of `s` |
| `PopupScript.FromJsonNull` | package/popup.js:8-11 | `fromJson("null")` is the default state |
| `PopupScript.Decimal` | package/popup.js:74 | a non-negative number is shown as decimal digits that spell it, with no leading zero |
| `PopupScript.Join` | package/popup.js:74 | `join` keeps the parts in order with the separator between neighbours: its length is the parts' total plus one separator per gap, it starts with the first part and then the separator |
| `PopupScript.DomString` | package/popup.js:74 | assigning `null` shows an empty field, a string shows itself, a number its decimal digits (with `-` when negative), an empty array nothing |
| `PopupScript.UpdateStateMessage` | package/popup.js:89-97 | the `update-state` message copies `url` and `isSyncEnabled` and carries `isAutplayEnabled` as `isAutoplayEnabled` |
| `PopupScript.SaveMessage` | package/popup.js:66-69 | the save is a `set-item` under key `state` whose value is the state's JSON document |
| `PopupScript.LastBadge` | package/popup.js:123-143 | no badge state iff only messages were sent; otherwise the state is the one set by some badge change after which only messages were sent |
| `PopupScript.LastBadgeIgnoresSends` | package/popup.js:108-121 | sending messages never changes the badge |
| `PopupScript.LastBadgeAfterChange` | package/popup.js:111-115 | the badge shows what the last badge change set, even after later messages |
| `PopupScript.Popup.constructor` | package/popup.js:26-31 | the controls start with the page's values and nothing has been sent |
| `PopupScript.Popup.GetState` | package/popup.js:85-87 | the state is the URL text and the two checkbox values, with no default applied |
| `PopupScript.Popup.SaveState` | package/popup.js:66-69 | sends exactly one `set-item` carrying the controls' state |
| `PopupScript.Popup.SendMessageUpdateState` | package/popup.js:89-97 | sends exactly one `update-state` with the URL text, the sync value and the autoplay value |
| `PopupScript.Popup.OnSyncEnabledChange` | package/popup.js:108-116 | sends a save, then an `update-state`, then switches the badge; afterwards the badge is on iff sync is checked |
| `PopupScript.Popup.OnAutoplayEnabledChange` | package/popup.js:118-121 | sends a save, then an `update-state`; the badge is unchanged |
| `PopupScript.Popup.OnSourceUrlChange` | package/popup.js:99-106 | afterwards sync is unchecked; if it was checked: save, `update-state` with sync false, badge off; otherwise only a save |
| `PopupScript.Popup.RestoreState` | package/popup.js:71-83 | sends `get-item`; a parsable reply sets the three controls from `fromJson` of it and leaves the badge on iff sync is then checked; an unparsable reply changes no control |

## Left out

- SHA-256 and UTF-8 encoding (`TextEncoder`, `crypto.subtle.digest`): the digest is an arbitrary function supplied to the constructor. Only its equalities matter to the model.
- `fetch`, CORS and `response.text()`: network I/O, reduced to the three-way `FetchOutcome` input. A rejection of `text()` is folded into `Rejected`.
- Chrome messaging, script injection (`setupContext`, `run`), the active-tab query and `tabId`: host plumbing. Only which messages are sent, and in which order, is recorded.
- Badge colours and badge text: only whether the badge was switched on or off is recorded.
- DOM queries, `click`, `CustomEvent` and `MutationObserver`: the observed button states are parameters, and clicks and events are log entries. The initial values of the popup's controls come from its HTML page, which is not part of this model; they are constructor parameters.
- Timer delays are recorded with each timer (3000 ms and 10000 ms), but there is no clock. Firing is an explicit step that applies only to the pending timer.
- An `updateState` can interleave with an in-flight poll, after which the poll's continuation re-arms the chain. Concurrency is not modelled: each tick runs to completion as one step.
- The singleton guards around both contexts (`document.querySelector(...) && !window...`) are not modelled.
- `JSON.stringify` and `JSON.parse` text: the stored text and the document it parses to are the same `JsonValue`. A reply that `JSON.parse` rejects is `None`. This is the `undefined` a `get-item` for a key that was never saved returns.
- Numbers are integers and are written in plain decimal when shown in the URL field. JavaScript's floating point and its exponent notation from 10^21 are not modelled.
- `MainFrame.MainFrameContext.HandleMessage`: for `update-state` it states the answer, the pending-iff-enabled rule and the hash reset, not the new timer's contents, which the `UpdateState` row states.
- URL parsing by `new Request`: not modelled; which URL values it accepts is the predicate `isRequestUrl`.
- The play control is taken to exist whenever `playSimulation` runs: the main-frame context is only installed on a page that has one.
- `PopupScript.DomString`: the URL field's value sanitization (an input element drops line breaks, and a `url` input also trims surrounding blanks) is not applied, because the element's type is declared in the popup's HTML page, which is not part of this model.
- `HexEncoding.ByteHex`: its body is the two-digit form. That it equals the source's `toString(16).padStart(2, '0')` is the lemma `ByteHexIsPaddedRadix16`, not the definition.
