# Tap-dance keys and BOOT_HOLD of the qwerty2 keymap

A Dafny model of the behaviour in `keymaps/qwerty2/keymap.c` of a QMK
keyboard layout:

- **`cur_dance`**, the classifier that turns the burst summary the QMK
  tap-dance engine supplies (press count, interrupted, still pressed) into a
  `td_state_t` (module `Classify`, file `classify.dfy`);
- the **sixteen `*_finished` / `*_reset` handler pairs**, modelled once as a
  handler parameterised by a `(base, hold)` key-table row, plus the table
  itself, the tap-dance enum (an integer from 0 to 15 that indexes both
  `tap_dance_actions` and the key table) and the per-key `td_tap_t` statics
  as one sequence indexed by that enum (module `TapDance`, file `tap_dance.dfy`);
- any interleaving of those handlers as the engine drives them, with the
  proof that the layout's registered keys always match its key states
  (module `DanceRun`, file `dance_run.dfy`);
- the **BOOT_HOLD branch of `process_record_user`**, a press/release
  level detector with a 5000 ms threshold (module `BootHold`, file
  `boot_hold.dfy`).

Calls into the host (`tap_code`, `tap_code16`, `register_code`,
`unregister_code`, `bootloader_jump`) are recorded in an event log
(`Codes.Event`: `Tap`, `Register`, `Unregister`, `BootloaderJump`). Key codes
are opaque: `Plain(k)` or `Shifted(k)` for `LSFT(k)` (QMK's `S(k)` is the
same code). The timer reading is an input.

Points of `keymap.c` the model keeps as written:

- The reset releases the base key exactly when the stored state is
  `TD_DOUBLE_SINGLE_TAP` (lines 109-111); nothing else records that the base
  key is down.
- `TD_UNKNOWN` is returned for a count of 0 as well as for 4 or more.
- `TD_DOUBLE_HOLD`, `TD_TRIPLE_TAP` and `TD_TRIPLE_HOLD` are stored but emit
  nothing on any key.

## Model

| member | source | states |
|---|---|---|
| Classify.CurDance | keymaps/qwerty2/keymap.c:51-64 | the classification is the row of the gesture table that describes the burst; it is never `TD_NONE`; it is `TD_UNKNOWN` exactly for counts other than 1, 2, 3; with two presses `interrupted` wins over `pressed` |
| Classify.DescribesFunctional | keymaps/qwerty2/keymap.c:51-64 | the table rows never overlap, so a burst has at most one classification |
| Classify.CurDanceExact | keymaps/qwerty2/keymap.c:51-64 | `cur_dance` returns state `s` if and only if the table row for `s` describes the burst |
| Classify.TapOrHold | keymaps/qwerty2/keymap.c:52-54 | for one or three presses the result is a hold variant exactly when the burst was neither interrupted nor released; an interrupted burst is never a hold |
| TapDance.BaseOwner | keymaps/qwerty2/keymap.c:86-612 | reading the key table backwards: `c` is found to be owned by key `d` exactly when `d`'s base is `c`, so a code is the base of at most one handler pair, and no owner is found exactly when no key has base `c` |
| TapDance.OwnerFromFinds | keymaps/qwerty2/keymap.c:617-634 | scanning the action table from any position up to a key's own position, the first entry whose base is that key's base is the key itself |
| TapDance.OwnerOfBase | keymaps/qwerty2/keymap.c:617-634 | each handler pair is the only owner of its base code: reading the table backwards from a key's base gives back that key |
| TapDance.Finished | keymaps/qwerty2/keymap.c:86-106 | stores the classification (never idle) and emits one base tap for a single tap, one hold-symbol tap for a single hold, two base taps for a double tap, a base tap then a base register for a double-single tap, nothing otherwise; it never unregisters and leaves only the base held, only after a double-single tap |
| TapDance.Reset | keymaps/qwerty2/keymap.c:108-117 | emits one unregister of the base exactly when the stored state is `TD_DOUBLE_SINGLE_TAP`, nothing otherwise, and always leaves the key idle |
| TapDance.FinishedThenResetBalanced | keymaps/qwerty2/keymap.c:99-116 | over one finished/reset pair every code is registered as often as it is unregistered, never released before it is held, and the key ends idle |
| TapDance.AllIdle | keymaps/qwerty2/keymap.c:67-82 | at power-on every key's state is `TD_NONE` |
| TapDance.DanceFinished | keymaps/qwerty2/keymap.c:86-106 | the finished handler of key `d` is the generic handler on `d`'s table row and changes no other key's state |
| TapDance.DanceReset | keymaps/qwerty2/keymap.c:108-117 | the reset handler of key `d` is the generic reset on `d`'s table row and changes no other key's state |
| DanceRun.FinishSyncAt | keymaps/qwerty2/keymap.c:86-106 | a finished handler on an idle key changes the held count of its base by what the key's new state says and no other code's count |
| DanceRun.ResetSyncAt | keymaps/qwerty2/keymap.c:108-117 | a reset handler releases its base exactly when its key's state said it was held, and changes no other code's count |
| DanceRun.StepKeepsSync | keymaps/qwerty2/keymap.c:99-116 | a handler call on an idle key (finished) or any key (reset) keeps every code held by the host exactly as often as the key states say |
| DanceRun.RunKeepsSync | keymaps/qwerty2/keymap.c:617-634 | any interleaving of handler calls across the sixteen keys keeps the held codes in line with the key states |
| DanceRun.RunFromPowerOn | keymaps/qwerty2/keymap.c:67-117 | from power-on an allowed run ends with every code held at most once and never released more often than registered; once all keys are idle nothing is held |
| DanceRun.ValidRunPrefix | keymaps/qwerty2/keymap.c:617-634 | stopping an allowed sequence of handler calls early leaves an allowed sequence |
| DanceRun.NeverReleasedUnheld | keymaps/qwerty2/keymap.c:99-116 | at every call boundary of an allowed run from power-on, no code is released more often than registered and none is held twice |
| DanceScenarios.QSingleTap | keymaps/qwerty2/keymap.c:86-91 | one uninterrupted press and release of Q types Q once, and reset sends nothing |
| DanceScenarios.QSingleHold | keymaps/qwerty2/keymap.c:92-94 | holding Q types `!` once |
| DanceScenarios.QDoubleHoldIsSilent | keymaps/qwerty2/keymap.c:86-117 | tap then hold on Q is stored as double hold and sends nothing |
| DanceScenarios.QDoubleSingleTap | keymaps/qwerty2/keymap.c:99-116 | tap then interrupted press on Q types Q, holds Q, and reset releases it |
| DanceScenarios.FourPressesSwallowed | keymaps/qwerty2/keymap.c:60-63 | four presses on any key classify as unknown and send nothing on finish or reset |
| DanceScenarios.UnshiftedHoldSymbols | keymaps/qwerty2/keymap.c:416-568 | M holds to plain slash, L to shifted slash; H holds to plain minus |
| BootHold.TimerElapsed | keymaps/qwerty2/keymap.c:651 | the elapsed value is the 16-bit tick count that takes the stored reading to the current one |
| BootHold.ProcessRecordUser | keymaps/qwerty2/keymap.c:643-658 | other keycodes pass through with no effect; BOOT_HOLD is consumed, its press stores the time, its release jumps to the bootloader exactly when at least 5000 ms elapsed, and at most one jump is emitted |
| BootHold.ElapsedMeasuresRealTime | keymaps/qwerty2/keymap.c:648-651 | for holds shorter than one timer period the elapsed value is the real hold time |
| BootHold.PressThenRelease | keymaps/qwerty2/keymap.c:643-658 | a BOOT_HOLD press then release fires the bootloader exactly when held 5000 ms or more; both events are consumed |
| BootHold.ReleaseAfter5200Fires | keymaps/qwerty2/keymap.c:651-652 | held from 0 ms to 5200 ms, the bootloader hook fires once |
| BootHold.ReleaseAfter3000DoesNotFire | keymaps/qwerty2/keymap.c:651 | held from 0 ms to 3000 ms, nothing fires |

## Left out

- The QMK tap-dance engine (press counting, the tapping term, setting `interrupted` and `pressed`, scheduling finished and reset) is not part of this model; its burst summary is an input, and `DanceRun` assumes only that a key's finished handler runs while that key is idle.
- The press count: `cur_dance` receives the engine's 8-bit count; the model accepts any `nat` and classifies 0..255 identically. How the engine's counter behaves past 255 presses is not part of this model.
- `tap_code`, `tap_code16`, `register_code`, `unregister_code` and `bootloader_jump` are host functions; they are recorded as events, not executed.
- BootHold.TimerElapsed: `timer_elapsed` is a host function; it is modelled as the wrap-around 16-bit difference, so a hold of 65536 ms or more is measured modulo the timer period, as the host timer does.
- The `keymaps` layout array (lines 663-690) is static matrix wiring, not behaviour.
- The `is_press_action` field of `td_tap_t` is never read and is left out.
- Key codes are opaque: no HID meaning of `LSFT(KC_1)` and the like is modelled.
