# WAVE ROVER keyboard control — a Dafny model

`keyboard_control.py` drives a differential-drive WAVE ROVER from the keyboard.
A key press either selects a speed mode (`1` slow, `2` medium, `3` fast) or sends
one direct motor speed command (`w` forward, `s` backward, `a` left, `d` right).
Releasing any key sends the stop command. A command is the triple
(`T` = 1, `L`, `R`). `L` and `R` are a fixed base pair for the manoeuvre,
and both are scaled by the rate for the current mode. There are two rate tables,
one for straight motion and one for turning. The mode starts as slow.

The model is in `keyboard_control.dfy` (module `KeyboardControl`), plus `wrappers.dfy`
for `Option`:

- the rate tables are `map<Mode, real>` constants, and `Rate` looks them up;
- `MovementCommand` is `movement_string` without its text encoding;
- `BaseSpeeds` and `ActionCommand` are the five `move_*`/`stop` wrappers;
- `Step` is the pure transition of one key event;
- `Run` handles a sequence of events one after another, as the listener's
  callbacks never overlap;
- the class `Controller` holds the mutable `mode`. Its `OnPress` updates the mode
  in place with the same `if`/`elif` chain as `on_press`. `OnPress` and
  `OnRelease` are each proved equal to `Step`. `ControllerScenario` is a
  client of the class: it shows that the class contracts alone fix what
  `w`, `3`, `a` send.

`IsTurning` is the `turning=True` flag that `move_left` and `move_right` pass
(keyboard_control.py:86, 91); the other manoeuvres use the default `False`.

The speeds are exact `real`s, so the slow forward speed is exactly 0.225 = 0.5 × 0.45.

## Model

| member | source | states |
|---|---|---|
| KeyboardControl.RateTablesTotal | keyboard_control.py:9-11 | both rate tables have an entry for every mode, so no lookup fails; every rate is in (0, 1] |
| KeyboardControl.Rate | keyboard_control.py:57-61 | the rate is in (0, 1]; in fast mode it is exactly 1.0; a turn's rate is never below the straight rate of the same mode |
| KeyboardControl.MovementCommand | keyboard_control.py:57-68 | T is 1; a base speed in [-0.5, 0.5] stays in range after scaling; each side keeps its sign; both sides scale by the same factor (L·R₀ = R·L₀), so L = R and L = −R hold exactly when they hold of the base pair; in fast mode the speeds equal the base speeds |
| KeyboardControl.BaseSpeeds | keyboard_control.py:74-96 | base pairs lie in [-0.5, 0.5]; turns are opposite and non-zero, straight motion is equal on both sides; only stop is (0, 0) |
| KeyboardControl.ActionCommand | keyboard_control.py:74-96 | every manoeuvre's command is well formed (T = 1, L and R in [-0.5, 0.5]); turns have L = −R and straight motion L = R; forward, backward, left and right have the expected wheel signs; the command is (0, 0) exactly for stop; in fast mode it equals the base pair |
| KeyboardControl.StopIsModeIndependent | keyboard_control.py:94-96 | stop sends (T = 1, L = 0, R = 0) in every mode |
| KeyboardControl.ActionCommandInjective | keyboard_control.py:74-96 | in a given mode, different manoeuvres send different commands |
| KeyboardControl.KeyAction | keyboard_control.py:106-113 | the movement keys map to one of the four manoeuvres, never to stop |
| KeyboardControl.KeyMode | keyboard_control.py:114-122 | no mode-select key is also a movement key |
| KeyboardControl.ActionKey | keyboard_control.py:106-113 | the key of each manoeuvre is mapped back to that manoeuvre |
| KeyboardControl.ModeKey | keyboard_control.py:114-122 | the key of each mode selects that mode |
| KeyboardControl.KeyTablesRoundTrip | keyboard_control.py:106-122 | a recognised key is the key that its manoeuvre or mode maps back to |
| KeyboardControl.Step | keyboard_control.py:102-129 | an event that emits a command keeps the mode, and the command is well formed; the mode changes only on a press of a mode key, to that key's mode; a release of any key emits the stop command and keeps the mode |
| KeyboardControl.PressCases | keyboard_control.py:102-124 | for every mode: the key of each manoeuvre (w, s, a, d) sends that manoeuvre's command and keeps the mode; the key of each mode (1, 2, 3) sets that mode and sends nothing; any character that is none of these seven keys, and a key with no character, send nothing and keep the mode |
| KeyboardControl.Run | keyboard_control.py:102-129 | a run of events yields exactly one output slot per event |
| KeyboardControl.RunSnoc | keyboard_control.py:102-129 | handling one more event extends the run by that event's transition from the run's final mode |
| KeyboardControl.RunModeIsLastSelected | keyboard_control.py:114-122 | after any event sequence the mode is that of the last mode key pressed, or the starting mode if there was none |
| KeyboardControl.RunOutputAt | keyboard_control.py:102-129 | the output of each event is its transition from the mode last selected before it, so a mode change applies to the very next command |
| KeyboardControl.RunOutputsWellFormed | keyboard_control.py:102-129 | on any event sequence, every emitted command is well formed; every release emits the stop command; a press emits only a manoeuvre's command (not stop) in the mode then in force |
| KeyboardControl.ReleasesIdempotent | keyboard_control.py:127-129 | any sequence of releases, of any keys, keeps the mode and emits the identical stop command once per release |
| KeyboardControl.NoModeKeyKeepsMode | keyboard_control.py:102-124 | without a mode-key press, the mode never changes |
| KeyboardControl.SlowForwardExample | keyboard_control.py:74-107 | in the initial slow mode, `w` sends (1, 0.225, 0.225) |
| KeyboardControl.FastLeftExample | keyboard_control.py:89-121 | from the initial mode, `3` then `a` emits nothing, then (1, −0.5, 0.5) |
| KeyboardControl.Controller.constructor | keyboard_control.py:13 | the controller starts in slow mode |
| KeyboardControl.Controller.OnPress | keyboard_control.py:102-124 | the new mode and the returned command are exactly the press transition from the old mode |
| KeyboardControl.Controller.OnRelease | keyboard_control.py:127-129 | releasing any key returns the stop command (1, 0, 0) and leaves the mode unchanged |

## Left out

- `send_request_to_rover` (keyboard_control.py:18-30): the HTTP GET is network I/O. Every caller discards its boolean result, so the model returns the command that would be sent. `requests.get` has no timeout and nothing catches its exceptions: `on_press` catches only `AttributeError` and `on_release` catches nothing. A request that raises, for example when the rover is unreachable, leaves the callback with an exception. The listener then stops and `listener.join()` re-raises the error, which ends the event stream. `Run` assumes every callback returns normally and does not model this.
- The text encoding `str({...})` in `movement_string` (keyboard_control.py:62-68): it depends on Python's dict and float repr. A command is a `Command` datatype instead.
- Floating point: rates and speeds are exact reals. Python computes in double precision, where 0.45 and 0.225 are not exact.
- The mode-change confirmations and the start-up banner (keyboard_control.py:116, 119, 122, 137-139) are console output only.
- `main`, `keyboard.Listener`, `listener.join()` and the screen clear (keyboard_control.py:135-150) belong to the input library, threads and the shell. `Run` stands in for the listener delivering callbacks one at a time.
- Escape: the banner says ESC exits, but `on_press` has no branch for it. `on_press` never returns `False`, so no key stops the listener. Only an exception raised from a callback does that (see `send_request_to_rover` above). ESC is modelled as any other key without a character.
- The mode is a `Mode` datatype, not the source's string. `CURRENT_MODE` is only ever assigned one of the three table keys, so the dict lookups cannot raise `KeyError`.
- `Key` has two cases: `Char(c)` and `NonChar`. `NonChar` stands for a key object without a `char` attribute (the `AttributeError` path). It also stands for a key whose `char` is `None`, which matches no branch either.
