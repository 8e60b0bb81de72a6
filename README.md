# rc-human-controller: the controller core in Dafny

The page `src/pages/index.tsx` is a browser remote control for an RC vehicle.
It turns button clicks and key presses into small JSON commands. It sends them
over a WebSocket, after first sending a shared secret to authenticate. This
project models that controller logic and proves its properties:

- `options.dfy` (module `Options`): Option and Result.
- `commands.dfy` (module `Commands`): the command encoder. It holds the
  DIRECTION enum, the drive table of `drive`, the constant payload of
  `fire`, and the head payload. Each payload is a list of fields in insertion
  order. A decoder `FromRecord` reads a payload back into a command, and the
  round trip is proved in both directions.
- `head_angle.dfy` (module `HeadAngle`): the head-angle arithmetic of
  `moveHead`. JavaScript's truncating `%` is written out as `JsRem`, because
  Dafny's `%` is Euclidean.
- `keyboard.dfy` (module `Keyboard`): the key-to-action switch and the
  single `keyDown` latch. The latch is defined as a step function and
  replayed over event traces.
- `home.dfy` (module `Home`): the page's state as the class `Controller`.
  It holds the socket's readyState, `headAngle`, the `keyDown` latch and
  the log of frames handed to the socket. Its methods are the guarded
  `send`, `moveHead`, `drive`, `fire`, the key listeners, the socket `open`
  handler and the startup check of the secret. The invariant `Valid()`
  says three things:
  - the angle is in [0, 2000);
  - nothing is sent before the socket opens;
  - the raw secret is the first frame, and every later frame is a readable
    command payload.

The page checks only `socket.readyState === 1` before sending. There is no
separate "link open" flag, so the model has none either. The page's keyboard
bindings are the seven keys `w s a d f t g`, and the model uses exactly
those. The on-screen buttons (src/pages/index.tsx:216-251) are bound to the same
seven actions as the keys. `Controller.Dispatch` runs one action for either.
In the page, however, the keys and the buttons can reach different, stale
copies of `moveHead` (see "Left out").

## Model

| member | source | states |
|---|---|---|
| `Commands.DriveCommand` | src/pages/index.tsx:111-143 | every drive command has envelope 5000; steering stays within [-1000, 1000]; steering is 0 exactly for Forward and Backward; speed is negative exactly for Backward |
| `Commands.DriveTable` | src/pages/index.tsx:112-143 | every drive payload is `{w: true, e: 5000, s, d, t}` in that order; the (s, d, t) values are Forward (500, 0, 400), Backward (-500, 0, 400), Left (50, -1000, 100) and Right (50, 1000, 100) |
| `Commands.DriveDistinct` | src/pages/index.tsx:116-143 | two directions give the same command exactly when they are the same direction; Backward is Forward with the speed negated; Right is Left with the steering negated |
| `Commands.FireRecord` | src/pages/index.tsx:148 | the fire payload is always `{f: true, e: 1300, l: -1}` |
| `Commands.RecordRoundTrip` | src/pages/index.tsx:106-148 | every payload the encoder builds (drive, head, fire) decodes back to the command it encodes |
| `Commands.RecordCanonical` | src/pages/index.tsx:106-148 | a payload that decodes to a command is exactly that command's encoding |
| `Commands.ToRecordInjective` | src/pages/index.tsx:106-148 | distinct commands have distinct payloads |
| `HeadAngle.JsRem` | src/pages/index.tsx:100 | JavaScript's `% 2000` lies in (-2000, 2000) and has the sign of the dividend; it equals Dafny's remainder on non-negative sums; on negative sums it is 0 for a multiple of 2000 and otherwise that remainder minus 2000 (so -5 gives -5) |
| `HeadAngle.NewAngle` | src/pages/index.tsx:100-103 | for any integer angle and offset, the new angle is in [0, 2000) |
| `HeadAngle.NewAngleReference` | src/pages/index.tsx:100-103 | the truncating remainder followed by the clamp equals "0 if the sum is negative, else the sum mod 2000" |
| `HeadAngle.NewAngleRegimes` | src/pages/index.tsx:100-103 | a sum inside the range is kept exactly; a sum at or above 2000 wraps down by whole turns; a negative sum is clamped to 0 |
| `HeadAngle.WrapAndClampExamples` | src/pages/index.tsx:100-103 | 1990 + 20 gives 10 (wrap), 5 - 20 gives 0 (clamp, not wrap), 1980 + 20 gives 0 |
| `HeadAngle.StepStaysOnGrid` | src/pages/index.tsx:100-103 | a step of +20 or -20 from a multiple of 20 lands on a multiple of 20 |
| `HeadAngle.PressesStayOnGrid` | src/pages/index.tsx:81-109 | from an in-range multiple of 20, such as the initial 1000, any sequence of +-20 head presses stays in [0, 2000) and on a multiple of 20 |
| `Keyboard.KeyAction` | src/pages/index.tsx:176-197 | a key dispatches an action exactly when it is one of `w s a d f t g`; every other key dispatches nothing |
| `Keyboard.KeyTable` | src/pages/index.tsx:176-197 | `w`, `s`, `a`, `d` drive Forward, Backward, Left, Right; `f` fires; `t` moves the head by +20 and `g` by -20 |
| `Keyboard.KeyActionInjective` | src/pages/index.tsx:176-197 | different bound keys dispatch different actions; head keys move by +20 or -20 only |
| `Keyboard.LatchStep` | src/pages/index.tsx:166-202 | a key-up clears the latch and dispatches nothing, whichever key it is; a key-down always leaves the latch set; an action is dispatched exactly on a key-down of a bound key while unlatched, and it is that key's action |
| `Keyboard.ActionsBoundedByReleases` | src/pages/index.tsx:166-202 | over any event trace, the number of dispatched actions is at most the number of key releases, plus one when the latch starts released |
| `Keyboard.HeldLatchIgnoresPresses` | src/pages/index.tsx:168-171 | while latched, any number of key-downs dispatch nothing and leave the latch set |
| `Keyboard.ReleaseThenPress` | src/pages/index.tsx:168-202 | a release of any key followed by a press of a bound key dispatches exactly that key's action |
| `Home.LoadSecret` | src/pages/index.tsx:16-19 | startup fails exactly when the secret is undefined; otherwise it yields the configured string unchanged |
| `Home.ReadyStateCode` | src/pages/index.tsx:85 | readyState codes are 0 to 3, and 1 means exactly OPEN |
| `Home.ActionCommandFacts` | src/pages/index.tsx:98-148 | drive and fire commands do not depend on the head angle and leave it unchanged; a head action's command carries exactly the stored new angle, which is in range; every action's payload decodes back to its command |
| `Home.AppendCommandKeepsLog` | src/pages/index.tsx:91-92 | appending a serialised command to a log that starts with the secret keeps the log authenticated |
| `Home.Controller.constructor` | src/pages/index.tsx:80-81 | the first render has no socket, head angle 1000, a released latch and nothing sent |
| `Home.Controller.Mount` | src/pages/index.tsx:150-163 | the mount effect leaves a connecting socket; the keyboard effect then re-runs with a released latch; nothing is sent |
| `Home.Controller.TransportOpen` | src/pages/index.tsx:153-155 | on open, a connecting socket becomes open and the raw secret becomes the first and only frame; an open event in any other state changes nothing |
| `Home.Controller.TransportClose` | src/pages/index.tsx:85 | a closed transport makes readyState CLOSED, so later sends are rejected; the page has no reconnect |
| `Home.Controller.Send` | src/pages/index.tsx:83-96 | with no socket or readyState other than 1, appends nothing and reports unavailable; otherwise appends exactly one frame, the serialised payload; two sends of one payload give two frames |
| `Home.Controller.MoveHead` | src/pages/index.tsx:98-109 | stores the new angle even when the send is rejected; the one head command sent carries that same angle |
| `Home.Controller.Drive` | src/pages/index.tsx:111-146 | sends exactly the direction's drive payload when writable, nothing otherwise |
| `Home.Controller.Fire` | src/pages/index.tsx:148 | sends exactly the fire payload when writable, nothing otherwise |
| `Home.Controller.Dispatch` | src/pages/index.tsx:176-197 | runs one action: the angle becomes the action's new angle and at most the action's one command is sent |
| `Home.Controller.OnKeyDown` | src/pages/index.tsx:168-198 | latch and dispatched action follow `LatchStep`; an ignored or unbound key sends nothing and changes no angle; a dispatched action has exactly the effect of `Dispatch` |
| `Home.Controller.OnKeyUp` | src/pages/index.tsx:199-202 | any key-up clears the latch and nothing else |
| `Home.Start` | src/pages/index.tsx:16-19 | a missing secret refuses to start; otherwise a fresh controller holds the secret, with no socket, angle 1000, a released latch and nothing sent |
| `Home.OpenThenForward` | src/pages/index.tsx:150-178 | mount, open, press `w`: the log is exactly the secret followed by the forward payload |
| `Home.ForwardThenFire` | src/pages/index.tsx:168-202 | on an open link, press `w`, release, press `f`: exactly two frames are added, forward then fire |
| `Home.PressBeforeOpen` | src/pages/index.tsx:85-89 | a bound key pressed while the socket is still connecting sends nothing and is reported as unavailable, and the press still sets the latch |

## Left out

- src/pages/_app.tsx: layout and toast container mounting only; there is no logic in it.
- The `Console` component (src/pages/index.tsx:23-46), which is never used, and the `Button` wrapper and JSX grid (src/pages/index.tsx:48-70, 211-255). They are rendering only. Clicks are modelled through `Controller.Dispatch`.
- The WebSocket endpoint, `new WebSocket(...)` and message logging (src/pages/index.tsx:152, 157-159). The socket is only a readyState plus an append-only frame log.
- `console.log`/`console.error` and the text of `toast.error`. The toast is the `unavailable` result.
- The exact text of `JSON.stringify`. A payload is an ordered field list; field names, values and order are modelled, the characters are not.
- React hook mechanics (src/pages/index.tsx:95, 108, 163, 209). The keyboard listeners keep the `moveHead` of the render that set the socket. That `moveHead` is memoised on `headAngle` only, so it is the first render's, and its `send` sees no socket. So in the page the `t` and `g` keys never send a frame, always show the "WebSocket not available!" toast, and always set the angle to 1020 or 980. The first head-button click after load sends nothing either. The model uses one coherent state instead, where every call reads the current angle and socket; its `OnKeyDown` sends a head frame for `t`/`g` on an open socket.
- `setHeadAngle` applies at the next render; the model applies it at once.
- Listener removal on unmount (src/pages/index.tsx:205-208). Only the fresh latch after the effect re-runs is modelled, in `Mount`.
- Transport closing is an environment event (`TransportClose`). The CLOSING readyState is in the datatype but no event produces it, because the guard treats it like CLOSED. There is no close handler and no reconnect.
- JavaScript numbers are doubles. The model uses unbounded integers. All angles and offsets here are small integers, for which the two agree.
