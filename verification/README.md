# Candy machine mint page: the mint state machine

This project models the state machine inside the `Home` component of a
candy-machine mint page (`src/Home.tsx`). A user with a connected wallet
mints one token from a fixed-supply, time-gated candy machine. The page
keeps a few pieces of state:

- `isActive`: the sale has started;
- `isSoldOut`: no items remain;
- `isMinting`: an attempt is in flight;
- the supply counters and the go-live date;
- the snackbar alert.

The model has four modules:

- `JsString` holds the two JavaScript behaviours the page relies on: the
  truthiness of a string that may be `undefined`, and `String.prototype.indexOf`.
  `IndexOf` is proved to return the lowest occurrence (or -1). It returns 0
  exactly when the string starts with the pattern.
- `MintErrors.Classify` is the catch block of `onMint`, modelled as written.
  It tests the `indexOf` results for truthiness, so each test means "the
  message does not start with". As a result:
  - only a message starting with `0x138` reads "SOLD OUT!";
  - a message that names `0x137` anywhere else gets the generic text;
  - the insufficient-funds text is never chosen.
  When `msg` is falsy and `message` is `undefined`, the catch block itself
  throws. The finally block still runs, and the promise `onMint` returns
  rejects.
- `Display` holds the button's `disabled` expression, its label
  conditional and `renderCounter`'s hour figure.
- `HomePage` holds the class `Home`, whose fields are the component's
  state. `hasProgram` stands for `candyMachine?.program`. Its handlers
  are:
  - `Refresh` (`refreshCandyMachineState`);
  - `OnMint` (`onMint`): the try and catch blocks are `MintTry`, and the
    finally block follows;
  - the countdown's `OnCountdownMount` and `OnCountdownComplete`, which
    only ever set `isActive` to true;
  - `CloseAlert`, which stands for both close handlers.

  `isMinting`, `isSoldOut` and the alert are written only through the
  setter methods `SetIsMinting`, `SetIsSoldOut` and `SetAlertState`. Each
  setter also appends the write to the ghost log `writes`. The log also
  records each call of the refresh. The object invariant `Valid()` says
  that each of the three fields holds the value of its latest write in the
  log. Every method requires and keeps `Valid()`, so a write that bypasses
  the log fails verification.

  `OnMint` is proved against the specification function `MintWrites`. The
  lemmas about `MintWrites` say four things:
  - `isMinting` is raised first and written again only by the finally
    block, just before the refresh call;
  - the refresh is issued exactly once when the finally block completes,
    and not at all otherwise;
  - after the attempt, `isMinting` is false exactly when the finally block
    completes;
  - the alert is set at most once.

  The finally block awaits a balance read before it lowers `isMinting`.
  If that read rejects, `isMinting` stays true and no refresh is issued.
  Nothing else lowers `isMinting`, so the button stays disabled.

Wallet presence is a parameter of each handler. The results of the chain
helpers are parameters too:

- `MintAttempt`: the outcome of `mintOneToken` followed by
  `awaitTransactionSignatureConfirmation`;
- `ChainRead`: the outcome of `getCandyMachineState`;
- `BalanceRead`: whether the finally block's `getBalance` read resolves.

Where the code departs from what a mint page is usually expected to do, the
model follows the code:

- A code-first, then text-match precedence would report insufficient funds
  for a matching message. The code's `indexOf` tests make that text
  unreachable.
- `onMint` does not reject re-entrant calls. The code has no guard; only the button's `disabled` expression prevents a second
  click.
- The refresh does not discard stale results. The code has no sequence
  token, so every completed read is applied.
- Not every thrown error yields an error alert. An error with neither `msg` nor `message` makes the catch block
  throw, and the alert is left unchanged.

## Model

| member | source | states |
|---|---|---|
| `JsString.IndexOf` | src/Home.tsx:174-178 | `indexOf` returns the lowest index of an occurrence, or -1 when there is none; it returns 0 exactly when the message starts with the code |
| `MintErrors.Classify` | src/Home.tsx:170-188 | the catch block throws exactly when `msg` is falsy and `message` is undefined; a truthy `msg` is shown, except that code 311 gives "SOLD OUT!" and 312 gives "Minting period hasn't started yet."; without `msg`, "SOLD OUT!" exactly when the message starts with `0x138`, the generic text otherwise; the sold-out latch is set only for a truthy `msg` with code 311; the insufficient-funds text is produced only when `msg` is that very text |
| `MintErrors.SoldOutCodeInTextIsMissed` | src/Home.tsx:173-179 | an error without `msg` whose message is "custom program error: 0x137" gets the generic failure text |
| `MintErrors.PrefixedTextReadsSoldOut` | src/Home.tsx:173-179 | an error with an empty `msg` and the message "0x138" gets "SOLD OUT!" without the latch |
| `Display.ButtonDisabled` | src/Home.tsx:238 | the `disabled` expression; it has no contract of its own, and `Display.EnabledIffMintLabel` states its properties |
| `Display.ButtonLabel` | src/Home.tsx:242-257 | the label conditional; it has no contract of its own, and `Display.LabelPriority` and `Display.EnabledIffMintLabel` state its properties |
| `Display.EnabledIffMintLabel` | src/Home.tsx:238-257 | the button is enabled exactly when its label is "MINT", so it is disabled iff sold out, minting or not active |
| `Display.LabelPriority` | src/Home.tsx:242-257 | sold out overrides every other label; the spinner shows exactly when not sold out, active and minting; the countdown shows exactly when not sold out and not active |
| `Display.CounterHours` | src/Home.tsx:285-291 | the hour figure is `hours` plus 24 per day, and a missing day count adds nothing |
| `Display.CounterShowsWholeHours` | src/Home.tsx:288 | when the remaining time is split into whole days and leftover hours, the hour figure is the total number of whole hours remaining |
| `HomePage.MintAlert` | src/Home.tsx:156-193 | every alert a mint sets is open; none is set when the wallet or program is missing or the catch block throws; severity "success" with "Congratulations! Mint succeeded!" exactly for a confirmed status (null or without `err`); a status with `err` gives "Mint failed! Please try again!" with severity "error"; a handled thrown error gives the classified text with severity "error" |
| `HomePage.Confirmed` | src/Home.tsx:156 | `!status?.err`; it has no contract of its own. `HomePage.MintAlert` states its meaning: a success alert exactly for a null status or one without `err` |
| `HomePage.FinallyCompletes` | src/Home.tsx:195-201 | whether the finally block gets past its balance read: always without a wallet, otherwise when the read resolves; it has no contract of its own, and `HomePage.MintLeavesMinting`, `HomePage.MintRefreshesOnce` and `HomePage.Home.OnMint` state what follows from it |
| `HomePage.RefreshWrites` | src/Home.tsx:113-131 | the refresh call, followed by the `isSoldOut` write when a wallet is present and the read resolves; it has no contract of its own, and `HomePage.Home.Refresh` is proved against it |
| `HomePage.TryWrites` | src/Home.tsx:156-193 | the writes of the try and catch blocks: the code-311 latch, then the alert; it has no contract of its own, and `HomePage.SoldOutLatchOnlyOnCode` and `HomePage.Home.MintTry` state its properties |
| `HomePage.MintWrites` | src/Home.tsx:137-202 | the order of `onMint`'s writes; it has no contract of its own, and `HomePage.MintRefreshesOnce`, `HomePage.MintingHeldThroughout`, `HomePage.MintLeavesMinting` and `HomePage.MintAlertsAtMostOnce` state its properties |
| `HomePage.MintRefreshesOnce` | src/Home.tsx:194-201 | `onMint` issues exactly one refresh when its finally block gets past the balance read, and none when that read rejects |
| `HomePage.MintingHeldThroughout` | src/Home.tsx:139-200 | `isMinting` is raised by the first write; any later write to it lowers it and is followed at once by the refresh call; it is lowered exactly when the finally block completes |
| `HomePage.MintLeavesMinting` | src/Home.tsx:139-200 | whatever the earlier writes, after one attempt `isMinting` is false exactly when the finally block completes; a rejected balance read leaves it true |
| `HomePage.MintAlertsAtMostOnce` | src/Home.tsx:156-193 | one mint attempt sets the alert at most once |
| `HomePage.SoldOutLatchOnlyOnCode` | src/Home.tsx:173-187 | the try and catch blocks write `isSoldOut := true` exactly when the helpers ran and threw an error with a truthy `msg` and code 311 |
| `HomePage.Home.constructor` | src/Home.tsx:92-109 | the initial state: not active, not sold out, not minting, zero counters, a closed empty alert with undefined severity, the start date from props, no program |
| `HomePage.Home.SetIsMinting` | src/Home.tsx:94 | `setIsMinting`: sets `isMinting`, logs the write, keeps `Valid()` and changes nothing else |
| `HomePage.Home.SetIsSoldOut` | src/Home.tsx:93 | `setIsSoldOut`: sets `isSoldOut`, logs the write, keeps `Valid()` and changes nothing else |
| `HomePage.Home.SetAlertState` | src/Home.tsx:100-104 | `setAlertState`: sets the alert, logs the write, keeps `Valid()` and changes nothing else |
| `HomePage.Home.LogRefreshCall` | src/Home.tsx:111-112 | a call of `refreshCandyMachineState` is logged; no field changes |
| `HomePage.Home.Refresh` | src/Home.tsx:111-135 | its writes are `RefreshWrites`; with no wallet, or a failed chain read, the state is unchanged; otherwise the counters, start date and program come from the snapshot and `isSoldOut` becomes `itemsRemaining == 0`; `isActive`, `isMinting` and the alert are never touched |
| `HomePage.Home.MintTry` | src/Home.tsx:140-193 | its writes are `TryWrites`; the alert is `MintAlert`'s or unchanged; `isSoldOut` is raised only by the code-311 latch; it says whether the catch block throws; `isMinting` and the rest are unchanged |
| `HomePage.Home.OnMint` | src/Home.tsx:137-203 | its writes are `MintWrites`; `isMinting` is true at both awaits and is true at exit exactly when the balance read rejects; the alert is `MintAlert`'s or unchanged; the promise rejects exactly when the catch block throws or the balance read rejects; when the finally block completes and its refresh read succeeds, the refresh overrides a sold-out latch; `isActive` is unchanged |
| `HomePage.Home.OnCountdownMount` | src/Home.tsx:253 | `isActive` becomes true if the countdown is already complete at mount and is never set false; nothing else changes |
| `HomePage.Home.OnCountdownComplete` | src/Home.tsx:254 | `isActive` becomes true; nothing else changes |
| `HomePage.Home.CloseAlert` | src/Home.tsx:266-269 | the alert is closed through `setAlertState` and keeps its message and severity; nothing else changes |

## Left out

- Styled components and the JSX layout (src/Home.tsx:20-80, 220-276) are presentation only.
- `mintOneToken`, `awaitTransactionSignatureConfirmation` and `getCandyMachineState` are not part of this model: their outcomes are the parameters `MintAttempt` and `ChainRead`. Transaction building and the confirmation timeout are theirs.
- The balance read in the finally block (src/Home.tsx:195-198) is modelled only by whether it resolves (`BalanceRead`). Its value and the `console.log` of it are not modelled. The empty balance effect (src/Home.tsx:205-212) does nothing.
- The mount effect that calls the refresh (src/Home.tsx:214-218) is a call to `Refresh`. React's scheduling of it is not modelled.
- The wallet adapter, Anchor, the `react-countdown` clock and the snackbar's auto-hide timer are library code. Countdown completion is an input event (`completed`, or a call to `OnCountdownComplete`).
- Asynchronous interleaving is not modelled. `OnMint` runs as one step, and its refresh is applied at once. Other handlers running during its awaits are not covered, and neither are refreshes completing out of order.
- `JsString.IndexOf` counts Unicode scalar values, while JavaScript's `indexOf` counts UTF-16 code units, so the two indices differ after a character outside the Basic Multilingual Plane. The catch block only compares the result with 0, and for its ASCII codes the comparison is the same.
- A thrown value that is not an object (`throw undefined`) is not modelled. A `msg` that is not a string is not modelled either.
- `HomePage.Home.OnCountdownMount`: its contract does not say that the countdown is mounted only while the label is the countdown. That condition belongs to the rendering, which is not modelled.
