# Pomodoko timer core in Dafny

Pomodoko is a desktop Pomodoro timer with a task list. Its logic has two parts,
and this project models both:

- `display.dfy` (module `Display`) covers the front-end timer helpers. These are
  the default phase lengths (25, 5 and 15 minutes, in seconds) and the two
  formatters that render a count of seconds as a zero-padded minute string and
  second string. Decimal rendering (`toString` of a safe integer, at most
  2^53 - 1) becomes `NatToDecimal`, and its inverse is `ParseDecimal`. JavaScript `padStart` with the fill `"0"` becomes
  `PadStart`.
- `backend.dfy` (module `Backend`) covers the Rust back end. It holds the
  `greet` command and the start-up step that seeds the preferences store. The
  store is a class `Store` whose `entries` map is read through `Get` and
  updated in place through `Set`. `SeedDefaults` runs the three guarded writes the source
  runs. The pure function `Seeded` describes the resulting entries, and the
  lemmas about `Seeded` state the properties of the step.
- `types.dfy` (module `Types`) gives the shapes from `src/util/types.ts`
  (`STATUS`, `STATE`, `Cycle`, `UserPreferences`) as datatypes, with the
  source's field names. They have no behaviour. `Display.DEFAULT_PREFERENCES`
  is the preferences record built from the three default constants.

## Model

| member | source | states |
|---|---|---|
| `Display.NatToDecimal` | src/util/util.svelte.ts:20-21 | the decimal rendering of n is canonical (non-empty, digits only, no leading zero except "0") and reads back as n |
| `Display.CanonicalRoundTrip` | src/util/util.svelte.ts:20-21 | every canonical digit string is the rendering of its own value, so rendering is a bijection onto canonical strings |
| `Display.DecimalWidth` | src/util/util.svelte.ts:20-22 | the rendering has one digit exactly when n < 10 and at most two digits exactly when n < 100 |
| `Display.PadStart` | src/util/util.svelte.ts:22 | padStart only adds fill characters on the left, up to the width; the original string is the suffix and is returned unchanged when already at least width long |
| `Display.ParseZeroPadded` | src/util/util.svelte.ts:22 | zero-padding a digit string keeps it all digits and keeps its value |
| `Display.FormatMinutes` | src/util/util.svelte.ts:19-23 | the minute string is all digits, has value totalSeconds / 60 (floor), is at least two characters, and is exactly two characters iff totalSeconds < 6000 |
| `Display.FormatMinutesIsPaddedDecimal` | src/util/util.svelte.ts:20-22 | the minute string is the decimal rendering of the minutes behind leading '0's only, and equals that rendering from 10 minutes on |
| `Display.FormatMinutesStep` | src/util/util.svelte.ts:20 | 60 more seconds show exactly one more minute |
| `Display.FormatSeconds` | src/util/util.svelte.ts:25-27 | the second string is exactly two digits with value totalSeconds % 60, so it lies in "00".."59" |
| `Display.FormatSecondsPeriodic` | src/util/util.svelte.ts:26 | the second string has period 60, and two inputs show the same seconds iff they agree modulo 60 |
| `Display.DisplayRoundTrip` | src/util/util.svelte.ts:19-27 | 60 * value(minutes string) + value(seconds string) gives back the input |
| `Display.DisplayInjective` | src/util/util.svelte.ts:19-27 | two inputs that show the same minutes and seconds are equal |
| `Display.DefaultsDisplay` | src/util/util.svelte.ts:15-17 | the defaults display as 25:00, 05:00 and 15:00 |
| `Display.DisplayExamples` | src/util/util.svelte.ts:19-27 | 0 shows 00:00, 90 shows 01:30, 3599 shows 59:59, and 6000 shows 100:00 with no truncation |
| `Backend.Greet` | src-tauri/src/lib.rs:7-9 | the greeting is the fixed prefix, then the name unchanged, then the fixed suffix |
| `Backend.GreetInjective` | src-tauri/src/lib.rs:7-9 | different names get different greetings |
| `Backend.Store.Get` | src-tauri/src/lib.rs:40 | returns Some of the stored value exactly when the key is present, otherwise None |
| `Backend.Store.Set` | src-tauri/src/lib.rs:41 | the key now maps to the value, and every other entry is as before |
| `Backend.SetIfAbsent` | src-tauri/src/lib.rs:40-42 | one guarded write adds the key, keeps every existing value, and sets the key to the value only when it was absent |
| `Backend.SeedDefaults` | src-tauri/src/lib.rs:40-48 | the store after start-up equals Seeded of the store before; all three keys are present and every existing entry is kept |
| `Backend.SeededIsUnion` | src-tauri/src/lib.rs:40-48 | seeding equals the union of the defaults with the existing entries, where existing entries win |
| `Backend.SeededHasAllKeys` | src-tauri/src/lib.rs:40-48 | after seeding the keys are the old keys plus pomodoro, short_rest and long_rest |
| `Backend.SeededPreserves` | src-tauri/src/lib.rs:40-46 | a key that was present keeps its previous value, so seeding never overwrites |
| `Backend.SeededDefaults` | src-tauri/src/lib.rs:41-47 | an absent key is set to 25*60, 5*60 or 15*60 respectively |
| `Backend.SeededOthersUnchanged` | src-tauri/src/lib.rs:40-48 | keys other than the three are neither added nor changed |
| `Backend.SeededIdempotent` | src-tauri/src/lib.rs:40-48 | seeding the seeded store changes nothing |
| `Backend.SeedsMatchFrontEnd` | src-tauri/src/lib.rs:41-47 | the seeded values equal the front-end constants POMODORO_DEFAULT, SHORT_REST_DEFAULT and LONG_REST_DEFAULT |

## Left out

- Formatter inputs are natural numbers only. For negative or fractional seconds, JavaScript's `%`, `Math.floor` and `toString` follow floating-point behaviour, which is not modelled.
- PadStart takes a single fill character. The source only pads with `"0"`, so JavaScript's multi-character pad strings, which are cut to fit, are not modelled.
- Store values are JSON null, booleans, integers and strings. JSON arrays, objects and non-integer numbers are not modelled. A stored JSON null counts as present, because the source compares the result of `get` with `None`.
- Loading the store from `preferences.json` and saving it back are file I/O and are not modelled. The store is in memory only.
- The Tauri builder, its plugins (autostart, notification, opener, sql, store), the command handler registration and `run` are application wiring around foreign libraries, so they are not modelled.
- The SQL migration record is data for an external database engine and is not modelled.
- The reactive `tasksObject` container needs the UI framework's reactivity, and the code modelled here defines no operation on it. The `Task` type it holds is not part of this model, because its definition is not available.
- `DB_NAME` and `NOTIFICATION_SUCCESS` are opaque identifiers with no logic, so they are not modelled.
- Integers are unbounded, so the formatters are modelled only for inputs up to 2^53 - 1 (`Number.MAX_SAFE_INTEGER`), where a JavaScript number is an exact integer and `toString` prints plain digits. Two effects beyond that bound are not captured: precision loss above 2^53, and the exponential notation `toString` uses from 10^21 on (for example 6e22 seconds shows the minutes as `"1e+21"`, which is not all digits and does not parse back). For such inputs the contracts of `Display.NatToDecimal`, `Display.FormatMinutes` and `Display.DisplayRoundTrip` describe plain-digit output that the program does not produce.
- `DEFAULT_TASK_NAME` (the name `"Your new task"` given to a new task) is a constant used only by task-list code that is not part of this model, so it is not modelled.
