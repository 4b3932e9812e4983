# Date picker interaction state, modelled in Dafny

This project models the logic in `src/datePicker/DatePicker.js` of the React Native
modern date picker:

- the `reducer` that drives the picker's shared interaction state
  `{activeDate, selectedDate, monthOpen, timeOpen}` through its three actions
  `set`, `toggleMonth` and `toggleTime`, and throws on any other action type;
- the initial state the picker mounts with;
- the resolution of the `reverse` layout prop;
- the merge of the user's theme options over the built-in defaults.

The source works on plain JavaScript objects, so the model does too. An object is a
`map<string, Value>` (module `Js`), and a property the object lacks reads as
`undefined`. A `Value` is `undefined`, `null`, a boolean, a number or a string.
`!v` follows JavaScript truthiness. Object spread `{...a, ...b}` is map union, with
`b` winning on shared keys.

Module `Reducer` holds the reducer itself:

- An action's branch (`Kind`) is decided by strict equality of its `type` property
  with `'set'`, `'toggleMonth'` or `'toggleTime'`.
- Any other `type` is the explicit `Unexpected` kind.
- The thrown "Unexpected action" error is the `Failure(UnexpectedAction)` result.
  No new state is produced in that case.
- `set` is `{...state, ...action}`. Because of this, the action's own `type`
  property is copied into the state as well.

Module `InitialState` builds the mounted state and reads the two flags as the
four-state panel machine {closed, month open, time open, both open}. Module `Config`
holds the `reverse` rule and the theme merge.

The picker's `utils` class is not part of this model. Its `getToday()` result enters
as a value parameter `today`. `getDate` and `getFormated` enter as arbitrary function
parameters over an abstract date type.

## Model

| member | source | states |
|---|---|---|
| `Js.Spread` | src/datePicker/DatePicker.js:27 | object spread: the result has the keys of both objects, and the right object's value wins on a shared key while the left's value is kept elsewhere |
| `Js.Not` | src/datePicker/DatePicker.js:29 | `!v` is always a boolean, true exactly when `v` is falsy; on a boolean it is plain negation |
| `Reducer.KindOf` | src/datePicker/DatePicker.js:25-33 | the `switch` branch is chosen by strict equality of `action.type` with each of the three names; anything else is unexpected and keeps its tag |
| `Reducer.Reduce` | src/datePicker/DatePicker.js:24-35 | it fails exactly for an unexpected type, and then with the "Unexpected action" error; `set` yields the key-wise override of the state by the action, and the state's `type` becomes `'set'`; a toggle yields the state with only its own flag replaced by `!flag`, and every other property, present or absent, is unchanged |
| `Reducer.ToggleIgnoresPayload` | src/datePicker/DatePicker.js:28-31 | a toggle reads nothing from its action except `type`: two toggle actions of the same kind give the same result |
| `Reducer.ToggleTouchesOnlyItsFlag` | src/datePicker/DatePicker.js:28-31 | `toggleMonth` leaves every property except `monthOpen` reading as before; `toggleTime` does the same for `timeOpen` |
| `Reducer.ToggleFlagTruth` | src/datePicker/DatePicker.js:28-31 | one toggle flips the truth value of its own flag and keeps the truth value of the other flag |
| `Reducer.ToggleTwice` | src/datePicker/DatePicker.js:28-31 | the same toggle twice gives the original state with the flag replaced by its truth value as a boolean |
| `Reducer.ToggleInvolution` | src/datePicker/DatePicker.js:28-31 | when the flag already holds a boolean, the same toggle twice gives back exactly the original state |
| `Reducer.TogglesCommute` | src/datePicker/DatePicker.js:28-31 | `toggleMonth` then `toggleTime` gives the same state as `toggleTime` then `toggleMonth`, from every state |
| `Reducer.SetIdempotent` | src/datePicker/DatePicker.js:26-27 | dispatching the same `set` action twice gives the same state as dispatching it once |
| `Reducer.SetsCompose` | src/datePicker/DatePicker.js:26-27 | two successive `set` actions equal one `set` carrying the merge of both, with the later values winning |
| `Reducer.RunFailsIffUnexpected` | src/datePicker/DatePicker.js:32-33 | a sequence of dispatches fails exactly when some action in it has an unexpected type |
| `Reducer.RunTogglesKeepsShape` | src/datePicker/DatePicker.js:28-31 | toggles from a state whose two flags hold booleans succeed, keep the state's set of keys, and leave both flags booleans |
| `Reducer.RunToggles` | src/datePicker/DatePicker.js:28-31 | after any sequence of toggles, each flag's truth value is its initial one flipped once per toggle of its kind, and every other property reads as before |
| `InitialState.Initial` | src/datePicker/DatePicker.js:105-110 | the mounted state has exactly the four keys; `activeDate` is `current` when truthy and today otherwise; `selectedDate` is the formatted parse of `selected` when truthy and `''` otherwise; `monthOpen` is true exactly for mode `monthYear`, and `timeOpen` exactly for mode `time` |
| `InitialState.PanelsOf` | src/datePicker/DatePicker.js:108-109 | both panels are open exactly when both flags are truthy; only the month panel is open exactly when `monthOpen` alone is truthy; only the time panel is open exactly when `timeOpen` alone is truthy; both are closed exactly when neither flag is |
| `InitialState.PanelStep` | src/datePicker/DatePicker.js:28-31 | the four-state panel table: a toggle flips whether its own panel is shown and keeps whether the other is shown |
| `InitialState.PanelStepInvolution` | src/datePicker/DatePicker.js:28-31 | in the panel machine, the same toggle applied twice returns to the starting panels |
| `InitialState.ReduceFollowsPanelStep` | src/datePicker/DatePicker.js:28-31 | from every state, the reducer's toggles move the panels as the table does: a toggle flips its own panel and never closes the other, so both may be open |
| `InitialState.SetWithoutFlagsKeepsPanels` | src/datePicker/DatePicker.js:26-27 | a `set` that carries neither flag leaves the panels unchanged |
| `InitialState.InitialPanels` | src/datePicker/DatePicker.js:108-109 | the initial panels are month-open exactly for `monthYear`, time-open exactly for `time`, and closed for every other mode (`datepicker`, `calendar`); both are never open at mount |
| `InitialState.DefaultPropsInitial` | src/datePicker/DatePicker.js:49-60 | with the default props `current = ''`, `selected = ''` and `mode = 'datepicker'`, the picker starts on today, with nothing selected and no panel open |
| `InitialState.MonthYearThenToggleTime` | src/datePicker/DatePicker.js:105-110 | mounting in `monthYear` mode and then dispatching `toggleTime` succeeds and leaves both panels open |
| `InitialState.TogglesFromInitial` | src/datePicker/DatePicker.js:105-110 | from the mounted state, any sequence of toggles succeeds, keeps both dates and keeps exactly the four keys; each flag is the boolean of its mode test flipped once per toggle of its kind |
| `Config.ResolveReverse` | src/datePicker/DatePicker.js:99 | the `'unset'` sentinel resolves to the boolean `!isGregorian`, and any other value passes through unchanged |
| `Config.ResolveReverseDeclared` | src/datePicker/DatePicker.js:99 | for the declared values `true`, `false` and `'unset'` with a boolean calendar flag, the result is a boolean: the given one, or `!isGregorian` for `'unset'` |
| `Config.MergeOptions` | src/datePicker/DatePicker.js:100 | the merged theme holds every default key and every user key; a user value wins, and the default value is kept for each key the user does not give |
| `Config.MergeNoOptions` | src/datePicker/DatePicker.js:8-22 | with no user options, the theme is exactly the built-in table |
| `Config.MergeOptionsStable` | src/datePicker/DatePicker.js:100 | merging an already merged theme again changes nothing |
| `Config.MergeOverridesOneKey` | src/datePicker/DatePicker.js:100 | a single user option replaces its own key and leaves every other default in place |

## Left out

- React machinery is not modelled: the context, the `useReducer` hook's storage, `useState` and the provider. `Reducer.Run` folds the reducer over a sequence of dispatches only so that properties of whole traces can be stated.
- Rendering is not modelled. This covers `renderBody`, the `Calendar`, `SelectMonth` and `SelectTime` components, the view tree and its style sheet, and the `onLayout` height computation, which is floating-point arithmetic on layout sizes.
- The `utils` class is not part of this model. Calendar conversion, parsing, formatting and today's date come in as parameters, so nothing is proved about them.
- PropTypes declarations are not modelled. They only emit runtime warnings, so the model accepts any value for `mode`, `reverse` and the other props.
- The observer callbacks (`onSelectedChange` and the others) are not modelled. This file only forwards them into the context and never calls them.
- Range checks, minute-interval validation and `disableDateChange` are not part of the reducer. `set` accepts any fields, and the model does the same.
- JavaScript values are restricted to `undefined`, `null`, booleans, integer numbers and strings. Floating-point numbers, `NaN`, nested objects and arrays are left out.
- Property enumeration order of the objects is not modelled; maps have no order.
- Prop defaults from destructuring (`current = ''` and the rest) are not applied by `InitialState.Initial`, which takes the props as already resolved. `InitialState.DefaultPropsInitial` states the outcome for the default values.
- A `null` or `undefined` action is not modelled. In the source, reading `action.type` on it would throw a `TypeError`. An action here is always an object.
