# Fitness tracker client: session, workout form and profile editor

A Dafny model of the sequential logic of a browser client for a fitness-tracking
API. The network, the browser's key-value store, React's scheduling and the
chart renderer are abstracted away; what remains is modelled as immutable
records and pure transition functions:

- **Session** (`session.dfy`, the authentication context): a session is the
  token held under `"jwttoken"` (`Option<string>`), the `isAuthenticated` flag
  and the cached `user`. It moves under the mount effect (`Startup`, and
  `Boot` = start-up followed by the user fetch it starts), `FetchUser`, `Login`
  and `Logout`. Token decoding is a `Decoder` parameter
  (`string -> Option<Claims>`, `None` when the decoder throws), the user request
  a `UserApi` parameter (`(id, bearer token) -> Fetched(record) | FetchFailed`),
  and the clock a `now: real` in seconds.
- **Workout page** (`workout.dfy`, `analytics.dfy`, `exercise_list.dfy`): the
  entry form and its handlers (set-count resize, per-set edits, the
  muscle-group lookup that resets the exercise), the coerced submit payload and
  form reset, the past-workout list with its sorted, de-duplicated exercise
  names, and the chart series built from analytics records.
- **Profile page** (`profile.dfy`): the draft seeded from the user, draft
  edits, and the submission: login check, then emptiness check, then numeric
  check, then payload normalisation (lower-cased gender, numbers parsed), token
  lookup and the request, whose reply decides `editing` and the message shown.
- **JavaScript semantics** (`js.dfy`): falsy values and `||`, `parseInt` with
  its default radix (decimal, or hexadecimal after `0x`; defined, with the
  decimal round trip proved), division that can give
  `Infinity`/`NaN`, ASCII `toLowerCase`. `Number(s)` and `parseFloat(s)` are
  left abstract in a `NumberSyntax` parameter.

In two places the code does less than a cautious design would, and the model follows the code:

- `login` does not log out when the user fetch fails; it ends authenticated
  with no user (`Session.LoginCanEndWithoutUser`).
- The chart averages are not guarded against `sets == 0`. Such a record plots
  `Infinity` or `NaN`, not 0 (`Analytics.ZeroSetsIsNotFinite`). No precondition
  excludes zero sets: the division result is modelled as a JavaScript number
  (`Js.Number`).

## Model

| member | source | states |
|---|---|---|
| `Session.Logout` | src/context/AuthContext.jsx:83-87 | whatever the prior state, the result has no stored token, is not authenticated and has no user |
| `Session.LogoutIdempotent` | src/context/AuthContext.jsx:83-87 | logging out twice equals logging out once, and equals the initial state over an empty store |
| `Session.StoredToken` | src/context/AuthContext.jsx:17-18 | a stored token counts only when present and non-empty (the `if (token)` test) |
| `Session.WithDefaults` | src/context/AuthContext.jsx:50-57 | falsy image becomes "/default-profile.png"; falsy height, weight, gender and age become "N/A"; truthy values and all other fields are copied |
| `Session.WithDefaultsIdempotent` | src/context/AuthContext.jsx:50-57 | filling in defaults a second time changes nothing |
| `Session.FetchUser` | src/context/AuthContext.jsx:37-62 | never changes the flag or the store; the user is present exactly when a non-empty token is stored and the request with that token succeeds, and is then the response with defaults |
| `Session.FailedFetchKeepsFlag` | src/context/AuthContext.jsx:39-61 | with no token stored, or a failing request, only `user` changes, to none |
| `Session.Expired` | src/context/AuthContext.jsx:22-23 | a token is expired exactly when it has an `exp` strictly below the current time in seconds; one without `exp` never expires |
| `Session.Boot` | src/context/AuthContext.jsx:16-62 | with an absent or empty stored token nothing changes; an undecodable or expired one ends logged out; a valid one ends authenticated with the token kept and the user present iff the fetch for the decoded id succeeds, then with defaults filled in |
| `Session.Startup` | src/context/AuthContext.jsx:16-35 | no usable token: nothing changes and nothing is fetched; undecodable or expired token: logged out; otherwise authenticated, user untouched, and a fetch for the decoded id is started |
| `Session.StartupWithoutToken` | src/context/AuthContext.jsx:13-18 | with an absent or empty stored token the initial (false, null) state is kept through start-up and fetch |
| `Session.StartupDiscardsBadToken` | src/context/AuthContext.jsx:20-33 | a stored token that fails to decode or has `exp < now` ends logged out with the store cleared |
| `Session.StartupWithValidToken` | src/context/AuthContext.jsx:13-28 | a valid stored token authenticates with user still null and requests the decoded id; after the fetch the user is present iff that fetch succeeded |
| `Session.ExpiryIsStrict` | src/context/AuthContext.jsx:16-81 | a token whose `exp` equals `now` is accepted both at start-up and at login |
| `Session.Login` | src/context/AuthContext.jsx:64-81 | undecodable or expired token: logged out with the store cleared; otherwise the token stays stored, the flag is set, and the user is present iff the fetch with that token succeeds |
| `Session.LoginCanEndWithoutUser` | src/context/AuthContext.jsx:58-80 | a failed fetch does not abort login: it ends authenticated, with the token stored and no user |
| `Session.LoginKeepsFetchedUser` | src/context/AuthContext.jsx:50-76 | a successful login keeps the fetched record with defaults filled in |
| `Session.TransitionsKeepCoherent` | src/context/AuthContext.jsx:13-87 | every transition keeps "authenticated implies a stored token" and "a user implies a non-empty stored token" |
| `Session.BootIsCoherent` | src/context/AuthContext.jsx:16-62 | start-up followed by its fetch ends in a coherent session from any store content |
| `Js.ParseIntDecimal` | src/pages/WorkoutDetails.jsx:58 | `parseInt` reads back the decimal text of `n`, ignoring anything after the first non-digit, except that a lone 0 followed by `x` or `X` starts a hexadecimal number |
| `Js.LeadingSpaces` | src/pages/WorkoutDetails.jsx:58 | the white space `parseInt` skips: every skipped character is white space and the next one is not |
| `Js.ParseIntHex` | src/pages/ProfileLayout.jsx:82 | `0x` switches to hexadecimal: "0x1F" reads as 31 |
| `Js.ParseIntBarePrefix` | src/pages/ProfileLayout.jsx:82 | "0x" with no digit after the prefix reads as `NaN`, although it starts with the digit 0 |
| `Js.ParseIntNoDigits` | src/pages/WorkoutDetails.jsx:58 | text without digits parses as `NaN` |
| `Js.Divide` | src/pages/WorkoutDetails.jsx:145-151 | the quotient is finite iff the divisor is non-zero, and then times the divisor gives the dividend; 0/0 is `NaN` |
| `Js.LowerIsLower` | src/pages/ProfileLayout.jsx:73 | lower-casing leaves no upper-case ASCII letter and is idempotent |
| `Workout.Options` | src/pages/WorkoutDetails.jsx:89 | a known muscle group yields its table entry, any other key the empty list |
| `Workout.ExerciseTableShape` | src/pages/WorkoutDetails.jsx:30-37 | the table has exactly the six groups, three exercises each; "Legs" maps to Squats, Lunges, Leg Press |
| `Workout.MuscleGroupChange` | src/pages/WorkoutDetails.jsx:82-90 | sets the group, resets the exercise to "", offers the group's exercises, and leaves the set count, the arrays and the rest of the page unchanged |
| `Workout.ExerciseChange` | src/pages/WorkoutDetails.jsx:92-97 | only the exercise changes |
| `Workout.HandleInputChange` | src/pages/WorkoutDetails.jsx:55-68 | a set-count change keeps the text verbatim and makes both arrays `parseInt(text) or 0` empty entries long, failing with `RangeError` outside 0..2^32-1; any other field changes only itself |
| `Workout.SetsChangeToDecimal` | src/pages/WorkoutDetails.jsx:57-64 | typing the decimal text of `n` gives exactly `n` reps and `n` weights, all empty |
| `Workout.NegativeSetsThrows` | src/pages/WorkoutDetails.jsx:58-62 | a negative set count makes the state update `Array(n)` runs in throw `RangeError` |
| `Workout.NonNumericSetsIsZero` | src/pages/WorkoutDetails.jsx:58-63 | a set count without digits gives empty arrays |
| `Workout.Copied` | src/pages/WorkoutDetails.jsx:71 | the spread copy turns a hole into `undefined` and copies every other slot as it is |
| `Workout.SetSlot` | src/pages/WorkoutDetails.jsx:71-72 | element `i` becomes the typed text; every other old element is copied through the spread, so old holes become `undefined`; an index past the end grows the array to index + 1 with new holes between |
| `Workout.RepsChange` | src/pages/WorkoutDetails.jsx:70-74 | element `i` of the reps takes the text, the other reps are spread-copied, new holes fill any gap; the weights and the other fields are untouched |
| `Workout.WeightChange` | src/pages/WorkoutDetails.jsx:76-80 | element `i` of the weights takes the text, the other weights are spread-copied, new holes fill any gap; the reps and the other fields are untouched |
| `Workout.EditsKeepConsistent` | src/pages/WorkoutDetails.jsx:55-97 | in-range edits and successful field changes keep both arrays as long as the parsed set count |
| `Workout.ZeroSetsInputOutgrowsCount` | src/pages/WorkoutDetails.jsx:267-282 | with the set count "0" the reps input is shown (non-empty text) and one edit makes the reps array longer than the count |
| `Workout.ToPayload` | src/pages/WorkoutDetails.jsx:102-105 | the payload keeps both arrays' lengths and order; `undefined` and empty entries are sent as 0, holes (skipped by `map`) as `null`, and the other entries parsed |
| `Workout.HolesThenUndefined` | src/pages/WorkoutDetails.jsx:70-105 | typing rep 3 into an empty list sends `[null, null, 5]`; typing it again spreads the holes into `undefined` and sends `[0, 0, 5]` |
| `Workout.PayloadReadsDecimals` | src/pages/WorkoutDetails.jsx:104 | reps typed as decimal text of `n` are sent as `n` |
| `Workout.ConsistentPayload` | src/pages/WorkoutDetails.jsx:102-105 | a consistent form sends as many reps and weights as its set count |
| `Workout.Submit` | src/pages/WorkoutDetails.jsx:99-114 | a successful post resets the form to all-empty with empty arrays, changes nothing else on the page, and reloads the list; a failed one changes nothing |
| `Workout.SubmitLeavesConsistentForm` | src/pages/WorkoutDetails.jsx:109 | after a successful post the cleared form agrees with its (empty) set count |
| `Workout.FetchPastWorkouts` | src/pages/WorkoutDetails.jsx:116-192 | a successful reload stores the list and offers exactly its exercise names, strictly ascending, and changes nothing else; a failed one changes nothing |
| `Workout.FetchAnalytics` | src/pages/WorkoutDetails.jsx:127-138 | with no exercise chosen, or on failure, nothing changes; otherwise the records are stored |
| `ExerciseList.Insert` | src/pages/WorkoutDetails.jsx:183 | inserting into an ascending list keeps it ascending and adds exactly the new name |
| `ExerciseList.UniqueSorted` | src/pages/WorkoutDetails.jsx:181-184 | the result is strictly ascending (hence duplicate-free) and holds exactly the input's names |
| `ExerciseList.AscendingUnique` | src/pages/WorkoutDetails.jsx:183 | two strictly ascending lists with the same names are equal |
| `ExerciseList.UniqueSortedIgnoresOrder` | src/pages/WorkoutDetails.jsx:181-184 | the result depends only on which names occur, not on order or repetition |
| `ExerciseList.UniqueSortedLength` | src/pages/WorkoutDetails.jsx:181-184 | the result is as long as the number of distinct names |
| `Analytics.PrepareChartData` | src/pages/WorkoutDetails.jsx:140-178 | no data gives no chart; otherwise labels and three series as long as the input, in input order: the dates, the sets, and averages that are finite iff sets is non-zero and then times sets give the reps and weight totals |
| `Analytics.ChartOfConcat` | src/pages/WorkoutDetails.jsx:143-152 | the chart of `a + b` is the chart of `a` followed by the chart of `b`, series by series |
| `Analytics.ChartExample` | src/pages/WorkoutDetails.jsx:143-152 | sets 2, reps [10, 8], weights [50, 55] plot sets 2, 9 reps and 52.5 weight per set |
| `Analytics.ZeroSetsIsNotFinite` | src/pages/WorkoutDetails.jsx:145-152 | a zero-set record plots `Infinity`, `-Infinity` or `NaN` averages, never 0 |
| `Profile.Seed` | src/pages/ProfileLayout.jsx:24-41 | logged out or without a user the draft is untouched; with a user each of the six fields is the user's value, or "" when that is falsy; loading always ends |
| `Profile.SeedNeverMissing` | src/pages/ProfileLayout.jsx:29-37 | a seeded field is never null or undefined |
| `Profile.HandleInputChange` | src/pages/ProfileLayout.jsx:44-47 | the named field takes the typed text, every other field keeps its value |
| `Profile.StartEditing` | src/pages/ProfileLayout.jsx:222 | the edit button enters edit mode without touching the draft |
| `Profile.BuildPayload` | src/pages/ProfileLayout.jsx:72-83 | the payload carries the user's id, username and email verbatim, the gender lower-cased, height and weight as floats and age as an integer |
| `Profile.RequestToken` | src/pages/ProfileLayout.jsx:86 | the user record's token when truthy, otherwise the stored token, otherwise none; it is falsy exactly when both are missing or empty |
| `Profile.FailureText` | src/pages/ProfileLayout.jsx:107 | the error message is the server's when it sent a truthy one, otherwise "Failed to update profile" |
| `Profile.Submit` | src/pages/ProfileLayout.jsx:50-109 | logged out, empty field and non-numeric field are refused in that order with their messages; a request is sent iff every check passes and a user, a string gender and a token exist, and when the checks pass but one of those is missing the page is kept and "Failed to update profile" is shown; only an accepted request leaves edit mode |
| `Profile.LoggedOutRefusedFirst` | src/pages/ProfileLayout.jsx:53-56 | logged out, the submission is refused whatever the draft holds and nothing is sent |
| `Profile.EmptinessBeforeNumbers` | src/pages/ProfileLayout.jsx:58-69 | an empty field is reported as missing even when another field is not a number |
| `Profile.DefaultsFailNumericCheck` | src/pages/ProfileLayout.jsx:66-69 | a user whose height, weight or age was defaulted to "N/A" seeds a draft that is not empty but is refused as non-numeric when saved unchanged |
| `Profile.ValidSubmitSends` | src/pages/ProfileLayout.jsx:71-103 | a valid draft sends the user's id and lower-cased gender; acceptance leaves edit mode with the server's message, any failure leaves the page as it was |
| `Profile.MissingTokenFails` | src/pages/ProfileLayout.jsx:85-89 | with no token in the user record and none stored, the submission fails with the generic message and sends nothing |

## Left out

- HTTP requests, the browser store and token decoding are parameters or fields: the store is `Session.stored`, the decoder and the APIs are functions passed in, and each request is represented by the reply it got.
- React effect scheduling, asynchronous interleaving and stale closures (`...workoutData` in `handleMuscleGroupChange`) are not modelled; every handler runs to completion on the current state. Races between overlapping logins and logouts are therefore out of scope.
- `Number(s)` and `parseFloat(s)` are abstract (`Js.NumberSyntax`); floating-point rounding is not modelled: sums and averages are exact reals.
- Js.ParseInt: results are exact integers, while JavaScript rounds a result beyond 2^53 to the nearest double. This reaches every use: the set count (where such values exceed the array-length limit either way), the reps, and the profile age, which may be seeded from the server's record.
- Js.IsSpace: lists the white space of the Unicode version current when this model was written; space separators added by later Unicode versions are not listed.
- Js.Lower: lower-cases ASCII letters only; `toLowerCase` also maps non-ASCII letters.
- Profile.ParseIntValue: truncates a numeric field toward zero; `parseInt` on a number first converts it to text, which differs for magnitudes written in exponent notation.
- ExerciseList.Before: orders strings by Unicode code point; JavaScript's default `sort()` compares UTF-16 code units, which differs only for characters outside the Basic Multilingual Plane.
- Workout.Options: looks up the six table keys only; a key inherited from `Object.prototype` (such as "constructor") would return a non-array in the source.
- `handleRepsChange`/`handleWeightChange` with a negative index (which sets a property rather than an element) are not modelled; indices are natural numbers.
- A success reply whose body has no `message` would make `toast.success` show `undefined`; the message is modelled as a `Value` and not inspected.
- Chart options, JSX markup, toasts other than their text, and console logging are presentation only.
- The email-verification page is a single request whose message is displayed, and the build configuration holds no logic; neither is part of this model.
- The analytics request's missing base-URL prefix is a network-configuration concern and is not modelled.
