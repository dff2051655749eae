# next-16 arithmetic tile game and account routes, modelled in Dafny

The web app is a small arithmetic puzzle with accounts. It takes an
equation pattern, such as `aa + b - c` with a range for each operand. It
draws the operands, evaluates the equation and splits the answer into 3
or 4 digits (0–9). Those digits are the correct tiles, and random decoy
tiles are added to them. The player selects tiles until the selected total
equals the answer and the number of selected tiles equals the number of
correct tiles.

The model covers:

- the digit splitter `splitMax9` (`Split`), as an imperative method over a
  sequence. Its random pick becomes a nondeterministic choice.
- the equation and tile generator (`Game`), and the two pattern tables
  (`GameConst`, and `LegacyGameConst` for `src/const/GAME_CONST.ts`).
- the step tables per difficulty level and their lookup (`Steps`).
- a proof that every declared pattern splits for every possible draw
  (`Feasibility`).
- the equation view's selection and its flags (`Equasion`).
- the zustand stores (`GameStore`, `LegacyGameStore`), as classes whose
  methods update fields.
- the sign-up and profile-update endpoints (`SignUpRoute`,
  `ProfileUpdateRoute`), as functions from the request and the answers of
  the backend to the response and the backend call.
- the sign-up and profile-edit forms (`SignUpForm`, `ProfileEditForm`), as
  classes over their React state. The reply of `fetch` is an input.

Random draws (`Math.random`, `randomIntFromInterval`) are nondeterministic
choices in the drawn interval. A `throw` becomes a `Failure` of a `Result`.
JavaScript numbers are modelled as unbounded integers. JSON request bodies are values
of `Json.Value`, with JavaScript truthiness.

The generator looks up pattern names in a name table, which is a
parameter. `src/app/game/utils/game.ts` imports the table from
`src/const/GAME_CONST.ts`, and that table has no `PATTERN_X` (finding 1).
The app's pattern table, `src/app/game/const/GAME_CONST.ts`, declares
`PATTERN_X`.

The model follows the code on three points:

- The code chooses the equation form by the pattern's name, not by how
  many ranges the pattern has.
- Each decoy tile has its own range: 3–9, 3–8 and 3–7 for three correct
  tiles, and 3–7, 3–7, 3–9 and 3–9 for four. There is no single decoy
  range.
- `generateTiles` never reads `number_of_tiles`. `PATTERN_X` declares 6
  tiles, but the generator lays out 8 (`Feasibility.PatternXTileCountIgnored`).

## Model

| member | source | states |
|---|---|---|
| Split.SplitMax9 | src/app/game/utils/game.ts:64-144 | Fails exactly when num < 0, parts ≤ 0 or min < 0 (RangeError, `BadArguments`), or when num > 9·parts (`Infeasible`). Otherwise it returns `parts` digits in [0, 9] that sum to num, so the internal-error throw cannot happen. The first-pass values meet their per-step bounds, sum to at most num, and the fix-up only raises them. |
| Split.EffectiveMin | src/app/game/utils/game.ts:85-94 | The effective minimum lies in [0, 9] and parts·m ≤ num. It is `min` when num ≥ parts·min. Otherwise it is below `min` and is the largest m with parts·m ≤ num, which is floor(num / parts). |
| Split.PickPart | src/app/game/utils/game.ts:100-115 | One drawn part lies between effectiveMin and min(9, remaining − partsLeft·effectiveMin). |
| Split.FirstPass | src/app/game/utils/game.ts:96-119 | The first pass yields `parts` values, each in [effectiveMin, 9] and each within its own step's bounds. The remainder num − sum is never negative. |
| Split.FixUp | src/app/game/utils/game.ts:121-133 | From a non-negative remainder, the fix-up brings the remainder to 0 and the sum to num. It keeps every entry a digit and never lowers an entry. |
| Split.ReserveIsProduct | src/app/game/utils/game.ts:103 | The amount reserved for the remaining parts, partsLeft·effectiveMin, equals the repeated addition used in the loop reasoning. |
| Split.SumUpdate | src/app/game/utils/game.ts:130 | Adding `space` to one entry changes the sum by exactly that amount. |
| Split.SumOfDigitsBounds | src/app/game/utils/game.ts:76-83 | n digits sum to a value in [0, 9·n]. So the Infeasible guard (num > 9·parts) is exact: no digit split exists beyond it. The final sanity check is dead for a different reason, the contract of `Split.FixUp`. |
| Split.SplitOfZero | src/app/game/utils/game.ts:72-83 | The only digit split of 0 is all zeros. |
| Split.SplitOfMaxTotal | src/app/game/utils/game.ts:76-83 | The only digit split of 9·parts is all nines. |
| Split.FirstPassCanFallShort | src/app/game/utils/game.ts:121-133 | The fix-up is reachable: splitting 27 into 3 parts with min 4 allows a first pass [4, 4, 9] that sums to 17, leaving a remainder of 10. |
| Game.RandomIntFromInterval | src/app/game/utils/game.ts:7 | The draw lies in [lo, hi]. |
| Game.GenerateEquasionFromPattern | src/app/game/utils/game.ts:146-185 | Through `Game.Dispatch`, the pattern name picks `a - b` (PATTERN_2), `a + b - c` (PATTERN_3), `a + b + c - d` (PATTERN_X) or `a + b` (any other name). Each operand is drawn from its own range, and the correct number is the signed sum of the operands. The call fails exactly when the pattern has fewer ranges than the form reads. |
| Game.SignedSumWithin | src/app/game/utils/game.ts:146-185 | Every answer the generator can draw lies between the lowest and highest signed sums of the ranges. |
| Game.LowestDraw | src/app/game/utils/game.ts:151-183 | Some in-range draw attains the lowest answer. |
| Game.HighestDraw | src/app/game/utils/game.ts:151-183 | Some in-range draw attains the highest answer. |
| Game.SumCorrectIsSplitSum | src/app/game/utils/game.ts:38-60 | When the correct tiles carry the split in order, their values sum to the sum of the split. |
| Game.GenerateTiles | src/app/game/utils/game.ts:33-62 | Fails exactly when splitMax9 rejects the answer, that is, when it is outside [0, 9·correct tiles]. On success the correct tiles come first and carry the split, so their sum is the answer. The decoys follow, drawn from their per-index ranges (`Game.DecoyRange`). Tile k has index k, and the layout has 6 or 8 tiles (`Game.LayoutSize`). |
| Game.GenerateEquasionAndTiles | src/app/game/utils/game.ts:9-26 | Never fails for a feasible pattern. On success it returns the pattern's name, the equation, its answer, tiles laid out for that answer and empty options. As written, the click count is left unset. |
| Game.GenerateEquasionAndTilesWithClickCount | src/app/game/types/game_types.ts:11-18 | The same generator, but `number_of_tiles_to_click` is set to the number of correct tiles, as the result type declares. |
| GameConst.PatternsWellDeclared | src/app/game/const/GAME_CONST.ts:1-61 | Each of the four patterns carries the name its table key maps to and the declared number of ranges. Every range has lo ≤ hi, and no pattern declares more correct tiles than tiles. |
| LegacyGameConst.NamesHaveNoPatternX | src/const/GAME_CONST.ts:1-5 | The older name table has exactly PATTERN_1, PATTERN_2 and PATTERN_3. |
| Feasibility.FeasibleDrawsSplit | src/app/game/utils/game.ts:9-17 | For a feasible pattern, every drawn answer lies in [0, 9·correct tiles], so splitMax9 accepts it. |
| Feasibility.InfeasibleHasBadDraw | src/app/game/utils/game.ts:79-83 | If a pattern is not feasible, some in-range draw gives an answer that splitMax9 rejects. |
| Feasibility.Pattern1Feasible | src/app/game/const/GAME_CONST.ts:8-19 | PATTERN_1 answers range over [18, 27] under either table, which fits 3 digits. |
| Feasibility.Pattern2Feasible | src/app/game/const/GAME_CONST.ts:21-32 | PATTERN_2 answers range over [14, 23] under either table. |
| Feasibility.Pattern3Feasible | src/app/game/const/GAME_CONST.ts:34-46 | PATTERN_3 answers range over [16, 27] under either table. |
| Feasibility.PatternXFallsThrough | src/app/game/utils/game.ts:167-184 | Through the imported table, PATTERN_X reaches the `a + b` branch. It reads only the first two ranges, and its answers range over [13, 18]. |
| Feasibility.PatternXFourTerms | src/app/game/const/GAME_CONST.ts:48-61 | Through the table that declares PATTERN_X, the form is `a + b + c - d`. Its answers range over [18, 32], which fits 4 digits. |
| Feasibility.LegacyPatternsFeasible | src/const/GAME_CONST.ts:9-47 | The older patterns give the same answer ranges and are all feasible. |
| Feasibility.DeclaredPatternsFeasible | src/app/game/const/GAME_CONST.ts:8-61 | Every declared pattern, of this table and of `src/const/GAME_CONST.ts` (lines 9-47), is generated without a throw under either name table. That includes the four constants `src/app/game/views/GameScreenView.tsx` (lines 23-26) passes to the view. |
| Feasibility.PatternXTileCountIgnored | src/app/game/utils/game.ts:49-60 | PATTERN_X declares 6 tiles, but its layout has 8. |
| Feasibility.EveryStepGenerates | src/app/game/const/STEPS_CONTS.ts:8-36 | Every step of every difficulty level is generated without a throw. |
| Steps.LadderAt | src/app/game/const/STEPS_CONTS.ts:8-36 | Step k + 1 sits at position k and uses PATTERN_1, PATTERN_2 or PATTERN_3 for the first three positions and PATTERN_X after them. |
| Steps.LadderPrefix | src/app/game/const/STEPS_CONTS.ts:8-36 | A shorter table of that shape is a prefix of a longer one. |
| Steps.TablesAreLadders | src/app/game/const/STEPS_CONTS.ts:8-36 | The easy, medium and hard tables are those shapes of length 5, 7 and 9. |
| Steps.StepsByDifficulty | src/app/game/utils/steps.ts:7-18 | For `Steps.GetGameStepsByDifficulty`: level 2 gives 7 steps, level 3 gives 9, and any other level gives the 5 easy steps. Step k + 1 sits at position k, with the first three patterns followed by PATTERN_X. |
| Steps.TablesArePrefixes | src/app/game/const/STEPS_CONTS.ts:8-36 | Easy is a prefix of medium, and medium is a prefix of hard. |
| Equasion.Toggled | src/app/game/components/Equasion.tsx:44-54 | The clicked index changes membership, and no other index changes. |
| Equasion.ToggleTwice | src/app/game/components/Equasion.tsx:47-52 | Clicking the same tile twice restores the selection. |
| Equasion.Evaluate | src/app/game/components/Equasion.tsx:28-42 | The total is the sum over the selected tiles (`Equasion.SelectedTotal`). The step is correct iff the click count equals the selection size and the total equals the answer. Overflow holds iff the total exceeds the answer. Too many tiles holds iff the selection exceeds a set click count. A correct step has neither overflow. |
| Equasion.SelectedTotalMonotone | src/app/game/components/Equasion.tsx:30-32 | With non-negative tile values, selecting more tiles never lowers the total. |
| Equasion.OverflowPersists | src/app/game/components/Equasion.tsx:35-42 | An overflowing selection stays overflowing, and never becomes correct, as tiles are added. |
| Equasion.SelectingCorrectTiles | src/app/game/components/Equasion.tsx:30-32 | Selecting exactly the correct tiles totals their values. |
| Equasion.StepNeverCorrectWithoutClickCount | src/app/game/components/Equasion.tsx:28-42 | With the click count unset, no selection is ever a correct step or too many tiles. |
| Equasion.CorrectTilesSolveStep | src/app/game/components/Equasion.tsx:39-42 | With the click count set, selecting the correct tiles of a generated equation is a correct step. |
| Equasion.EquasionView.constructor | src/app/game/components/Equasion.tsx:16-19 | The view starts with no equation and an empty selection. |
| Equasion.EquasionView.OnPattern | src/app/game/components/Equasion.tsx:21-24 | A new pattern yields a freshly generated equation, from `generateEquasionAndTiles` as written, and an empty selection. The equation's click count is unset. |
| Equasion.EquasionView.OnPatternWithClickCount | src/app/game/types/game_types.ts:15 | The corrected view: the same effect through the generator that sets the click count to the number of correct tiles. |
| Equasion.EquasionView.HandleTileClick | src/app/game/components/Equasion.tsx:44-54 | A click toggles that index and leaves the equation alone. |
| Equasion.EquasionView.Status | src/app/game/components/Equasion.tsx:26-42 | While the view has no equation, there are no flags ("Loading"). Otherwise the flags are Evaluate of the current state. |
| GameStore.ScoreStore.constructor | src/app/game/store/gameStore.ts:11 | The score starts at 0. |
| GameStore.ScoreStore.SetScore | src/app/game/store/gameStore.ts:12 | The score becomes s. |
| GameStore.ScoreStore.IncrementScoreByValue | src/app/game/store/gameStore.ts:13-14 | The score increases by exactly the value. |
| GameStore.ScoreStore.ResetScore | src/app/game/store/gameStore.ts:15 | The score becomes 0 from any state. |
| GameStore.GeneralGameStore.constructor | src/app/game/store/gameStore.ts:25 | The difficulty starts at 1. |
| GameStore.GeneralGameStore.SetDifficultyLevel | src/app/game/store/gameStore.ts:26 | The difficulty becomes the level. |
| GameStore.GeneralGameStore.IncrementDifficultyLevel | src/app/game/store/gameStore.ts:27-28 | The difficulty increases by exactly 1. |
| GameStore.ToggledView | src/app/game/store/gameStore.ts:42-46 | Toggling always changes the view. |
| GameStore.ToggleViewTwice | src/app/game/store/gameStore.ts:42-46 | Toggling twice is the identity. |
| GameStore.GameViewStore.constructor | src/app/game/store/gameStore.ts:40 | The view starts at MAIN_SCREEN. |
| GameStore.GameViewStore.SetGameView | src/app/game/store/gameStore.ts:41 | The view becomes v. |
| GameStore.GameViewStore.ToggleGameView | src/app/game/store/gameStore.ts:42-46 | MAIN_SCREEN and GAME_SCREEN swap. |
| GameStore.ToggleLeavesOtherStores | src/app/game/store/gameStore.ts:10-47 | Toggling the view changes neither the score nor the difficulty. |
| LegacyGameStore.ScoreStore.constructor | src/store/gameStore.ts:11 | The score starts at 0. |
| LegacyGameStore.ScoreStore.SetScore | src/store/gameStore.ts:12 | The score becomes s. |
| LegacyGameStore.ScoreStore.IncrementScoreByValue | src/store/gameStore.ts:13-14 | The score increases by exactly the value. |
| LegacyGameStore.ScoreStore.ResetScore | src/store/gameStore.ts:15 | The score becomes 0 from any state. |
| LegacyGameStore.IncrementTwiceThenReset | src/store/gameStore.ts:13-15 | Two increments add their sum, and a reset then yields 0. |
| Json.Utf16Length | src/app/api/auth/sign-up/route.ts:30 | JavaScript's `length` counts UTF-16 code units: between the number of characters and twice that. |
| Json.Utf16LengthOfBmp | src/app/api/auth/sign-up/route.ts:30 | For characters up to U+FFFF the length is the character count. |
| Json.Utf16LengthOfAstral | src/app/api/profile/update/route.ts:34 | Characters beyond U+FFFF count twice. |
| Json.Utf16LengthAppend | src/app/api/auth/sign-up/route.ts:30 | The length of a concatenation is the sum of the lengths. |
| Json.MessageOr | src/components/auth/SignUpForm.tsx:68 | `error \|\| fallback` gives the error when it is a non-empty string and the fallback otherwise. |
| SignUpRoute.Post | src/app/api/auth/sign-up/route.ts:17-56 | The service is called, with the body's email and password, iff the body is accepted, both fields are truthy and the password is not too short. Too short means a string of fewer than 8 UTF-16 code units, or an object whose own `length` property is a number below 8 (`SignUpRoute.TooShort`). The answer is 200 iff the service signs the user up. It is 500 iff `request.json()` or the destructuring rejects the body (invalid JSON or `null`), or the service throws. The status is always 200, 400 or 500. |
| SignUpRoute.RequiredFieldsFirst | src/app/api/auth/sign-up/route.ts:22-35 | A missing or empty field gives 400 "Email and password are required" before the length check, and the service is not called. |
| SignUpRoute.PasswordLengthBoundary | src/app/api/auth/sign-up/route.ts:30-35 | A password of 7 code units gives 400, and one of 8 reaches the service. |
| SignUpRoute.AstralPasswordPasses | src/app/api/auth/sign-up/route.ts:30-37 | A password of four characters beyond U+FFFF (8 code units) reaches the service. |
| SignUpRoute.ObjectPasswordLength | src/app/api/auth/sign-up/route.ts:30-37 | An object password is judged by its own `length` property. Below 8 gives 400 without calling the service. A length of 8 or more, or no numeric length, reaches the service. |
| SignUpRoute.RejectionIgnoresBackend | src/app/api/auth/sign-up/route.ts:22-41 | A rejected request gets the same response whatever the service would answer. |
| SignUpRoute.BackendErrorMessage | src/app/api/auth/sign-up/route.ts:37-41 | A service error gives 400 with the service's message. |
| ProfileUpdateRoute.Post | src/app/api/profile/update/route.ts:14-69 | The database is updated iff a user is signed in, the body's userId equals that user's id, and neither a string name over 100 nor a string bio over 500 is sent. The update targets the user's id with exactly full_name, bio and avatar_url. The answer is 200 iff the update succeeds, and 401 iff no user is signed in. It is 403 iff the body's userId is not the user's id. It is 500 iff an exception is raised: the auth lookup throws, `request.json()` or the destructuring rejects the body (invalid JSON or `null`), or the update throws. For the owner, a long string name gives 400 "Full name must be 100 characters or less", whatever the bio. A long string bio with an acceptable name gives the bio message. A database error gives 400 with its message. Lengths count UTF-16 code units. Every status is one of 200, 400, 401, 403 and 500. |
| ProfileUpdateRoute.UnauthenticatedFirst | src/app/api/profile/update/route.ts:17-21 | Without a user the answer is 401, whatever the body, even one that `request.json()` would reject. |
| ProfileUpdateRoute.OwnershipBeforeLengths | src/app/api/profile/update/route.ts:26-31 | Another user's id gives 403 before any length check. |
| ProfileUpdateRoute.NonStringFieldsSkipLengthChecks | src/app/api/profile/update/route.ts:34-46 | A null, empty or non-string name or bio is never rejected for length. |
| ProfileUpdateRoute.NameCheckedBeforeBio | src/app/api/profile/update/route.ts:34-46 | A long bio is reported only once the name passes. A long name is reported first. |
| ProfileUpdateRoute.BackendErrorMessage | src/app/api/profile/update/route.ts:55-57 | A database error on an accepted request gives 400 with the database's message. |
| ProfileUpdateRoute.AstralNameRejected | src/app/api/profile/update/route.ts:34-39 | A name of more than 50 characters beyond U+FFFF exceeds 100 code units and gets 400. |
| ProfileUpdateRoute.RejectionIgnoresBackend | src/app/api/profile/update/route.ts:19-46 | A rejected request gets the same response whatever the database would answer. |
| SignUpForm.ClientCheck | src/components/auth/SignUpForm.tsx:39-55 | The client check passes iff all three fields are non-empty, the passwords match and the password has at least 8 UTF-16 code units. Otherwise the message is one of the three client messages. |
| SignUpForm.ClientCheckOrder | src/components/auth/SignUpForm.tsx:39-49 | An empty field wins over a mismatch, and a mismatch wins over a short password. |
| SignUpForm.SentRequestsReachService | src/components/auth/SignUpForm.tsx:57-63 | Every request the form sends passes the endpoint's checks and reaches the auth service with the same email and password. |
| SignUpForm.SignUpForm.constructor | src/components/auth/SignUpForm.tsx:26-31 | The fields start empty, with not loading, no error and no success. |
| SignUpForm.SignUpForm.HandleSignUp | src/components/auth/SignUpForm.tsx:33-87 | The form posts (email, password) iff the client check passes. Otherwise its message is shown and loading is cleared. On an ok reply: success, cleared fields, loading still set. On a failed reply: the server's error or "Sign up failed". On an exception: "An unexpected error occurred". |
| ProfileEditForm.OrEmpty | src/components/auth/ProfileEditForm.tsx:25-27 | A null stored field becomes the empty string, and a string is kept. |
| ProfileEditForm.OrNull | src/components/auth/ProfileEditForm.tsx:44-46 | An empty field is sent as null, and any other field as its string. `ProfileEditForm.RequestBody` applies it to the three fields of the posted body. |
| ProfileEditForm.StoredRoundTrip | src/components/auth/ProfileEditForm.tsx:25-47 | Loading a stored field and submitting it unchanged gives it back, except a stored empty string, which comes back as null. |
| ProfileEditForm.FormBodyAccepted | src/components/auth/ProfileEditForm.tsx:38-48 | A body the form posts for the signed-in user, within the inputs' `maxLength` limits of 100 and 500 code units, passes every endpoint check and updates exactly the three fields. |
| ProfileEditForm.ProfileEditForm.constructor | src/components/auth/ProfileEditForm.tsx:24-30 | Null initial fields become empty strings, with not loading, no error and no success. |
| ProfileEditForm.ProfileEditForm.HandleSubmit | src/components/auth/ProfileEditForm.tsx:32-69 | The form posts the body mapped from its fields (`ProfileEditForm.RequestBody`). On an ok reply: success and not loading. On a failed reply: the server's error or "Failed to update profile". On an exception: "An unexpected error occurred". The fields never change. |

## Left out

- `Number.isInteger` checks in splitMax9 (the TypeError branch): every value in the model is an integer.
- The uniform distribution of `Math.random` and `randomIntFromInterval`: draws are arbitrary choices in the interval, so the model proves what holds for every draw.
- `randomIntFromInterval` itself (`src/utils/numbers.ts`) is not part of this model. Game.RandomIntFromInterval requires lo ≤ hi because its behaviour on an empty interval is not shown. Every declared range satisfies this (`GameConst.PatternsWellDeclared`).
- The `equasion_string` text: the equation is kept as its sequence of signed operands. The string rendering is presentation.
- Game.GenerateTiles: requires 3 or 4 correct tiles. `EQUASION_PATTERN_TYPE` widens `number_of_correct_tiles` to `number`, so the type alone does not ensure this. What does ensure it is the call site: the only caller of the modelled view, `src/app/game/views/GameScreenView.tsx` (lines 23-26), passes the four constants of `src/app/game/const/GAME_CONST.ts`. The step tables use only those too (`Feasibility.EveryStepGenerates`). The source's behaviour for other counts is not modelled. With 1 or 2, `splitMax9` throws the Infeasible RangeError whenever the answer exceeds 9·n, and the tile values are otherwise `undefined`. With 5 or more it drops split digits. With 0 or fewer `splitMax9` throws a RangeError.
- Game.GenerateEquasionFromPattern: a missing range throws a TypeError in the source. The model returns `MissingRange` instead.
- Split.SplitMax9: the single source function is modelled as three methods, `PickPart`, `FirstPass` and `FixUp`. `Reserve` (repeated addition) stands in for the product partsLeft·effectiveMin inside loop reasoning. `ReserveIsProduct` proves the two equal.
- Equasion.EquasionView.OnPattern and OnPatternWithClickCount: both require a feasible pattern. A generator that throws inside the React effect would reach an error boundary, and the model does not capture that. Every pattern the view's only caller, `src/app/game/views/GameScreenView.tsx` (lines 23-26), passes is feasible (`Feasibility.DeclaredPatternsFeasible`).
- The Tiles component, rendering, the "Loading" markup and the text of the flags.
- React's asynchronous state batching and effect scheduling: each handler is one atomic state change.
- The zustand subscription mechanism: each store is a class, and each action is a method.
- The form's `onChange` setters for single fields: the fields are plain assignable state.
- `fetch`, `response.json()`, the redirect timer (`router.push`) and `window.location.reload`: the reply is an input, and the timers are not modelled.
- The sign-up form's intermediate `loading` state during the request: only the state after the reply is stated.
- The auth service (`signUp`), the `getAuthUser` lookup and the `updateUserProfile` database call: their answers are inputs. The `data` field of a successful response is not modelled.
- JSON arrays and fractional numbers in request bodies: `Json.Value` has strings, integers, booleans, null, undefined, and objects described only by the numeric value of their own `length` property.
- Non-string `error` fields in replies: the reply's `error` is an optional string.
- Other routes (sign-in, sign-out, callback), the middleware and the Supabase clients are not part of this model.

## Findings

| source | as written | input that shows it | evidently intended | confidence | as-written member | corrected member |
|---|---|---|---|---|---|---|
| src/app/game/utils/game.ts:167 | `EQUASION_PATTERN_NAME` is imported from `src/const/GAME_CONST.ts`, which has no `PATTERN_X`. The PATTERN_X comparison is therefore against `undefined` and never matches. | EQUASION_PATTERN_X (name "PATTERN_X") yields `a + b` with a in [7, 9] and b in [6, 9]. The third and fourth ranges are ignored. | `a + b + c - d` over the four declared ranges, giving answers in [18, 32] | high; not executed | Feasibility.PatternXFallsThrough | Feasibility.PatternXFourTerms |
| src/app/game/utils/game.ts:19-25 | `number_of_tiles_to_click` is never set, so `numberOfTilesToClick === tilesClickedCount` (Equasion.tsx:40) compares with `undefined`, and `isStepCorrect` is always false. | Any generated equation, with the correct tiles {0, 1, 2} selected: the sum matches, but the step is not correct. | `number_of_tiles_to_click` equals `number_of_correct_tiles`, so selecting the correct tiles solves the step | high; not executed | Equasion.StepNeverCorrectWithoutClickCount | Equasion.CorrectTilesSolveStep |

`Equasion.EquasionView.OnPattern` models the view as written, with the
click count unset. `Equasion.EquasionView.OnPatternWithClickCount` is the
corrected view, using `Game.GenerateEquasionAndTilesWithClickCount`. The
generator takes the name table as a parameter. The source as written uses
`LegacyGameConst.Names`; passing `GameConst.Names` gives the corrected
dispatch.
