# MoodMate core, modelled in Dafny

MoodMate is a mobile app that suggests movies and music from the user's mood and the weather. Its
logic runs entirely on mock data. This project models that logic:

- the credit ledger and the "Get Credits" screen that tops it up;
- the mood provider with its 20-entry history, and the mood selector's sliders and emoji rule;
- the weather provider, the weather card's simulated fetch, its icon, label and display priority;
- the mock recommenders (shuffle, then take five) and the recent-picks mix;
- the module-level favourites list with save and remove;
- the movie and music filter editors;
- the demo authentication provider, plus the sign-up and sign-in forms' ordered checks;
- the segmented control's indicator geometry.

Providers and screens whose handlers update state become classes. Their fields are the React state,
and each method gives the whole new state in its `ensures`. A rule that only computes a value is a
function, and its properties are lemmas. Each module matches one source file; `Common` and
`MediaItems` hold shared values.

Foreign and nondeterministic inputs become parameters:

- Each `Math.random()` draw is a real in [0, 1).
- The `sort(() => 0.5 - Math.random())` shuffle is an arbitrary index permutation `perm`. The model
  assumes nothing more about the order it produces.
- The expo-location result is a `LocationOutcome`.
- Clock readings (`new Date()`) are a `Clock` value.
- The settled result of an awaited `signUp`/`signIn` is an `Outcome`. In this repository the
  provider's operations always resolve, and `Auth.AuthProvider` proves that. The forms take the
  outcome as a parameter so that their rejection branch can be stated at all.

Where code and comments disagree, the model follows the code:

- The weather card's comments promise temperatures of 5–35 °C and humidity of 30–70 %. The code
  `Math.floor(Math.random() * 30) + 5` and `Math.floor(Math.random() * 40) + 30` produces 5–34 and
  30–69. `WeatherCard.MockWeatherCoversRanges` shows these ranges are exact.
- Mood levels are documented as 1–10, but nothing enforces that range.

JavaScript details that are modelled explicitly:

- `trim` strips the ECMAScript white-space set.
- `length` counts UTF-16 code units.
- `x || 5` treats 0 as missing.
- Adding `undefined` to a number gives `NaN`.
- Writing past the end of an array leaves holes.

The app's root layout (app/_layout.tsx:41-51) mounts only the auth and theme providers, so the screens
there read the default credit, mood and weather contexts. The screen models assume a mounted
provider, except where the default context is modelled too: `Credits.Step` and its runs, and the
weather provider's `DefaultContext` scope, which `WeatherCard.WeatherCardView.Mount` covers.

## Model

| member | source | states |
|---|---|---|
| Common.Without | components/music/MusicFilterModal.tsx:76-81 | filtering out `x` keeps exactly the elements other than `x`, never grows the list, shrinks it when `x` was present, and is the identity when it was absent |
| Common.WithoutAppend | components/music/MusicFilterModal.tsx:76-81 | filtering distributes over concatenation, so the kept elements stay in their original order |
| Common.WithoutNoDup | components/music/MusicFilterModal.tsx:76-81 | filtering keeps a duplicate-free list duplicate-free |
| Common.Toggle | components/music/MusicFilterModal.tsx:42-50 | after a chip toggle the value is listed exactly when it was not before; other values are unaffected; an absent value is appended at the end |
| Common.ToggleTwiceAbsent | components/movies/MovieFilterModal.tsx:38-46 | toggling an unlisted value twice restores the original list |
| Common.ToggleTwicePresent | components/movies/MovieFilterModal.tsx:48-56 | toggling a listed value twice drops all its copies and appends it once |
| Common.ToggleNoDup | components/music/MusicFilterModal.tsx:42-50 | toggling keeps a duplicate-free genre or service list duplicate-free |
| Common.Trim | components/music/MusicFilterModal.tsx:67 | `trim()` yields an infix of the input cut only at white space, neither starting nor ending with white space |
| Common.TrimEmptyIffBlank | components/music/MusicFilterModal.tsx:67 | the trimmed text is empty exactly when the input is all white space, which is when `addArtist` does nothing |
| Common.TrimIdempotent | components/music/MusicFilterModal.tsx:67-70 | trimming the stored artist name again changes nothing |
| Common.Capitalize | components/home/WeatherCard.tsx:94 | only the first character changes, and it becomes its upper-case form (letters `a` to `z` only, see Left out); the rest of the string is kept as it is |
| Recommendations.RearrangeHead | utils/recommendations.ts:126 | taking the first index off an ordering takes its item off the rearranged multiset |
| MediaItems.TagAll | utils/recommendations.ts:145-146 | `map(item => ({...item, type}))` keeps every record, in order, and adds the same kind to each |
| Recommendations.RearrangeMultiset | utils/recommendations.ts:126 | two orderings that hold the same indexes pick the same multiset of items |
| Recommendations.PermutedCopy | utils/recommendations.ts:126 | a shuffled copy has the pool's length and exactly the pool's items |
| Recommendations.ShuffleAndTake | utils/recommendations.ts:126-127 | shuffle-then-slice returns min(5, pool size) items drawn from the pool without repetition, and the whole pool once it has at most five |
| Recommendations.GenerateMovieRecommendations | utils/recommendations.ts:119-128 | five movies, exactly the five mock movies in some order |
| Recommendations.GenerateMusicRecommendations | utils/recommendations.ts:130-139 | five songs, exactly the five mock songs in some order |
| Recommendations.GenerationIgnoresInputs | utils/recommendations.ts:119-139 | the mood, weather and filters arguments have no influence on either result |
| Recommendations.MoviePoolIds | utils/recommendations.ts:2-58 | the mock movies have the ids m1 to m5, all distinct |
| Recommendations.MusicPoolIds | utils/recommendations.ts:60-116 | the mock songs have the ids s1 to s5, all distinct |
| Recommendations.RecentPool | utils/recommendations.ts:145-146 | the first two movies tagged as movies, then the first two songs tagged as music |
| Recommendations.FetchRecentRecommendations | utils/recommendations.ts:141-150 | four items, exactly those four tagged records in some order, all with ids among m1, m2, s1, s2 |
| Favorites.HasId | utils/favorites.ts:45 | `some(fav => fav.id === id)` holds exactly when some entry has that id |
| Favorites.WithoutId | utils/favorites.ts:58 | removal keeps exactly the entries with other ids, leaves no entry with the id, and changes nothing for an unknown id |
| Favorites.WithoutIdAppend | utils/favorites.ts:58 | removal distributes over concatenation, so survivors keep their order |
| Favorites.Saved | utils/favorites.ts:42-49 | a known id leaves the list unchanged; otherwise the tagged item is appended and nothing else moves |
| Favorites.SavedKeepsIdsUnique | utils/favorites.ts:45-49 | saving keeps ids unique |
| Favorites.WithoutIdKeepsAbsent | utils/favorites.ts:58 | removal never brings in an id that was absent |
| Favorites.WithoutIdKeepsIdsUnique | utils/favorites.ts:58 | removing keeps ids unique |
| Favorites.SaveThenRemoveRestores | utils/favorites.ts:38-61 | saving a new item and then removing its id gives the original list back |
| Favorites.InitialFavorites | utils/favorites.ts:2-27 | the list starts with movie m2 and song s1, ids unique |
| Favorites.FavoritesStore.constructor | utils/favorites.ts:2-27 | the module-level list starts as the two initial favourites, with ids unique |
| Favorites.FavoritesStore.GetFavorites | utils/favorites.ts:29-36 | returns the current list and the user id plays no part |
| Favorites.FavoritesStore.SaveToFavorites | utils/favorites.ts:38-52 | the list becomes the `Saved` list, ids stay unique, and the result is always success |
| Favorites.FavoritesStore.RemoveFromFavorites | utils/favorites.ts:54-61 | the list loses every entry with the id, ids stay unique, and the result is always success |
| Credits.Spend | context/CreditContext.tsx:29 | `Math.max(0, prev - 1)`: one credit fewer, never below zero, and zero from zero or one |
| Credits.CreditLedger.constructor | context/CreditContext.tsx:17 | the provider starts with 10 credits |
| Credits.CreditLedger.UseCredit | context/CreditContext.tsx:28-30 | the balance becomes `Spend` of the old balance |
| Credits.CreditLedger.AddCredits | context/CreditContext.tsx:32-34 | the amount is added unchecked, negative amounts included |
| Credits.InitialBalance | context/CreditContext.tsx:10-17 | inside the provider 10, in the default context 0 |
| Credits.Step | context/CreditContext.tsx:10-34 | in the default context both operations do nothing; inside the provider they spend or add |
| Credits.RunStaysNonNegative | context/CreditContext.tsx:28-34 | from a non-negative balance, any sequence without negative top-ups keeps the balance non-negative |
| Credits.RunLowerBound | context/CreditContext.tsx:28-34 | a run ends at least at start + total added - number of uses |
| Credits.RunUpperBound | context/CreditContext.tsx:28-34 | without negative top-ups, a run never ends above start + total added |
| Credits.DefaultContextInert | context/CreditContext.tsx:10-14 | outside a provider no sequence of operations changes the balance |
| Credits.NegativeTopUpThenUseGainsCredits | context/CreditContext.tsx:29-33 | a negative top-up below zero, then a use, then the matching positive top-up ends 5 credits higher, because the use clamps at 0 |
| Credits.NegativeTopUpGoesBelowZero | context/CreditContext.tsx:33 | `addCredits` alone can drive the balance negative |
| GetCredits.FindPackage | app/modal/get-credits.tsx:49 | `find` returns the first package with the id, and none exactly when no package has it |
| GetCredits.PackageTable | app/modal/get-credits.tsx:12-17 | four packs with ids 1 to 4, amounts 20, 50, 100 and 200, and only pack 2 marked most popular |
| GetCredits.LookupKnownIds | app/modal/get-credits.tsx:46-55 | a pack is found exactly for ids 1 to 4, and it is the pack at that position |
| GetCredits.GetCreditsScreen.constructor | app/modal/get-credits.tsx:8-10 | the screen uses the given credit ledger and has not navigated back |
| GetCredits.GetCreditsScreen.HandlePurchaseCredits | app/modal/get-credits.tsx:46-55 | a known pack adds its amount and navigates back; an unknown id changes nothing |
| GetCredits.GetCreditsScreen.HandleSubscribe | app/modal/get-credits.tsx:57-63 | any plan adds 50 credits and navigates back |
| GetCredits.GetCreditsScreen.HandleWatchAd | app/modal/get-credits.tsx:65-70 | adds 5 credits and stays on the screen |
| MoodState.PushHistory | context/MoodContext.tsx:34 | the new history has min(old length + 1, 20) entries, the new mood first, then the old history's first min(old length, 19) entries in order |
| MoodState.ReplayKeepsNewest | context/MoodContext.tsx:29-35 | after any sequence of updates the history is the 20 newest moods, newest first |
| MoodState.ReplayBounded | context/MoodContext.tsx:34 | the history never exceeds 20 entries |
| MoodState.MoodProvider.constructor | context/MoodContext.tsx:22-27 | the initial mood is happiness 7, energy 6, stamped now, with an empty history |
| MoodState.MoodProvider.UpdateMood | context/MoodContext.tsx:29-35 | the levels are taken as given and stamped now, the new mood is prepended to the history, and the history stays bounded with the current mood at its head |
| MoodSelector.Emoji | components/home/MoodSelector.tsx:8-15 | each face is a single code point, and only the energetic one (⚡) lies in the Basic Multilingual Plane |
| MoodSelector.EmojiDistinct | components/home/MoodSelector.tsx:8-15 | the six faces have six different emoji |
| MoodSelector.HappinessLevel | components/home/MoodSelector.tsx:48 | a missing mood or a happiness of 0 reads as 5; any other value is kept |
| MoodSelector.EnergyLevel | components/home/MoodSelector.tsx:49 | a missing mood or an energy of 0 reads as 5; any other value is kept |
| MoodSelector.Classify | components/home/MoodSelector.tsx:51-58 | each emoji is shown on exactly one region of the happiness/energy plane, as produced by the first-match checks |
| MoodSelector.GetMoodEmoji | components/home/MoodSelector.tsx:47-59 | a missing mood shows the happy face; non-zero levels are classified as they are; a level of 0 is classified as 5 |
| MoodSelector.DefaultsShowHappy | components/home/MoodSelector.tsx:47-58 | with no mood, or both levels 0, the happy face shows |
| MoodSelector.ProviderStartShowsHappy | components/home/MoodSelector.tsx:47-58 | the provider's initial mood (7, 6) and the top levels (10, 10) show the happy face |
| MoodSelector.ThumbOffset | components/home/MoodSelector.tsx:37 | the thumb offset is a multiple of 30 that encodes the level |
| MoodSelector.ThumbOffsetsOfTicks | components/home/MoodSelector.tsx:35-45 | levels 1 to 10 place the thumb strictly left to right between 0 and 270 |
| MoodSelector.MoodSelectorView.constructor | components/home/MoodSelector.tsx:22-23 | the sliders start at the current levels, read with the `|| 5` default |
| MoodSelector.MoodSelectorView.UpdateHappiness | components/home/MoodSelector.tsx:25-28 | only happiness changes; energy is carried over from the current mood into the provider's update |
| MoodSelector.MoodSelectorView.UpdateEnergy | components/home/MoodSelector.tsx:30-33 | only energy changes; happiness is carried over |
| WeatherState.InitialWeatherWellTyped | context/WeatherContext.tsx:21-26 | the initial snapshot is 22 degrees, clear, humidity 60 |
| WeatherState.WeatherProvider.constructor | context/WeatherContext.tsx:15-26 | inside a provider the snapshot starts as the initial one; in the default context it is null |
| WeatherState.WeatherProvider.UpdateWeather | context/WeatherContext.tsx:15-30 | inside a provider the snapshot is replaced whole; the default context's no-op keeps it null |
| WeatherCard.ScaledBelow | components/home/WeatherCard.tsx:34-35 | a draw in [0, 1) scaled by n lies in [0, n) |
| WeatherCard.RandomIndex | components/home/WeatherCard.tsx:34-35 | `Math.floor(u * n)` is the integer in [0, n) just below u * n |
| WeatherCard.MockWeather | components/home/WeatherCard.tsx:33-38 | the simulated snapshot has temperature 5–34, humidity 30–69, one of the four conditions, and location "Current Location" |
| WeatherCard.MockWeatherCoversRanges | components/home/WeatherCard.tsx:33-38 | every temperature, condition and humidity in those ranges is produced by some draws |
| WeatherCard.GetWeatherIcon | components/home/WeatherCard.tsx:55-70 | sun, rain and umbrella exactly for clear, rainy and stormy; a cloud otherwise; the theme colour exactly when there is no snapshot or an unknown condition |
| WeatherCard.ConditionLabel | components/home/WeatherCard.tsx:94 | the label is the condition with its first character upper-cased |
| WeatherCard.ConditionLabels | components/home/WeatherCard.tsx:94 | the four conditions read Clear, Cloudy, Rainy and Stormy |
| WeatherCard.DisplayState | components/home/WeatherCard.tsx:80-101 | loading wins over the location error, which wins over the snapshot, which wins over "No weather data" |
| WeatherCard.WeatherCardView.constructor | components/home/WeatherCard.tsx:10-12 | the card reads the given weather provider and starts neither loading nor in error |
| WeatherCard.WeatherCardView.BeginFetch | components/home/WeatherCard.tsx:15-16 | the fetch starts loading and clears the location error |
| WeatherCard.WeatherCardView.FinishFetch | components/home/WeatherCard.tsx:18-46 | loading ends on every path; the error flag is set exactly when permission is refused or a call throws; only a found location inside a provider stores a new snapshot, and the default context keeps none |
| WeatherCard.WeatherCardView.FetchWeather | components/home/WeatherCard.tsx:14-47 | the whole fetch, with the same outcome-by-outcome state |
| WeatherCard.WeatherCardView.Mount | components/home/WeatherCard.tsx:49-53 | the mount effect fetches exactly when there is no snapshot, and otherwise changes nothing; a fetch ends loading and sets the error as `FinishFetch` does; inside a provider no fetch happens, and in the default context it always happens and leaves the snapshot null |
| MusicFilters.SelectOption | components/music/MusicFilterModal.tsx:55 | choosing the selected mood or activity clears it; choosing another selects it |
| MusicFilters.SelectOptionClearsIffSelected | components/music/MusicFilterModal.tsx:55 | for a real option the selection is cleared exactly when it was already selected |
| MusicFilters.SelectOptionTwice | components/music/MusicFilterModal.tsx:52-63 | choosing the same option twice, starting unset or from that option, returns to the start |
| MusicFilters.ToggleGenre | components/music/MusicFilterModal.tsx:42-50 | the genres are toggled and mood, activity and artists are unchanged |
| MusicFilters.SelectMood | components/music/MusicFilterModal.tsx:52-57 | only the mood changes |
| MusicFilters.SelectActivity | components/music/MusicFilterModal.tsx:59-64 | only the activity changes |
| MusicFilters.AddArtist | components/music/MusicFilterModal.tsx:66-74 | a non-blank, unlisted trimmed name is appended and the input is cleared; otherwise draft and input are untouched; other fields never change |
| MusicFilters.AddArtistKeepsArtistsUnique | components/music/MusicFilterModal.tsx:67 | adding never duplicates an artist and never adds a blank name |
| MusicFilters.RemoveArtist | components/music/MusicFilterModal.tsx:76-81 | the artist is filtered out and the other fields are unchanged |
| MusicFilters.AddThenRemoveArtist | components/music/MusicFilterModal.tsx:66-81 | removing an artist just added restores the draft |
| MusicFilters.MusicFilterModal.constructor | components/music/MusicFilterModal.tsx:39-40 | the draft starts as a copy of the parent's filters and the text box is empty |
| MusicFilters.MusicFilterModal.SetNewArtist | components/music/MusicFilterModal.tsx:40 | only the text box changes |
| MusicFilters.MusicFilterModal.ToggleGenreChip | components/music/MusicFilterModal.tsx:42-50 | the draft becomes `ToggleGenre` of the old draft; nothing else changes |
| MusicFilters.MusicFilterModal.SelectMoodChip | components/music/MusicFilterModal.tsx:52-57 | the draft becomes `SelectMood` of the old draft |
| MusicFilters.MusicFilterModal.SelectActivityChip | components/music/MusicFilterModal.tsx:59-64 | the draft becomes `SelectActivity` of the old draft |
| MusicFilters.MusicFilterModal.AddArtistFromInput | components/music/MusicFilterModal.tsx:66-74 | reports whether the name was accepted; draft and text box become `AddArtist` of the old ones |
| MusicFilters.MusicFilterModal.RemoveArtistTag | components/music/MusicFilterModal.tsx:76-81 | the draft becomes `RemoveArtist` of the old draft |
| MusicFilters.MusicFilterModal.HandleApply | components/music/MusicFilterModal.tsx:83-86 | the parent receives the draft unchanged and the editor closes |
| MusicFilters.MusicFilterModal.HandleReset | components/music/MusicFilterModal.tsx:88-98 | draft and parent both become the all-empty filters and the editor closes |
| MovieFilters.DefaultsOnSliders | components/movies/MovieFilterModal.tsx:63-69 | the reset filters are years 1980–2023 and runtimes 60–180, both on the sliders |
| MovieFilters.RuntimeSliderPositions | components/movies/MovieFilterModal.tsx:192-194 | a value is a runtime slider position exactly when it is 30 + 5k for some k from 0 to 42 |
| MovieFilters.ToggleGenre | components/movies/MovieFilterModal.tsx:38-46 | the genres are toggled and the ranges and services are unchanged |
| MovieFilters.ToggleStreamingService | components/movies/MovieFilterModal.tsx:48-56 | the services are toggled and the genres and ranges are unchanged |
| MovieFilters.MoveSlider | components/movies/MovieFilterModal.tsx:146-217 | each slider replaces only its own end of its own range |
| MovieFilters.EditsStayOnSliders | components/movies/MovieFilterModal.tsx:146-217 | a draft on the sliders stays on them after any toggle or slider move |
| MovieFilters.RangeOrderNotEnforced | components/movies/MovieFilterModal.tsx:146-173 | the year "from" can be moved above the year "to", so a range may be inverted |
| MovieFilters.MovieFilterModal.constructor | components/movies/MovieFilterModal.tsx:36 | the draft starts as a copy of the parent's filters |
| MovieFilters.MovieFilterModal.ToggleGenreChip | components/movies/MovieFilterModal.tsx:38-46 | the draft becomes `ToggleGenre` of the old draft |
| MovieFilters.MovieFilterModal.ToggleServiceRow | components/movies/MovieFilterModal.tsx:48-56 | the draft becomes `ToggleStreamingService` of the old draft |
| MovieFilters.MovieFilterModal.SlideTo | components/movies/MovieFilterModal.tsx:146-217 | the draft becomes `MoveSlider` of the old draft and stays on the sliders |
| MovieFilters.MovieFilterModal.HandleApply | components/movies/MovieFilterModal.tsx:58-61 | the parent receives the draft unchanged and the editor closes |
| MovieFilters.MovieFilterModal.HandleReset | components/movies/MovieFilterModal.tsx:63-73 | draft and parent both become the defaults and the editor closes |
| Auth.NewUser | context/AuthContext.tsx:82-87 | a sign-up installs uid new-user-123 with the given email and name and no photo, never the demo user |
| Auth.Patched | context/AuthContext.tsx:132 | `{...prev, ...data}` overwrites exactly the keys the patch carries and keeps the rest |
| Auth.UpdatedUser | context/AuthContext.tsx:132 | with nobody signed in the user stays null; otherwise the user is patched |
| Auth.Then | context/AuthContext.tsx:132 | combining two patches lets the later one's keys win |
| Auth.EmptyPatchIsIdentity | context/AuthContext.tsx:132 | an update with no keys changes nothing |
| Auth.UpdateIdempotent | context/AuthContext.tsx:132 | repeating an update has no further effect |
| Auth.UpdatesCompose | context/AuthContext.tsx:132 | two updates in a row equal one combined update |
| Auth.UpdateNeverSignsIn | context/AuthContext.tsx:132 | updating a null user leaves it null |
| Auth.AuthProvider.constructor | context/AuthContext.tsx:32-33 | nobody signed in, loading |
| Auth.AuthProvider.Mount | context/AuthContext.tsx:44-47 | the demo user is signed in and loading ends |
| Auth.AuthProvider.SignUp | context/AuthContext.tsx:68-93 | installs `NewUser(name, email)` and resolves; the password plays no part |
| Auth.AuthProvider.SignIn | context/AuthContext.tsx:95-107 | installs the demo user whatever the credentials and resolves |
| Auth.AuthProvider.SignOut | context/AuthContext.tsx:109-121 | clears the user and resolves |
| Auth.AuthProvider.UpdateUserProfile | context/AuthContext.tsx:123-138 | the user becomes `UpdatedUser` of the old one, and the call resolves |
| Signup.Utf16Length | app/auth/signup.tsx:34 | JavaScript's `length` is at least the number of code points and at most twice it, and equals it for text in the Basic Multilingual Plane |
| Signup.SignupError | app/auth/signup.tsx:24-37 | no error exactly when all four fields are filled, the passwords match and the password is at least 6 long; otherwise the first failing check's message, in the order empty, mismatch, length |
| Signup.MismatchReportedBeforeLength | app/auth/signup.tsx:29-37 | a short mismatched pair reports the mismatch; a short matching pair reports the length |
| Signup.AstralCharactersCountTwice | app/auth/signup.tsx:34 | three emoji pass the 6-character minimum |
| Signup.SignupScreen.constructor | app/auth/signup.tsx:13-20 | all fields empty, no error, not loading |
| Signup.SignupScreen.Enter | app/auth/signup.tsx:13-16 | only the four text fields change |
| Signup.SignupScreen.HandleSignup | app/auth/signup.tsx:22-50 | a failing check shows its message and makes no call; otherwise exactly one `signUp` call, loading false afterwards, navigation on success and the failure message on rejection |
| Login.LoginError | app/auth/login.tsx:20-23 | the only error is the missing-field message, given exactly when the email or the password is empty |
| Login.AnyFilledPairPasses | app/auth/login.tsx:20 | there is no format or length rule |
| Login.LoginScreen.constructor | app/auth/login.tsx:13-17 | empty fields, no error, not loading |
| Login.LoginScreen.Enter | app/auth/login.tsx:13-14 | only the two text fields change |
| Login.LoginScreen.HandleLogin | app/auth/login.tsx:19-36 | a missing field shows its message and makes no call; otherwise exactly one `signIn` call, loading false afterwards, navigation on success and "Invalid email or password" on rejection |
| SegmentedControl.Lookup | components/ui/SegmentedControl.tsx:27 | a width is a number exactly when its index is in range and reported, and `undefined` otherwise |
| SegmentedControl.Plus | components/ui/SegmentedControl.tsx:27 | the sum is a number exactly when both operands are, and `NaN` otherwise |
| SegmentedControl.OffsetIsSum | components/ui/SegmentedControl.tsx:25-28 | the loop's position is the sum of the widths before the segment when all are reported, and `NaN` exactly otherwise |
| SegmentedControl.FirstOffsetIsZero | components/ui/SegmentedControl.tsx:25-26 | segment 0 sits at offset 0 |
| SegmentedControl.OffsetMonotone | components/ui/SegmentedControl.tsx:26-27 | with non-negative widths, later segments never sit left of earlier ones |
| SegmentedControl.LoopBound | components/ui/SegmentedControl.tsx:26 | a negative selected index runs the loop zero times |
| SegmentedControl.WithWidth | components/ui/SegmentedControl.tsx:34-41 | entry `index` becomes the width, every other entry is kept, and a short list is padded with holes |
| SegmentedControl.WithWidthIdempotent | components/ui/SegmentedControl.tsx:34-41 | reporting the same width twice is reporting it once |
| SegmentedControl.LayoutKeepsReported | components/ui/SegmentedControl.tsx:34-41 | a report never loses an earlier one |
| SegmentedControl.SegmentedControlView.constructor | components/ui/SegmentedControl.tsx:18-21 | the widths start empty and both animated values start at 0 |
| SegmentedControl.SegmentedControlView.MoveIndicator | components/ui/SegmentedControl.tsx:23-32 | with no widths nothing changes; otherwise the indicator moves to `Offset` of the selected index and takes that segment's width |
| SegmentedControl.SegmentedControlView.Select | components/ui/SegmentedControl.tsx:23-32 | a new selection reruns the effect |
| SegmentedControl.SegmentedControlView.HandleLayout | components/ui/SegmentedControl.tsx:34-41 | the widths become `WithWidth` of the old ones and the effect reruns on the new list |

## Left out

- Rendering, styles, themes and animations. `withTiming` and `withSpring` are taken at their end values, and modal visibility is not modelled.
- Navigation is recorded as a flag (`navigatedBack`, `navigatedToTabs`, `closed`); routes are not modelled.
- The simulated delays (`setTimeout` of 500 ms and 2000 ms) and the asynchrony of the favourites and recommendation functions are not modelled. Each call is one atomic step.
- The distribution of `Math.random()` and of the comparator shuffle is not modelled. Any draw in [0, 1) and any permutation are allowed.
- The credit provider's empty effect on `user` is not modelled; it does nothing.
- The auth provider's commented-out Firebase calls and its `catch` branches are not modelled. The `catch` branches cannot be reached, because setting state does not throw.
- The default auth context outside a provider (null user, loading, no-op operations) is not modelled.
- Password visibility toggles on the forms are not modelled; they are presentation only.
- `console.log` and `console.error` output is not modelled.
- Credits.CreditLedger.AddCredits: JavaScript numbers are doubles. Amounts here are unbounded integers, so rounding of very large balances is not modelled.
- SegmentedControl: widths are unbounded reals rather than doubles, and a non-integer `selectedIndex` is not modelled.
- MoodState.MoodProvider: the current mood inside the provider is never null, so it is a plain field. The context default is only the constant `DefaultMood`.
- MoodSelector.MoodSelectorView.UpdateHappiness: the source spreads the current mood as of the last render. The model uses the provider's current mood, which is the same value when no other update intervened.
- Common.Capitalize: upper-cases only `a` to `z`. JavaScript's `toUpperCase` also maps other letters and can lengthen the string ("ß" becomes "SS"), so the model's length-preserving result differs from the source for a first character outside ASCII.
- WeatherCard.ConditionLabel: inherits the ASCII-only upper-casing of `Common.Capitalize`. The four conditions the type allows start with ASCII letters, and `WeatherCard.ConditionLabels` gives their labels exactly.
- MovieFilters.MovieFilterModal.SlideTo: its `requires OnSliderFor` stands for the slider's own clamping to its minimum and maximum and rounding to its step, which is not modelled; a value off the slider cannot reach the handler.
- WeatherState and MoodState: temperatures, humidity and mood levels are integers. The source types them as JavaScript numbers, so a non-integer value passed to `updateWeather` or `updateMood` is not modelled; every value the app itself produces is an integer.
- Auth.Patched: a patch key is either absent (`Keep`) or carries a value (`Put`). A key present with the value `undefined`, which `{...prev, ...data}` copies over the field, is not modelled.
- Signup.SignupScreen.HandleSignup and Login.LoginScreen.HandleLogin: the outcome of the awaited call is a parameter. The forms do not call `Auth.AuthProvider`, whose operations always resolve.
