# Post feed: time-ago phrases, count formatting and the feed view state

A Dafny model of the two pieces of logic in the SC-Hack-25 Android feed app that are
not layout: the post card's helpers (`calculateTimeAgo`, `formatCount`,
`toPostCardData` in `PostCard.kt`) and the feed's view-state machine (`PostUiState`
and `PostViewModel` in `PostViewModel.kt`).

Files:

- `wrappers.dfy` — `Option`, standing for "returns a value or throws".
- `decimal.dfy` — `Decimal`: the plain decimal rendering of a number that Kotlin's
  string templates produce (`Digits`), the reference reading back (`Value`) and
  their round trip.
- `post.dfy` — `PostModel`: the `Post` record and Kotlin's 32-bit `Int`.
- `post_card.dfy` — `PostCard`: timestamp normalisation, the `when` cascade that
  picks the phrase, a range-based reference classification it is proved equal to,
  the parse-failure fallback, comma grouping of counts and the card data.
- `post_view_model.dfy` — `ViewModel`: the three-variant state, the mock post list
  and the view model as a class with one state cell.

How the foreign calls are modelled:

- `Instant.parse` is a parameter `parse: string -> Option<int>`; `None` is a thrown
  parse exception. Instants are integers counting nanoseconds since the epoch.
- `Instant.now()` is a parameter `now`.
- `Duration.between(t, now)` keeps a seconds field and a non-negative nanosecond
  field, so its seconds field is the elapsed time rounded down (`DurationSeconds`).
  `toMinutes`, `toHours` and `toDays` divide that field rounding toward zero, which
  `TruncDiv` writes out. For negative durations this differs from Dafny's `/`, and
  such durations still all read "Just now".
- The load coroutine is split into its two writes to the state cell. `LoadPosts`
  launches it and writes Loading; the main dispatcher runs that write before
  `launch` returns. `CompleteLoad` is the write after the delay. The ghost counter
  `pending` counts launched loads that have not written their result yet. The
  ghost `history` keeps every value written to the cell.

Behaviour of the code worth stating outright:

- Overlapping loads: the code has no guard. Every load writes the same
  `Success(getMockPosts())`, so the order in which loads finish cannot change the
  final state (`PostViewModel.Valid`).
- The active code never writes `Error`; the failure path is commented out.
- A negative elapsed time (a timestamp in the future) is not clamped, but it
  always reads "Just now" (`Classify`, `Phrase`).

## Model

| member | source | states |
|---|---|---|
| `PostCard.Normalize` | app/src/main/java/com/sudhindra/schack25/ui/components/PostCard.kt:251-254 | every space becomes 'T' and no space remains; a 'Z' is appended exactly when the input has neither '+' nor 'Z'; the result always carries '+' or 'Z' |
| `PostCard.NormalizeIdempotent` | app/src/main/java/com/sudhindra/schack25/ui/components/PostCard.kt:251-254 | normalising twice gives the same string as normalising once |
| `PostCard.DurationSeconds` | app/src/main/java/com/sudhindra/schack25/ui/components/PostCard.kt:257 | the duration's seconds field is the elapsed nanoseconds rounded down to whole seconds |
| `PostCard.TruncDiv` | app/src/main/java/com/sudhindra/schack25/ui/components/PostCard.kt:260-266 | Long division as `toMinutes`/`toHours`/`toDays` use it: the remainder has the sign of the dividend and is smaller than the divisor |
| `PostCard.Classify` | app/src/main/java/com/sudhindra/schack25/ui/components/PostCard.kt:259-267 | the reference buckets as ranges of elapsed seconds: "just now" exactly below 60 s, including negative elapsed time; any other number is at least 1 and below the next unit (minutes < 60, hours < 24, days < 7, weeks 1..4, months 1..12) |
| `PostCard.Phrase` | app/src/main/java/com/sudhindra/schack25/ui/components/PostCard.kt:259-267 | the `when` cascade over truncated minutes, hours and days yields exactly the phrase of the range-defined bucket, so every non-failing input gets one phrase |
| `PostCard.PhraseExamples` | app/src/main/java/com/sudhindra/schack25/ui/components/PostCard.kt:259-267 | worked cases: 30 s and -90 s give "Just now", 60 s "1 minute ago", 300 s "5 minutes ago", 2 h "2 hours ago", 7 days "1 week ago", 400 days "1 year ago" |
| `PostCard.RenderShape` | app/src/main/java/com/sudhindra/schack25/ui/components/PostCard.kt:260-266 | the phrase is "Just now" or ends in " ago", with a trailing 's' on the unit exactly when the number is not 1 |
| `PostCard.RenderInjective` | app/src/main/java/com/sudhindra/schack25/ui/components/PostCard.kt:259-267 | different buckets give different phrases: a phrase determines its number and unit |
| `PostCard.RenderIsNotFallback` | app/src/main/java/com/sudhindra/schack25/ui/components/PostCard.kt:259-270 | no bucket renders as "Recently"; only the "just now" bucket renders as "Just now"; every other phrase starts with a digit |
| `PostCard.CalculateTimeAgo` | app/src/main/java/com/sudhindra/schack25/ui/components/PostCard.kt:248-271 | the result is "Recently" exactly when parsing the normalised string fails; otherwise it is "Just now" exactly when less than a minute has elapsed, and in general it is the phrase of the reference bucket of the elapsed seconds |
| `PostCard.FormatCountExample` | app/src/main/java/com/sudhindra/schack25/ui/components/PostCard.kt:235-241 | 1247 is formatted as "1,247" |
| `PostCard.GroupStripsBack` | app/src/main/java/com/sudhindra/schack25/ui/components/PostCard.kt:240 | deleting the commas from a grouped digit string gives the digits back |
| `PostCard.GroupIsGrouped` | app/src/main/java/com/sudhindra/schack25/ui/components/PostCard.kt:240 | grouping a digit string gives 1 to 3 leading digits and then groups of exactly three digits, each after a comma |
| `PostCard.GroupHasComma` | app/src/main/java/com/sudhindra/schack25/ui/components/PostCard.kt:240 | a grouped digit string has a comma exactly when it has more than three digits |
| `PostCard.FormatCount` | app/src/main/java/com/sudhindra/schack25/ui/components/PostCard.kt:235-241 | `formatCount(n)` starts with '-' exactly when `n` is negative, the rest is a well-formed three-digit grouping, and deleting the commas gives the plain decimal form of `n` |
| `PostCard.FormatCountComma` | app/src/main/java/com/sudhindra/schack25/ui/components/PostCard.kt:235-241 | `formatCount(n)` has a comma exactly when `n <= -1000` or `n >= 1000` |
| `PostCard.FormatCountRoundTrip` | app/src/main/java/com/sudhindra/schack25/ui/components/PostCard.kt:235-241 | reading a formatted count back (sign, digits, commas ignored) gives the count |
| `PostCard.ToPostCardData` | app/src/main/java/com/sudhindra/schack25/ui/components/PostCard.kt:43-48 | the card copies the image URL and text, keeps the default user name "Devotional Post Bot", and its time-ago is the phrase for the created date, "Recently" exactly when that date does not parse (conversion at PostCard.kt:277-283) |
| `Decimal.ValueOfDigits` | app/src/main/java/com/sudhindra/schack25/ui/components/PostCard.kt:261-266 | the decimal digits a string template prints for a number read back as that number |
| `Decimal.DigitsLength` | app/src/main/java/com/sudhindra/schack25/ui/components/PostCard.kt:240 | a number prints with at most k digits exactly when it is below 10^k |
| `ViewModel.MockPosts` | app/src/main/java/com/sudhindra/schack25/ui/viewmodel/PostViewModel.kt:76-158 | eight posts with ids "1" to "8" in order, pairwise distinct, each with non-negative likes and comments |
| `ViewModel.PostViewModel.constructor` | app/src/main/java/com/sudhindra/schack25/ui/viewmodel/PostViewModel.kt:29-34 | a new view model is in Loading (the spinner shows) with one load launched; the cell has held only Loading |
| `ViewModel.PostViewModel.LoadPosts` | app/src/main/java/com/sudhindra/schack25/ui/viewmodel/PostViewModel.kt:40-45 | from any state, the state becomes Loading before any result, one more load is pending, and the invariant (only Loading or the mock list is ever written) is kept |
| `ViewModel.PostViewModel.CompleteLoad` | app/src/main/java/com/sudhindra/schack25/ui/viewmodel/PostViewModel.kt:47-49 | a finishing load sets the state to Success with the mock list in source order, whatever the state was; Error is never written |
| `ViewModel.PostViewModel.Refresh` | app/src/main/java/com/sudhindra/schack25/ui/viewmodel/PostViewModel.kt:69-71 | refresh has exactly the effect of `loadPosts` |

## Left out

- Compose layout (`PostCard`, `StatBadge`, previews, `MainActivity`): presentation only. The one fact kept is that the refresh spinner shows exactly while the state is Loading (`IsRefreshing`, MainActivity.kt:60).
- Random like and comment counts in the card (`(20..500).random()`): nondeterministic UI state.
- `Instant.parse`, `Instant.now`: library calls, taken as parameters. Which strings parse is not modelled.
- Coroutine scheduling and the 1.5 s delay: only the two writes of each load are modelled. `pending` counts the loads between them.
- `StateFlow` delivery to collectors: collectors may miss a value written twice in a row, since equal values are conflated. The model keeps every write in `history` and does not model what collectors observe.
- Networking (`PostRepository.getPosts`, `ApiService`, `RetrofitClient`) and the commented-out real-API path with its Error message "Unknown error occurred": not live code.
- `PostRepository.getMockPosts` builds posts with fields `Post` does not have. `toPostCardData` reads `createdDate` and `text`, which `Post` also lacks. It is therefore modelled over its three input strings.
- `String.format("%,d")` uses the default locale. Only the comma grouping the doc comment documents is modelled.
