# RecommendFlix, modelled in Dafny

RecommendFlix is a movie-recommendation site. It has a Spring backend, whose
recommendations come from Apache Mahout, and two React front ends. This project models
the pieces of it that follow stateable rules and proves what those rules promise.

- **Backend movie entity** (`MovieEntity`). `Movie` is a class. Its `UpdateRating` keeps a
  running average, and the invariant "average × count = sum of the ratings seen" is
  proved. From it follow "the average is the mean" and "the average stays within the
  ratings' bounds".
- **Backend service** (`RecommendationService`). It holds users, movies and ratings as
  a set and maps keyed by id. The Mahout engine is two uninterpreted functions. Modelled:
  - the rating upsert with its error order;
  - the look-ups of recommendations and similar items;
  - the DTO conversion;
  - the CSV export, which is a loop over a string writer.

  The export escapes double quotes in the description as section 2, rule 7 of RFC 4180
  says; the field decodes back to the description. Titles and genres are quoted but not
  escaped: `TitleWithQuoteNeverRoundTrips` shows that a title holding a double quote
  never decodes back to the title. A movie without a description makes the export fail (Java throws a
  `NullPointerException`); the model returns `Failure(NullDescription)`.
- **Mock data service** (`MockApi`). Modelled: the case-insensitive substring search,
  the "similar items" filter, the CSV export, and the canned answers. The fixture
  catalogue is a parameter.
- **Primary front end** (`App`, `MovieCard`, `VideoPlayer`).
  - `App` and `MovieCard` are the page's and the card's state cells, as classes.
  - `VideoPlayer` holds the trailer player. Its YouTube-id regular expression is modelled
    as a backtracking matcher, with JavaScript's leftmost, left-to-right and greedy
    priorities.
  - The player's iframe commands are an output log.
  - The keydown handler is registered again only when `isOpen` or `isPlaying` changes.
    The model therefore keeps the `isMuted` value the handler closed over
    (`handlerMuted`), and the M key toggles from that value, as the code does.
    `KeyMTwice` shows the consequence: pressing M twice with no play/pause in between
    mutes twice.
- **Second front end** (`Routes`, `Header`). Modelled: the route guards and the route
  table, the landing page reached from any path, the role-dependent navigation list, and
  the header's search, menu and logout handlers.

Shared helpers:
- `Wrappers`: `Option` / `Result` / `Outcome`.
- `Text`: JavaScript `trim` and `\s`, ASCII `toLowerCase`, `includes`, `join`, line
  splitting, decimal printing.
- `Lists`: filter, take, subsequence.
- `Types`: the front end's records.

Numbers printed with `%.1f` or by JavaScript's number-to-string conversion are a
formatter parameter (`showRating`, `showNumber`).

## Model

| member | source | states |
|---|---|---|
| MovieEntity.Movie.constructor | task4/backend/src/main/java/com/task4/model/Movie.java:37-40 | a new movie has average 0.0, count 0, no ratings seen, and the invariant holds |
| MovieEntity.Movie.UpdateRating | task4/backend/src/main/java/com/task4/model/Movie.java:62-70 | count grows by exactly one; the first rating becomes the average whatever it was; later ones give (average·count + rating)/(count + 1); only average and count change; the invariant is kept |
| MovieEntity.IncrementalMean | task4/backend/src/main/java/com/task4/model/Movie.java:63-68 | both branches of the update keep "average × count = sum of ratings" |
| MovieEntity.AverageIsMean | task4/backend/src/main/java/com/task4/model/Movie.java:62-70 | once rated, the average is the arithmetic mean of every rating passed since count was 0 |
| MovieEntity.AverageWithin | task4/backend/src/main/java/com/task4/model/Movie.java:62-70 | if every rating lies in [lo, hi], so does the average |
| MovieEntity.MeanWithin | task4/backend/src/main/java/com/task4/model/Movie.java:62-70 | the mean of values in [lo, hi] lies in [lo, hi] |
| MovieEntity.SumWithin | task4/backend/src/main/java/com/task4/model/Movie.java:62-70 | the sum of n values in [lo, hi] lies in [lo·n, hi·n] |
| RecommendationService.ConvertToDto | task4/backend/src/main/java/com/task4/service/RecommendationService.java:130-140 | the DTO carries id, title, genres, year, average, poster and description unchanged |
| RecommendationService.EscapeQuotes | task4/backend/src/main/java/com/task4/service/RecommendationService.java:124 | `replace("\"", "\"\"")`: text without a quote is unchanged, no character is added or lost from the set of characters used, and the text never gets shorter |
| RecommendationService.ExportLine | task4/backend/src/main/java/com/task4/service/RecommendationService.java:119-124 | a movie's line starts with its quoted title and a comma, follows it with the quoted "; "-joined genres and a comma, and ends with a comma and the quoted, escaped description |
| RecommendationService.ExportText | task4/backend/src/main/java/com/task4/service/RecommendationService.java:115-125 | fails, with the null-description error, exactly when some movie has no description; otherwise starts with the header line and ends with a newline |
| RecommendationService.FindAllById | task4/backend/src/main/java/com/task4/service/RecommendationService.java:43 | exactly the requested ids that are stored, each once |
| RecommendationService.Service.Dtos | task4/backend/src/main/java/com/task4/service/RecommendationService.java:45-47 | one DTO per id, in order, each the conversion of the stored movie |
| RecommendationService.Service.GetRecommendations | task4/backend/src/main/java/com/task4/service/RecommendationService.java:36-56 | fails iff the user is unknown; otherwise echoes the user, the algorithm name and 0.85, and returns exactly the stored movies among the engine's 10 recommendations as DTOs, no movie twice |
| RecommendationService.Service.GetSimilarItems | task4/backend/src/main/java/com/task4/service/RecommendationService.java:58-76 | fails iff the movie is unknown; otherwise echoes itemId and returns exactly the stored movies among the engine's 5 similar items |
| RecommendationService.Service.RateMovie | task4/backend/src/main/java/com/task4/service/RecommendationService.java:78-110 | unknown user, then unknown movie, fail before any write; on success the pair's rating is the new value, all other ratings are unchanged, and the movie's count grows by one even when a rating was replaced; the movie's id, title, genres, year, poster and description are unchanged |
| RecommendationService.UnescapeEscape | task4/backend/src/main/java/com/task4/service/RecommendationService.java:124 | doubling quotes is undone by RFC 4180 unescaping |
| RecommendationService.DescriptionFieldDecodes | task4/backend/src/main/java/com/task4/service/RecommendationService.java:119-124 | the quoted, escaped description field decodes to the description |
| RecommendationService.TitleWithQuoteNeverRoundTrips | task4/backend/src/main/java/com/task4/service/RecommendationService.java:119-120 | every title containing a double quote, quoted but not escaped, never decodes back to the title |
| RecommendationService.UnescapeShortens | task4/backend/src/main/java/com/task4/service/RecommendationService.java:119-120 | decoding a quoted field never makes it longer, and makes it strictly shorter when it holds a double quote |
| RecommendationService.TerminatedIsJoin | task4/backend/src/main/java/com/task4/service/RecommendationService.java:115-125 | header plus newline-terminated lines is the newline join of header, lines and an empty tail |
| RecommendationService.ExportLineStructure | task4/backend/src/main/java/com/task4/service/RecommendationService.java:115-125 | when no line of a movie contains a line break, the export read back by lines is the header, one line per movie in list order, and nothing after the last newline |
| RecommendationService.WriteCsv | task4/backend/src/main/java/com/task4/service/RecommendationService.java:115-125 | the writer loop produces exactly the export text, or the null-description failure |
| RecommendationService.AppendLine | task4/backend/src/main/java/com/task4/service/RecommendationService.java:118-125 | one more described movie appends exactly its line and a newline |
| RecommendationService.Service.ExportRecommendations | task4/backend/src/main/java/com/task4/service/RecommendationService.java:112-128 | fails as getRecommendations fails; otherwise is the export text of its movies |
| Text.TrimEmptyIff | src/App.tsx:31 | a query trims to empty iff it is all JavaScript white space |
| Text.TrimShape | task4/frontend/src/components/Header.tsx:20-21 | the trimmed query occurs in the query and neither starts nor ends with white space |
| Text.TrimIdempotent | task4/frontend/src/components/Header.tsx:20-21 | trimming twice is trimming once |
| Text.IncludesIff | src/services/api.ts:72-73 | `includes` holds iff the query occurs at some position |
| Text.SplitJoin | src/services/api.ts:47-52 | splitting a newline join of newline-free lines gives the lines back |
| Text.JoinSplit | src/services/api.ts:47-52 | joining the pieces of a split gives the text back |
| Lists.Filter | src/services/api.ts:71-74 | exactly the elements satisfying the test, as an order-preserving subsequence |
| Lists.FilterCounts | src/services/api.ts:71-74 | every value occurs in the result as often as in the input when it passes the test, and not at all otherwise |
| Lists.Take | src/services/api.ts:24 | `slice(0, n)`: the first min(n, length) elements |
| Lists.FilterCongruent | src/services/api.ts:71-74 | filters with the same test on every element agree |
| Lists.PrefixOfSubsequence | src/services/api.ts:24 | a prefix of a subsequence is a subsequence |
| MockApi.SearchMovies | src/services/api.ts:69-75 | exactly the catalogue movies whose lower-cased title or some genre contains the lower-cased query, in catalogue order, each as many times as it occurs in the catalogue |
| MockApi.SearchIgnoresCase | src/services/api.ts:72-73 | queries equal up to letter case give the same result |
| MockApi.ScoreText | src/services/api.ts:49 | the score column's fallback: "N/A" when the score is missing or zero, the printed score otherwise |
| MockApi.CsvRow | src/services/api.ts:48-50 | a row starts with the quoted title and a comma, follows it with the quoted "; "-joined genres and a comma, and ends with a comma and the score column |
| MockApi.ExportCsv | src/services/api.ts:46-52 | starts with the header; is the header alone for no items; otherwise ends with a newline and the last item's row, with no newline after it |
| MockApi.GetSimilarItems | src/services/api.ts:21-31 | echoes itemId; at most 5 movies, none the queried one, all with a non-zero score, in catalogue order, and all of them when fewer than 5 qualify; exactly the first min(5, n) of the n qualifying movies, as `slice(0, 5)` of the filter |
| MockApi.ExportCsvLines | src/services/api.ts:46-52 | when no row contains a line break, the CSV read back by lines is the header and one row per item, with no trailing newline |
| MockApi.UploadData | src/services/api.ts:33-40 | always succeeds, naming the file and the data kind in its messages |
| MockApi.RateMovie | src/services/api.ts:60-67 | always succeeds, whatever it is given |
| App.ButtonTarget | src/App.tsx:68-107 | no tab button selects the search tab |
| App.ButtonTargetsDistinct | src/App.tsx:68-107 | each button selects its own tab |
| App.Panels | src/App.tsx:111-156 | exactly one panel renders for each tab |
| App.PanelsDistinct | src/App.tsx:111-156 | different tabs render different panels |
| App.App.constructor | src/App.tsx:15-19 | initial tab is recommendations, results are the first 3 catalogue movies, movie 1 is selected, 5 recent ratings |
| App.App.HandleMovieRate | src/App.tsx:21-28 | an accepted rating adds exactly one to the counter; a rejected one leaves it |
| App.App.HandleSearch | src/App.tsx:30-45 | a blank query empties the results and keeps the tab; otherwise the results are the search of the untrimmed query, and the tab becomes search iff something was found |
| App.App.ClickTab | src/App.tsx:68-107 | a button selects its tab, never the search tab |
| App.App.SelectMovie | src/App.tsx:127 | the selected movie is the chosen one |
| MovieCard.InitialUserRating | src/components/MovieCard.tsx:13 | the movie's own rating, or 0 when absent |
| MovieCard.LitStars | src/components/MovieCard.tsx:72-76 | star s is lit iff s ≤ userRating |
| MovieCard.LitStarsCount | src/components/MovieCard.tsx:72-76 | lit stars form a prefix and number floor(userRating) clamped to 0..5 |
| MovieCard.ShowsBadge | src/components/MovieCard.tsx:33 | the badge shows iff asked for and the score is present and non-zero |
| MovieCard.BadgeSlotAsWritten | src/components/MovieCard.tsx:33-37 | the badge renders exactly when ShowsBadge holds, and the stray text "0" exactly when the card is asked to show a score that is zero |
| MovieCard.ZeroScoreShowsStrayZero | src/components/MovieCard.tsx:33-37 | a shown card with a zero score renders the text "0" |
| MovieCard.BadgeSlotIntended | src/components/MovieCard.tsx:33-37 | never stray text; the badge exactly when ShowsBadge holds, carrying the movie's score |
| MovieCard.BadgeSlotsAgree | src/components/MovieCard.tsx:33-37 | the written and intended slots agree except on a shown card with a zero score |
| MovieCard.MovieCard.constructor | src/components/MovieCard.tsx:11-13 | not hovered, the initial user rating, no onRate calls |
| MovieCard.MovieCard.ClickStar | src/components/MovieCard.tsx:15-18 | star k sets the rating to k and calls onRate(movie id, k) once; every call so far carries 1..5 |
| MovieCard.MovieCard.MouseEnter | src/components/MovieCard.tsx:23 | hovered afterwards |
| MovieCard.MovieCard.MouseLeave | src/components/MovieCard.tsx:24 | not hovered afterwards |
| VideoPlayer.GetYouTubeVideoId | src/components/VideoPlayer.tsx:25-28 | any id has 11 characters, none of `"`, `&`, `?`, `/` or white space, and is found only in URLs mentioning youtube.com/ or youtu.be/ |
| VideoPlayer.MatchAt | src/components/VideoPlayer.tsx:26 | a match starting at one position begins with youtube.com/ or youtu.be/ there, and its capture group, at or after that position, is 11 id characters |
| VideoPlayer.MatchFrom | src/components/VideoPlayer.tsx:26-27 | a result is an id position at or after the start, found only in text mentioning youtube.com/ or youtu.be/; none only when no start position matches |
| VideoPlayer.MatchFromIsLeftmost | src/components/VideoPlayer.tsx:26-27 | the leftmost match: none exactly when no start position matches, otherwise the capture group of the match at the first position that matches |
| VideoPlayer.LeftmostMatchId | src/components/VideoPlayer.tsx:25-28 | for every URL: null exactly when the expression matches at no position, otherwise the 11 characters of the capture group of the leftmost match |
| VideoPlayer.AfterYoutubeCom | src/components/VideoPlayer.tsx:26 | the alternatives after youtube.com/ locate an 11-character id |
| VideoPlayer.WatchUrlId | src/components/VideoPlayer.tsx:26 | www.youtube.com/watch?v=ID yields ID |
| VideoPlayer.EmbedUrlId | src/components/VideoPlayer.tsx:26 | www.youtube.com/embed/ID, followed by a query without '/', yields ID |
| VideoPlayer.ShortUrlId | src/components/VideoPlayer.tsx:26 | youtu.be/ID yields ID |
| VideoPlayer.WwwYoutubeComUrl | src/components/VideoPlayer.tsx:26-28 | on www.youtube.com, the id the path alternatives locate is the result |
| VideoPlayer.VideoIdOf | src/components/VideoPlayer.tsx:31 | no id without a non-empty trailer URL; otherwise the extracted id |
| VideoPlayer.EmbedUrl | src/components/VideoPlayer.tsx:32-34 | present iff an id was found, and is then exactly the embed prefix, the id and the fixed player parameters |
| VideoPlayer.EmbedUrlRoundTrip | src/components/VideoPlayer.tsx:31-34 | the embed URL yields the same id again |
| VideoPlayer.LoadingShown | src/components/VideoPlayer.tsx:231-238 | the loading block never shows, since rendering requires an id |
| VideoPlayer.Player.constructor | src/components/VideoPlayer.tsx:18-20 | controls shown, not playing, not muted, nothing posted |
| VideoPlayer.Player.SetOpen | src/components/VideoPlayer.tsx:71 | a changed isOpen re-registers the key handler with the current isMuted |
| VideoPlayer.Player.SetPlaying | src/components/VideoPlayer.tsx:71 | a changed isPlaying re-registers the key handler with the current isMuted |
| VideoPlayer.Player.TogglePlayPause | src/components/VideoPlayer.tsx:73-85 | with an iframe, posts pause when playing and play otherwise and flips isPlaying; without one, nothing changes |
| VideoPlayer.Player.MuteFrom | src/components/VideoPlayer.tsx:87-97 | posts unMute when the seen value is muted and mute otherwise, and sets isMuted to its opposite |
| VideoPlayer.Player.ToggleMute | src/components/VideoPlayer.tsx:87-97 | with an iframe, posts according to isMuted and flips it; without one, nothing changes |
| VideoPlayer.MuteButtonTwice | src/components/VideoPlayer.tsx:87-97 | two mute clicks restore the mute state |
| VideoPlayer.Player.RestartVideo | src/components/VideoPlayer.tsx:99-106 | posts seekTo [0, true] then playVideo, in that order, and leaves the player playing |
| VideoPlayer.Player.ToggleFullscreen | src/components/VideoPlayer.tsx:108-116 | toggles full screen only when there is an iframe |
| VideoPlayer.Player.KeyDown | src/components/VideoPlayer.tsx:47-71 | closed: no effect; Space, Escape, KeyM, KeyF: play/pause (which re-registers the handler, capturing the current isMuted), close, mute from the captured value, full screen; Space and KeyM with no iframe yet: no effect; other keys: no effect |
| VideoPlayer.KeyMTwice | src/components/VideoPlayer.tsx:47-71 | two M presses with a stale unmuted capture mute twice |
| VideoPlayer.Player.MouseMove | src/components/VideoPlayer.tsx:37-45 | controls shown and a hide timer pending |
| VideoPlayer.Player.HideTimerFires | src/components/VideoPlayer.tsx:42-44 | the controls hide |
| Routes.ProtectedRoute | task4/frontend/src/App.tsx:14-29 | visitors go to /login; signed-in non-admins (or no user) on an admin-only page go to /dashboard; otherwise the page renders |
| Routes.PublicRoute | task4/frontend/src/App.tsx:32-40 | signed-in users go to /dashboard; visitors get the page |
| Routes.RouteElement | task4/frontend/src/App.tsx:74-131 | a page renders only at its own path; login and register render only for visitors and every other page only when signed in; redirects go to /login, /dashboard or /; any path outside the table redirects to / |
| Routes.Resolve | task4/frontend/src/App.tsx:74-131 | the page reached by following redirects is the one the table renders at that page's own path |
| Routes.VisitorLanding | task4/frontend/src/App.tsx:74-131 | within two redirects a visitor sees the register page when asking for it and the login page otherwise |
| Routes.SignedInLanding | task4/frontend/src/App.tsx:74-131 | within two redirects a signed-in user sees the page asked for, the dashboard for login, register or a forbidden admin page, and home for unknown paths |
| Routes.OnlyAdminPathDependsOnRole | task4/frontend/src/App.tsx:94-127 | for signed-in users only /admin depends on the role |
| Header.NavItems | task4/frontend/src/components/Header.tsx:30-39 | the pushed list is the role's navigation list |
| Header.NavItemsFor | task4/frontend/src/components/Header.tsx:30-39 | Home, Recommendations, Browse, My List first, in order; Admin appended last iff the role is ADMIN, so 5 items for an admin and 4 otherwise |
| Header.NavItemsLand | task4/frontend/src/App.tsx:72 | the header shows only when signed in, and every nav item then reaches a page; Browse and My List land on home |
| Header.SubmittedQuery | task4/frontend/src/components/Header.tsx:18-23 | passes a query on iff there is a handler and the query is not blank, and then passes it trimmed |
| Header.Header.constructor | task4/frontend/src/components/Header.tsx:14-16 | empty query, menu and dropdown closed |
| Header.Header.TypeQuery | task4/frontend/src/components/Header.tsx:81 | the query is the typed text |
| Header.Header.SubmitSearch | task4/frontend/src/components/Header.tsx:18-23 | calls onSearch with the trimmed query exactly when SubmittedQuery allows |
| Header.Header.Logout | task4/frontend/src/components/Header.tsx:25-28 | logs out, then navigates to /login |
| Header.Header.ToggleProfile | task4/frontend/src/components/Header.tsx:107 | flips the dropdown |
| Header.Header.ChooseProfileLink | task4/frontend/src/components/Header.tsx:129-144 | Profile or Settings navigates and closes the dropdown |
| Header.Header.ToggleMenu | task4/frontend/src/components/Header.tsx:160 | flips the mobile menu |
| Header.Header.ChooseNavItem | task4/frontend/src/components/Header.tsx:59-67 | a desktop nav link only navigates |
| Header.Header.ChooseMobileNavItem | task4/frontend/src/components/Header.tsx:180-188 | a mobile nav link navigates and closes the menu |

## Left out

- The Mahout engine (Pearson similarity, JDBC data model) is modelled only by what the service sees: two functions from an id and a count to ids. The engine's `min(n, maxRecommendations)` clamp and `retrain` are not modelled, because they are internal to the engine.
- `findAllById` has no specified order in JPA. The model keeps the engine's order and drops missing and duplicate ids.
- MovieEntity.Movie.constructor: only the no-argument constructor's state is modelled. A movie made with the Lombok builder has a null `ratingCount` (there is no `@Builder.Default`), and its first `updateRating` throws on unboxing.
- MovieEntity.Movie.UpdateRating: averages are exact reals, not `double`s, and `ratingCount` is unbounded rather than a 32-bit `Integer` that wraps at 2³¹.
- RecommendationService.Service.RateMovie: the `retrain` call, the logging and the transaction boundary are not modelled. The rating entity is reduced to its value.
- RecommendationService.Service.GetRecommendations: `generatedAt` reads the clock and is not part of the response model.
- `%.1f` and JavaScript's printing of non-integral numbers are a formatter parameter; rounding is not modelled.
- A null title or null genres in the export are not modelled; only a null description and a null year are.
- `toLowerCase` is modelled on ASCII letters only; other case mappings of Unicode are not.
- The JSON branch of the mock export is a library serializer and is left out. So are the artificial delays of the mock service and the fixtures returned by `getUser` and `getRecommendations`, with their `User` and `Recommendation` records.
- The fixture catalogue (`mockMovies`) is a parameter; its contents are not modelled.
- App.App.HandleSearch: a rejected search request (the catch branch, which only logs) is not modelled. The mock search never rejects.
- App: loading the user on mount is not modelled; the user id is a constructor parameter.
- React paths are compared exactly. React Router's case-insensitive and trailing-slash matching is not modelled.
- The player's effects are a log: it records which command was posted (play, pause, mute, unmute, seek), not the JSON text of the message. `postMessage` delivery, `requestFullscreen` and the document's full-screen state are not modelled.
- The three-second control-hide timer is an event (`HideTimerFires`), not a clock.
- RecommendationService.ExportLineStructure: a description (up to 1000 characters) or a title may contain a line break. The line structure is proved only for exports where none does.
- MockApi.ExportCsvLines: likewise, only for items whose rows contain no line break.
- Strings are sequences of Unicode code points. JavaScript and Java index UTF-16 code units, so for text outside the Basic Multilingual Plane the regular expression's `.` and `{11}`, and `trim`'s positions, count one character where the source counts two.
- Animations, styling and the presentational components carry no rules and are not modelled.

## Findings

| source | as written | input that shows it | evidently intended | confidence | as-written member | corrected member |
|---|---|---|---|---|---|---|
| src/components/MovieCard.tsx:33 | `showSimilarityScore && movie.similarityScore && <badge/>` renders the number `0` as text when the score is 0 | `showSimilarityScore = true`, `similarityScore = 0` | no badge and no text for a zero score | not executed | MovieCard.BadgeSlotAsWritten | MovieCard.BadgeSlotIntended |
