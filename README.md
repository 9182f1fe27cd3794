# MusicRater core, modelled in Dafny

MusicRater is a React Native app for rating songs. A SQLite store (`database.js`) holds
a `songs` table and a `ratings` table with one rating per song. The app also has:

- a catalog of achievements with counting queries and thresholds (`achievements.js`);
- a fuzzy title matcher based on Levenshtein distance (`utils.js`);
- three screens with real logic:
  - the lyrics guessing game (`screens/GameScreen.js`),
  - the form for rating a hand-entered song (`screens/CustomRatingScreen.js`),
  - the list of an artist's top tracks that are not yet rated (`screens/TopTrackScreen.js`).

The project models each of these in its own module:

- **`Database`** (`database.dfy`) — the store, as the class `RatingStore`.
  - The tables are maps and the handle is a flag.
  - The schema's PRIMARY KEY, UNIQUE, CHECK, FOREIGN KEY and AUTOINCREMENT rules are the invariant `TablesValid`.
  - The rowid SQLite gives an inserted rating is a parameter. The model only requires it to be larger than every id handed out before, since AUTOINCREMENT may leave gaps.
  - Every exported operation is a method whose contract states the whole new state.
  - The query builder of `getAllRatings` is proved to select exactly the rows the filters describe, sorted in the requested order.
- **`Achievements`** (`achievements.dfy`) — the catalog as data.
  - Each definition's query is a counting strategy over abstract rating records, unlock rows and usage counters.
  - The lemmas cover the catalog's invariants, the tier collectors, and the monotonicity of every count.
- **`Levenshtein`** (`levenshtein.dfy`) — the two-row dynamic programme as an imperative method on arrays.
  - It is proved equal to the textbook recurrence.
  - Bounds, symmetry and the zero case are proved about that recurrence, and from them the properties of the similarity.
- **`GuessGame`** (`guessgame.dfy`) — the game screen as a class.
  - Its fields are the screen's state slots; the per-round slots are grouped in one `RoundView` value.
  - The guess check, the jokers, the lyrics preview and the random song pick are modelled.
  - The bounded retry loop of `startGame` is a method proved equal to a recursive specification. Lemmas show it tries only fresh songs and keeps the song whose lyrics it found.
  - `startGame` is modelled as written: a round reads the discography and used list of the render it started in, even after an artist switch. The evidently intended source is defined beside it (see Findings).
  - The effect that clears an exhausted discography is modelled too.
- **`CustomRating`** (`customrating.dfy`) — the custom-rating form as a class over a `RatingStore`.
  - It models the validation order, the `custom-<milliseconds>` id, and the write of the song and then its rating.
  - It models the reset of the form after a save.
- **`TopTracks`** (`toptracks.dfy`) — the top-tracks screen as a class over a `RatingStore`.
  - It models the order-preserving filter of unrated tracks and the error states of `loadData`.
  - It models `handleAddTrack`, which writes the song and then removes the track from the list.
- **`Strings`** and **`Wrappers`** — shared helpers:
  - `Strings` holds the ASCII behaviour of `toLowerCase` and `trim`, substring search, `split`/`join` with their round trips, and decimal rendering of naturals.
  - `Wrappers` holds `Option`.

Results of outside services are passed in as parameters. This covers:

- the Spotify search and track requests;
- the discography download;
- the lyrics service;
- `Math.random()`, as a list of reals in [0, 1);
- AsyncStorage's current profile;
- `Date.now()` and SQLite's `CURRENT_TIMESTAMP`, as natural numbers.

## Model

| member | source | states |
|---|---|---|
| `Wrappers.Option.GetOr` | database.js:98-99 | `x ?? d`: the wrapped value when present, the default otherwise |
| `Strings.Lower` | screens/GameScreen.js:149-150 | `toLowerCase` keeps the length and folds each character on its own |
| `Strings.Trim` | screens/GameScreen.js:149 | `trim()` is a contiguous piece of the text with only white space cut away before and after it, and neither of its ends is white space |
| `Strings.TrimEmptyIffBlank` | screens/GameScreen.js:203 | `l.trim() !== ''` holds exactly when the line has a non-space character |
| `Strings.Contains` | database.js:80 | the substring search succeeds iff the needle occurs at some position of the text |
| `Strings.Split` | screens/GameScreen.js:203 | `split('\n')` gives at least one piece, and no piece holds the separator |
| `Strings.SplitJoin` | screens/GameScreen.js:203-204 | splitting a join of separator-free lines gives the lines back |
| `Strings.JoinSplit` | screens/GameScreen.js:203-204 | joining the pieces of a split gives the text back |
| `Strings.NatToString` | screens/CustomRatingScreen.js:37 | the template literal renders a number as a non-empty string of decimal digits |
| `Strings.NatToStringInjective` | screens/CustomRatingScreen.js:36-37 | different numbers render differently |
| `Strings.StrLeTotal` | database.js:113 | the BINARY string order of ORDER BY relates every pair of strings |
| `Strings.StrLeTransitive` | database.js:113 | the BINARY string order is transitive |
| `Levenshtein.PrefixDist` | utils.js:9-18 | definition: the edit distance of the prefixes `a[..i]` and `b[..j]` by the recurrence the table cells compute (delete, insert, substitute with cost 0 or 1) |
| `Levenshtein.Dist` | utils.js:1-26 | definition: `PrefixDist` of the whole strings, the value `levenshteinDistance` is proved to return |
| `Levenshtein.CellStep` | utils.js:12-18 | one table cell is the minimum of deletion, insertion and substitution from its three neighbours |
| `Levenshtein.FillRow` | utils.js:10-19 | the inner loop fills row `i` of the distance table from row `i - 1` |
| `Levenshtein.LevenshteinDistance` | utils.js:1-26 | the two-row programme, with its early returns and row swap, returns the edit distance of the recurrence |
| `Levenshtein.DistEmpty` | utils.js:2-3 | the distance to or from the empty string is the other string's length in code points |
| `Levenshtein.DistBounds` | utils.js:1-26 | the distance is at most the longer length and at least the length gap |
| `Levenshtein.DistSymmetric` | utils.js:1-26 | the distance does not depend on the argument order |
| `Levenshtein.DistZeroIff` | utils.js:1-26 | the distance is 0 exactly for equal strings |
| `Levenshtein.Similarity` | utils.js:28-32 | the similarity lies in [0, 1] and is 1 exactly for equal strings, two empty strings included |
| `Levenshtein.SimilaritySymmetric` | utils.js:28-32 | the similarity does not depend on the argument order |
| `Achievements.CatalogSize` | achievements.js:1-380 | the catalog has the 40 definitions (name, query, threshold) of `ACHIEVEMENT_DEFINITIONS`, from `pioneer` with threshold 1 to `artist_mode_gold` with threshold 30 |
| `Achievements.Count` | achievements.js:7 | definition: the value of a definition's `checkQuery` for a profile, a filtered COUNT, a COUNT(DISTINCT) of artists, custom songs or days, a count of unlocked names by suffix, or a counter column read as 0 when the profile has no row |
| `Achievements.Met` | achievements.js:7-8 | definition: an achievement is met when its query's count reaches its threshold |
| `Achievements.AllPairsOk` | achievements.js:1-380 | any two catalog entries have different names, and a later entry with the same query has a strictly higher threshold |
| `Achievements.NamesDistinct` | achievements.js:1-380 | catalog names are unique |
| `Achievements.FamilyThresholdsIncrease` | achievements.js:1-380 | within a family of one query, thresholds strictly increase in catalog order |
| `Achievements.ThresholdsPositive` | achievements.js:1-380 | every threshold is at least 1 |
| `Achievements.MetLaterImpliesEarlier` | achievements.js:1-380 | meeting a later tier of a family implies meeting every earlier tier |
| `Achievements.BronzeTier` | achievements.js:242-243 | the entries whose name matches `%_bronze` are exactly nine catalog positions |
| `Achievements.SilverTier` | achievements.js:251-252 | the entries whose name matches `%_silver` are exactly nine catalog positions |
| `Achievements.GoldTier` | achievements.js:260-261 | the entries whose name matches `%_gold` are exactly nine catalog positions |
| `Achievements.DiamondTier` | achievements.js:269-270 | the entries whose name matches `%_diamond` are exactly three catalog positions |
| `Achievements.BronzeCollector` | achievements.js:237-244 | `bronze_collector` counts `%_bronze` unlocks, and its threshold 9 is the size of the bronze tier |
| `Achievements.SilverCollector` | achievements.js:246-253 | `silver_collector` counts `%_silver` unlocks, and its threshold 9 is the size of the silver tier |
| `Achievements.GoldCollector` | achievements.js:255-262 | `gold_collector` counts `%_gold` unlocks, and its threshold 9 is the size of the gold tier |
| `Achievements.DiamondCollector` | achievements.js:264-271 | `diamond_collector` counts `%_diamond` unlocks, and its threshold 3 is the size of the diamond tier |
| `Achievements.CountRowsAppend` | achievements.js:7 | a COUNT over two batches of ratings is the sum of the two counts |
| `Achievements.ArtistsAppend` | achievements.js:92 | the distinct artists of two batches are the union of each batch's artists |
| `Achievements.CustomSongsAppend` | achievements.js:176 | the distinct custom songs of two batches are the union of each batch's custom songs |
| `Achievements.DaysAppend` | achievements.js:204 | the distinct rating days of two batches are the union of each batch's days |
| `Achievements.CountRowsSnoc` | achievements.js:54 | one more rating raises a filtered count by one exactly when it is the profile's and passes the filter |
| `Achievements.FilteredCountBounded` | achievements.js:130 | perfect, low and custom counts never exceed the profile's rating count |
| `Achievements.ArtistsBounded` | achievements.js:92 | there are no more distinct artists than ratings |
| `Achievements.DaysBounded` | achievements.js:204 | there are no more distinct rating days than ratings |
| `Achievements.CustomSongsBounded` | achievements.js:176 | distinct custom songs are at most the custom ratings, and each has the `custom-` prefix |
| `Achievements.CustomCountsIgnoreOtherSongs` | achievements.js:167 | rating a song without the `custom-` prefix changes neither custom count |
| `Achievements.CountMonotone` | achievements.js:1-380 | no query's count goes down as ratings, unlocks and counters grow |
| `Achievements.MetStaysMet` | achievements.js:1-380 | an achievement once met stays met while the facts grow |
| `Database.TablesValid` | database.js:11-29 | definition: the schema's rules, songs keyed by their PRIMARY KEY, one rating per UNIQUE `song_id` whose song exists (FOREIGN KEY) and whose score is in [0, 10] (CHECK), and distinct AUTOINCREMENT ids no larger than the last one handed out |
| `Database.Upserted` | database.js:52-55 | definition: the ratings after `INSERT ... ON CONFLICT(song_id) DO UPDATE`, the existing row with the new score and time, or a new row with the given id |
| `Database.LastIdAfter` | database.js:23 | definition: the largest AUTOINCREMENT id handed out after the same statement, the new id only when a row was inserted |
| `Database.Like` | database.js:80 | definition: `LIKE` with the pattern between two `%` wildcards, an ASCII case-insensitive substring test |
| `Database.MatchesFilters` | database.js:78-101 | definition: the row meets every given text filter, and its score lies in the range when a bound is given, with missing bounds 0 and 10 |
| `Database.Round` | database.js:56 | `Math.round`: the integer nearest to `x`, with halves rounded up |
| `Database.RoundOfInteger` | database.js:56 | rounding a whole number leaves it unchanged |
| `Database.RoundInRange` | database.js:25 | a value in [0, 10] rounds into the range the CHECK constraint accepts |
| `Database.RateOutcome` | database.js:49-58 | the upsert succeeds iff the rounded score is in [0, 10] and the song exists; an out-of-range score fails the CHECK, an unknown song the foreign key |
| `Database.RerateKeepsRow` | database.js:52-55 | re-rating a song updates its score and time in place, keeps its row id and the row count, and leaves every other rating alone |
| `Database.FirstRatingAddsRow` | database.js:23-24 | a first rating adds exactly one row and leaves the others; its AUTOINCREMENT id is larger than that of every row already there |
| `Database.UpsertKeepsTablesValid` | database.js:22-28 | a successful upsert keeps PRIMARY KEY, UNIQUE, CHECK, FOREIGN KEY and id rules |
| `Database.AddSongKeepsTablesValid` | database.js:41-46 | `INSERT OR REPLACE` of a song keeps every constraint |
| `Database.DeleteKeepsTablesValid` | database.js:145-148 | deleting a rating keeps every constraint |
| `Database.ExistingScore` | database.js:121-133 | the stored score, or null when there is no rating or its score is 0, through the `or null` fallback |
| `Database.WhereClauses` | database.js:75-108 | at most four clauses, one per supplied filter; together they hold of a row iff the row meets every supplied filter (substring matches, inclusive score range with defaults 0 and 10) |
| `Database.AllHoldSnoc` | database.js:107 | one more clause narrows the `AND` of the clauses by exactly that clause |
| `Database.SortOrder` | database.js:111-116 | a whitelisted column sorts by itself, descending iff the order is `'desc'`; any other column sorts by `created_at` descending |
| `Database.BeforeTotal` | database.js:113 | the ORDER BY comparison relates every pair of rows |
| `Database.BeforeTransitive` | database.js:113 | the ORDER BY comparison is transitive |
| `Database.InsertPos` | database.js:113 | the first position whose row the new row may precede |
| `Database.Insert` | database.js:111-118 | inserting into a sorted result keeps it sorted and adds exactly that row |
| `Database.InsertSorted` | database.js:111-118 | splicing a row in at its insertion position gives a sorted list |
| `Database.InsertKeepsDistinct` | database.js:24 | inserting a row of a song not yet in the result keeps one row per song |
| `Database.SelectRatings` | database.js:60-119 | each returned row is the join of a stored rating with its song and meets every filter, and each such row is returned; rows are one per song and sorted by the ORDER BY |
| `Database.RatingStore.constructor` | database.js:3 | no open handle and empty tables |
| `Database.RatingStore.InitDatabase` | database.js:5-37 | in a sequential run, the handle is opened by the first call and reused by later ones; the tables are untouched |
| `Database.RatingStore.AddSong` | database.js:39-47 | `songs[id]` becomes exactly the new song; no other song and no rating changes |
| `Database.RatingStore.AddRating` | database.js:49-58 | the outcome is `RateOutcome`; on success the ratings are upserted with the rounded score and the clock, a new row taking the given larger id; on failure nothing changes |
| `Database.RatingStore.GetExistingRating` | database.js:121-133 | returns `ExistingScore` of the ratings and changes no table |
| `Database.RatingStore.DeleteRating` | database.js:143-149 | removes only that song's rating and never a song |
| `Database.RatingStore.ResetDatabase` | database.js:135-141 | closes the handle and empties both tables |
| `Database.RatingStore.GetAllRatings` | database.js:60-119 | opens the handle, leaves the tables alone, and returns exactly the matching joined rows, one per song, sorted |
| `GuessGame.Jokers.Decrement` | screens/GameScreen.js:181-184 | one use fewer of the chosen joker; the others are unchanged |
| `GuessGame.IsCorrect` | screens/GameScreen.js:149-150 | definition: the trimmed, lower-cased guess equals the lower-cased title |
| `GuessGame.LyricsPreview` | screens/GameScreen.js:202-205 | definition: the first `visibleLines` non-blank lyric lines joined by line breaks |
| `GuessGame.IsCorrectIgnoresCase` | screens/GameScreen.js:149-152 | the guess check ignores the title's letter case |
| `GuessGame.OwnTitleIsCorrect` | screens/GameScreen.js:149-152 | a title without surrounding white space is guessed by typing it |
| `GuessGame.PaddedTitleUnguessable` | screens/GameScreen.js:149-152 | only the guess is trimmed, so a title starting with white space can never be guessed |
| `GuessGame.NonBlank` | screens/GameScreen.js:203 | every kept line is a line of the input, and every non-blank line is kept |
| `GuessGame.NonBlankAppend` | screens/GameScreen.js:203 | the filter distributes over concatenation, so kept lines stay in order |
| `GuessGame.NonBlankSingle` | screens/GameScreen.js:203 | one line is kept exactly when it is not blank; with `NonBlankAppend` this fixes the result |
| `GuessGame.Take` | screens/GameScreen.js:204 | `slice(0, n)` is the prefix of length `min(n, length)` |
| `GuessGame.PreviewLines` | screens/GameScreen.js:202-205 | the preview splits back into the first `visibleLines` non-blank lyric lines, or is empty when there are none |
| `GuessGame.MoreLinesExtendPreview` | screens/GameScreen.js:188 | showing more lines only extends the selected lines |
| `GuessGame.Unused` | screens/GameScreen.js:103-105 | every kept track is in the input, and every track whose id is not in the used list is kept |
| `GuessGame.UnusedAppend` | screens/GameScreen.js:103-105 | the filter distributes over concatenation, so the candidates stay in discography order |
| `GuessGame.UnusedSingle` | screens/GameScreen.js:103-105 | one track is kept exactly when its id is not used; with `UnusedAppend` this fixes the list `getRandomSong` indexes |
| `GuessGame.RandomIndex` | screens/GameScreen.js:65 | `Math.floor(Math.random() * n)` is a valid index |
| `GuessGame.RandomSong` | screens/GameScreen.js:62-66 | a picked song is a candidate whose id the state has not used; nothing is picked iff no candidate is unused |
| `GuessGame.Retry` | screens/GameScreen.js:107-125 | definition: the retry loop by recursion on the attempts left; a fetch with lyrics ends it with that song, an empty one marks the song used and picks again |
| `GuessGame.RetryTriesFreshSongs` | screens/GameScreen.js:107-125 | the loop tries at most `retries` songs, each from the discography, each new to the used list, and appends their ids |
| `GuessGame.RetryFindsTrack` | screens/GameScreen.js:110-124 | when lyrics are found, the round's song is a track of the discography and the lyrics are one of the responses |
| `GuessGame.RetryEndsWithSong` | screens/GameScreen.js:110-124 | when lyrics are found, the round's song is the last one tried: its id ends the used list, which has grown |
| `GuessGame.RetryFindsLastTried` | screens/GameScreen.js:110-124 | when lyrics are found they are one of the responses, and they belong to the last song tried, a track of the discography |
| `GuessGame.FirstPick` | screens/GameScreen.js:101-125 | definition: the first random pick from the unused tracks, then `Retry` with three attempts from the given used list |
| `GuessGame.PickPlayableSong` | screens/GameScreen.js:101-125 | the retry loop computes the recursive specification `FirstPick` |
| `GuessGame.StaleRoundSource` | screens/GameScreen.js:94-105 | definition: as written, the round draws from the render's discography (the download if it is empty) and the render's used list, whatever artist was found |
| `GuessGame.StoredDiscography` | screens/GameScreen.js:88-99 | definition: the discography state after `startGame` as written, the download if the render's was empty, else empty after an artist switch, else unchanged |
| `GuessGame.StaleRoundUsesPreviousArtist` | screens/GameScreen.js:88-99 | as written, the first round after an artist switch draws from the previous artist's tracks |
| `GuessGame.StaleSwitchPlaysOldArtist` | screens/GameScreen.js:88-128 | as written, after a switch with tracks loaded, a found song is one of the old discography, the used list only grows from the old one, and the stored discography is left empty |
| `GuessGame.RoundSource` | screens/GameScreen.js:88-102 | after a switch, the fresh download and an empty used list; otherwise the kept discography (downloaded again only if empty) and the used list |
| `GuessGame.RoundSongFromSource` | screens/GameScreen.js:88-125 | a round's song comes from its source's discography, and after a switch from the new artist's download |
| `GuessGame.Game.constructor` | screens/GameScreen.js:7-26 | the initial values of the state slots |
| `GuessGame.Game.HandleGuess` | screens/GameScreen.js:146-176 | no song: nothing; a correct guess adds one point; a wrong last attempt resets points and jokers and clears the used jokers; another wrong guess spends an attempt and clears the guess |
| `GuessGame.Game.ScoreGuess` | screens/GameScreen.js:152-174 | the three outcomes of a compared guess and the state each leaves |
| `GuessGame.Game.UseJoker` | screens/GameScreen.js:178-200 | a used-up joker does nothing; otherwise one use is spent and more lines, the cover or the initial is shown |
| `GuessGame.Game.ExhaustionEffect` | screens/GameScreen.js:28-34 | once as many songs are used as the discography holds, both lists are cleared; afterwards the used list is shorter than a non-empty discography |
| `GuessGame.Game.StartGame` | screens/GameScreen.js:80-144 | no input: nothing; unknown artist: only loading toggles; otherwise a round starts iff the retry loop over the stale source finds lyrics, with the found song, 3 attempts, 5 lines and no jokers shown; the artist, discography and used list are those of `LoadRound`, cleared by the exhaustion effect when every song is used |
| `GuessGame.Game.LoadRound` | screens/GameScreen.js:88-139 | as written: the round draws from the render's discography and used list (`StaleRoundSource`); the stored discography is the download if that was empty, else empty after a switch, else unchanged; the used list after the loop is stored; a round with lyrics starts afresh with the found song, a track of the source whose id ends the used list |
| `CustomRating.CustomId` | screens/CustomRatingScreen.js:37 | the id has the `custom-` prefix the achievement queries look for, followed by the milliseconds |
| `CustomRating.CustomIdInjective` | screens/CustomRatingScreen.js:36-37 | songs entered at different milliseconds get different ids |
| `CustomRating.SubmittedScore` | screens/CustomRatingScreen.js:52 | the rounded slider value is the nearest whole score and lies in [0, 10] |
| `CustomRating.StoredScoreIsShownScore` | screens/CustomRatingScreen.js:52 | the second rounding in `addRating` does not change the submitted score |
| `CustomRating.SaveSongThenRating` | screens/CustomRatingScreen.js:40-52 | the song is written first, so the rating's foreign key holds and the upsert succeeds |
| `CustomRating.CustomRatingForm.constructor` | screens/CustomRatingScreen.js:20-27 | empty fields, slider at 5, no messages |
| `CustomRating.CustomRatingForm.SetScore` | screens/CustomRatingScreen.js:113-123 | the slider sets the score and nothing else |
| `CustomRating.CustomRatingForm.HandleSubmit` | screens/CustomRatingScreen.js:29-66 | a missing profile, then an empty field, only set the error; otherwise the song and its rounded rating are stored under the new id and the form is reset with the success message, keeping the notes |
| `CustomRating.CustomRatingForm.ClearSuccess` | screens/CustomRatingScreen.js:62 | the timer clears only the success message |
| `TopTracks.Cover` | screens/TopTrackScreen.js:62 | the URL of the album's first image, or the empty string |
| `TopTracks.Without` | screens/TopTrackScreen.js:35-37 | keeps exactly the tracks whose id is none of the given ids |
| `TopTracks.WithoutAppend` | screens/TopTrackScreen.js:35-37 | the filter distributes over concatenation |
| `TopTracks.WithoutKeepsOrder` | screens/TopTrackScreen.js:35-37 | the kept tracks are exactly those at the positions that pass, in increasing order |
| `TopTracks.WithoutIdempotent` | screens/TopTrackScreen.js:75 | filtering twice by the same ids changes nothing more |
| `TopTracks.TopTrackScreen.constructor` | screens/TopTrackScreen.js:9-14 | loading, no error, no tracks, no artist |
| `TopTracks.TopTrackScreen.LoadData` | screens/TopTrackScreen.js:17-50 | loading ends on both paths; an unknown artist sets the error and stores no tracks; otherwise the unrated list is the filter, and the "all rated" error is set iff it is empty |
| `TopTracks.TopTrackScreen.HandleAddTrack` | screens/TopTrackScreen.js:55-79 | the song is upserted under the found artist's name, the rating screen is opened for it, and exactly the entries with its id leave the list; before an artist is found, only the error is set |

## Left out

- Network and device I/O is not modelled: Spotify requests, the lyrics service, the discography download, AsyncStorage, alerts, navigation rendering and console logging. Their results are parameters.
- The SQLite engine and SQL text are not modelled. The tables are maps and statements are functions on them.
- LIKE: `%` and `_` inside user-supplied filter text act as wildcards in SQLite. The model treats filter text literally.
- Case folding, trimming and LIKE are ASCII-only. Unicode case rules are not modelled.
- Strings are sequences of Unicode code points, while JavaScript's `length` and `s[i]` count UTF-16 code units. For text outside the Basic Multilingual Plane the model's lengths, indices, Levenshtein distances and similarities differ from the app's. For example, `levenshteinDistance("😀", "")` is 2 in the app and `Levenshtein.Dist` gives 1. Levenshtein.DistEmpty and the other length statements hold for the app only on BMP text.
- Operations are modelled as sequential and atomic: each asynchronous function runs to completion before the next starts. Interleavings at `await` points are not modelled. The two lines below name the consequences for `initDatabase` and `startGame`.
- Database.RatingStore.InitDatabase: two `initDatabase` calls made before `openDatabaseAsync` resolves open two handles. A call made between the assignment of `db` (database.js:8) and the end of the CREATE TABLE statements (:29) receives a handle whose tables may be missing and whose foreign keys may not yet be enforced. "Opened once" holds only for calls that do not overlap.
- GuessGame.Game.StartGame: the start button is not disabled while loading, and `handleGuess` calls `startGame()` without awaiting it (screens/GameScreen.js:155, :169). Two overlapping rounds can read the same render's `usedSongs`, pick the same song, and the later one then overwrites the other's state. The model runs each `startGame` to completion, so a second one reads the first's used list.
- Achievements.IsCustomSongId: compares exactly, where SQLite's LIKE ignores ASCII case. An id such as `CUSTOM-1` would count in SQLite but not in the model. The app never writes such an id.
- Database.SelectRatings: rows with equal sort keys come in an unspecified order in SQLite. The model states only that the result is sorted.
- Database.RatingStore.GetExistingRating: the catch branch that returns null on a query error is not modelled, because the model's queries cannot fail.
- Timestamps are natural numbers: seconds for `CURRENT_TIMESTAMP` and milliseconds for `Date.now()`. Integer widths and doubles are not modelled.
- The slider is modelled in whole tenths (0..100). Binary floating-point values such as 0.30000000000000004 are not.
- GuessGame.Game.HandleGuess: does not model the `startGame` call that follows a correct guess or a lost game. `StartGame` models it as a separate operation.
- GuessGame.Game.Valid: requires attempts in 1..3. The defensive case in which `attempts === 1` is skipped for an out-of-range count is not modelled.
- GuessGame.Game: the per-round state slots live in one `RoundView` value rather than in eight separate fields.
- GuessGame.RoundSource: the corrected round source is defined and proved, but `Game.LoadRound` runs the code as written, so no method of the class uses the correction.
- GuessGame.Game.StartGame: is not modelled for a discography download or artist search that rejects. The download is passed in even when the code would not call it.
- `fetchDiscography`'s album filtering and track formatting (screens/GameScreen.js:36-60), and `fetchLyrics`, are network code. They are not part of this model.
- Achievements: the code that evaluates and unlocks achievements is not part of this model. Only the catalog and the meaning of "met" (count reaches threshold) are modelled. The collector lemmas are stated over catalog positions, not over unlocked names.
- TopTracks.Cover: stores the empty string where the code stores NULL for a track without album images.
- TopTracks.TopTrackScreen.LoadData: a failing search or top-track request, and the error message it would show, are not modelled. The rated song ids come from `getRatedSongsByArtist`, which is not part of this model.
- CustomRating.CustomRatingForm.HandleSubmit: the notes are passed to `addRating`, which ignores a third argument, so they are not stored.
- Icons, colours, titles and descriptions of the achievement catalog are display data and are left out.

## Findings

| source | as written | input that shows it | evidently intended | confidence | as-written member | corrected member |
|---|---|---|---|---|---|---|
| screens/GameScreen.js:88-102 | after switching artist, `startGame` resets `discography` and `usedSongs` through setters but then reads the same render's old values, so the first round is drawn from the previous artist's discography and used list | current artist `a` with discography `[a1]`; search finds artist `b`, whose download is `[b1]`: the round picks from `[a1]` | after a switch, draw from the new artist's download with an empty used list | not executed | `GuessGame.StaleRoundUsesPreviousArtist` and `GuessGame.StaleSwitchPlaysOldArtist` (over `GuessGame.StaleRoundSource`, which `GuessGame.Game.LoadRound` runs) | `GuessGame.RoundSource` with `GuessGame.RoundSongFromSource` |
