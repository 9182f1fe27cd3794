/** The achievement catalog of achievements.js: an ordered list of definitions, each
    a unique name, a counting query and a threshold. The database queries are
    modelled as a tagged counting strategy over abstract rating records, the
    per-profile usage counters and the set of unlocked achievements; an achievement
    is met when its count reaches its threshold. */
module Achievements {
  import opened Strings

  /** The usage counters kept per profile (columns of `profiledata`). */
  datatype Counter = SpotifyLinksOpened | ArtistStatisticsOpened | TopTracksOpened | SongsSearched | ArtistModeOpened

  /** What a definition's `checkQuery` counts for one profile. */
  datatype Query =
    | CountRatings                               // COUNT(*) of the profile's ratings
    | CountPerfect                               // ... with score = 10
    | CountLow                                   // ... with score <= 2
    | CountDistinctArtists                       // COUNT(DISTINCT artist) over rated songs
    | CountCustom                                // ratings whose song_id is LIKE 'custom-%'
    | CountDistinctCustom                        // COUNT(DISTINCT song_id) of those
    | CountDistinctDays                          // COUNT(DISTINCT DATE(created_at))
    | CountUnlockedWithSuffix(suffix: string)    // unlocked names LIKE '%_<suffix>'
    | ReadCounter(counter: Counter)              // one column of the profile's counters

  datatype Definition = Definition(name: string, query: Query, threshold: int)

  /** The catalog, in source order. Titles, descriptions, icons and colours are
      display data and are not kept. */
  const Catalog: seq<Definition> := [
    Definition("pioneer", CountRatings, 1),
    Definition("rating_bronze", CountRatings, 25),
    Definition("rating_silver", CountRatings, 100),
    Definition("rating_gold", CountRatings, 250),
    Definition("rating_diamond", CountRatings, 500),
    Definition("perfection_first", CountPerfect, 1),
    Definition("perfection_bronze", CountPerfect, 5),
    Definition("perfection_silver", CountPerfect, 20),
    Definition("perfection_gold", CountPerfect, 50),
    Definition("explorer_bronze", CountDistinctArtists, 10),
    Definition("explorer_silver", CountDistinctArtists, 25),
    Definition("explorer_gold", CountDistinctArtists, 50),
    Definition("explorer_diamond", CountDistinctArtists, 75),
    Definition("disappointment_first", CountLow, 1),
    Definition("disappointment_bronze", CountLow, 5),
    Definition("disappointment_silver", CountLow, 10),
    Definition("disappointment_gold", CountLow, 20),
    Definition("custom_pioneer", CountCustom, 1),
    Definition("custom_creator_bronze", CountDistinctCustom, 5),
    Definition("custom_creator_silver", CountDistinctCustom, 10),
    Definition("custom_creator_gold", CountDistinctCustom, 20),
    Definition("daily_rater_7_bronze", CountDistinctDays, 7),
    Definition("daily_rater_30_silver", CountDistinctDays, 30),
    Definition("daily_rater_100_gold", CountDistinctDays, 100),
    Definition("daily_rater_365_diamond", CountDistinctDays, 365),
    Definition("bronze_collector", CountUnlockedWithSuffix("bronze"), 9),
    Definition("silver_collector", CountUnlockedWithSuffix("silver"), 9),
    Definition("gold_collector", CountUnlockedWithSuffix("gold"), 9),
    Definition("diamond_collector", CountUnlockedWithSuffix("diamond"), 3),
    Definition("spotify_link", ReadCounter(SpotifyLinksOpened), 25),
    Definition("artist_stats_bronze", ReadCounter(ArtistStatisticsOpened), 5),
    Definition("artist_stats_silver", ReadCounter(ArtistStatisticsOpened), 20),
    Definition("artist_stats_gold", ReadCounter(ArtistStatisticsOpened), 50),
    Definition("top_tracks_bronze", ReadCounter(TopTracksOpened), 5),
    Definition("top_tracks_silver", ReadCounter(TopTracksOpened), 15),
    Definition("top_tracks_gold", ReadCounter(TopTracksOpened), 30),
    Definition("search", ReadCounter(SongsSearched), 50),
    Definition("artist_mode_bronze", ReadCounter(ArtistModeOpened), 5),
    Definition("artist_mode_silver", ReadCounter(ArtistModeOpened), 15),
    Definition("artist_mode_gold", ReadCounter(ArtistModeOpened), 30)
  ]

  /** The catalog holds the 40 definitions of `ACHIEVEMENT_DEFINITIONS`, from
      `pioneer` to `artist_mode_gold`. */
  lemma CatalogSize()
    ensures |Catalog| == 40
    ensures Catalog[0] == Definition("pioneer", CountRatings, 1)
    ensures Catalog[39] == Definition("artist_mode_gold", ReadCounter(ArtistModeOpened), 30)
  {
  }

  /** A rating as the queries see it: joined with its song's artist and scoped by profile. */
  datatype RatingRecord = RatingRecord(songId: string, artist: string, score: int, createdAt: nat, profile: string)

  /** One row of the unlocked-achievements table. */
  datatype UnlockRow = UnlockRow(name: string, profile: string)

  datatype Counters = Counters(spotifyLinksOpened: nat, artistStatisticsOpened: nat,
                               topTracksOpened: nat, songsSearched: nat, artistModeOpened: nat)

  /** Everything the counting queries read. */
  datatype Facts = Facts(ratings: seq<RatingRecord>, unlocked: set<UnlockRow>, counters: map<string, Counters>)

  const CustomPrefix: string := "custom-"

  /** `song_id LIKE 'custom-%'`. SQLite's LIKE ignores ASCII case; the test here is
      exact, which agrees on every id the app writes: custom ids are built with the
      lower-case prefix and catalog ids contain no `-`. */
  predicate IsCustomSongId(id: string) {
    StartsWith(id, CustomPrefix)
  }

  /** `name LIKE '%_<suffix>'`: at least one character, then the suffix at the end.
      The test is exact where LIKE ignores ASCII case, which agrees on the catalog's
      names, all of them lower case. */
  predicate LikeSuffix(name: string, suffix: string) {
    |name| > |suffix| && EndsWith(name, suffix)
  }

  /** `DATE(created_at)` for a timestamp in seconds. */
  function DayOf(t: nat): nat {
    t / 86400
  }

  /** The row filter of the plain counting queries. */
  predicate Selects(q: Query, r: RatingRecord) {
    match q
    case CountPerfect => r.score == 10
    case CountLow => r.score <= 2
    case CountCustom => IsCustomSongId(r.songId)
    case _ => true
  }

  /** Number of the profile's ratings that pass the filter of `q`. */
  function CountRows(rs: seq<RatingRecord>, p: string, q: Query): nat {
    if rs == [] then 0
    else (if rs[0].profile == p && Selects(q, rs[0]) then 1 else 0) + CountRows(rs[1..], p, q)
  }

  function Artists(rs: seq<RatingRecord>, p: string): set<string> {
    if rs == [] then {}
    else (if rs[0].profile == p then {rs[0].artist} else {}) + Artists(rs[1..], p)
  }

  function CustomSongs(rs: seq<RatingRecord>, p: string): set<string> {
    if rs == [] then {}
    else (if rs[0].profile == p && IsCustomSongId(rs[0].songId) then {rs[0].songId} else {}) + CustomSongs(rs[1..], p)
  }

  function Days(rs: seq<RatingRecord>, p: string): set<nat> {
    if rs == [] then {}
    else (if rs[0].profile == p then {DayOf(rs[0].createdAt)} else {}) + Days(rs[1..], p)
  }

  /** Names the profile has unlocked that match the tier pattern. */
  function UnlockedWithSuffix(unlocked: set<UnlockRow>, p: string, suffix: string): set<string> {
    set u | u in unlocked && u.profile == p && LikeSuffix(u.name, suffix) :: u.name
  }

  function CounterValue(c: Counters, which: Counter): nat {
    match which
    case SpotifyLinksOpened => c.spotifyLinksOpened
    case ArtistStatisticsOpened => c.artistStatisticsOpened
    case TopTracksOpened => c.topTracksOpened
    case SongsSearched => c.songsSearched
    case ArtistModeOpened => c.artistModeOpened
  }

  /** The value of a definition's query for profile `p`. A profile without a counter
      row reads as 0. */
  function Count(q: Query, p: string, f: Facts): int {
    match q
    case CountDistinctArtists => |Artists(f.ratings, p)|
    case CountDistinctCustom => |CustomSongs(f.ratings, p)|
    case CountDistinctDays => |Days(f.ratings, p)|
    case CountUnlockedWithSuffix(s) => |UnlockedWithSuffix(f.unlocked, p, s)|
    case ReadCounter(c) => if p in f.counters then CounterValue(f.counters[p], c) else 0
    case _ => CountRows(f.ratings, p, q)
  }

  /** An achievement is met when its count reaches its threshold. */
  predicate Met(d: Definition, p: string, f: Facts) {
    Count(d.query, p, f) >= d.threshold
  }

  // ----- Data invariants of the catalog -----

  /** Two catalog rows do not clash: their names differ, and when they share a query
      the later one asks for strictly more. */
  predicate PairOk(i: int, j: int)
    requires 0 <= i < j < |Catalog|
  {
    Catalog[i].name != Catalog[j].name
    && (Catalog[i].query == Catalog[j].query ==> Catalog[i].threshold < Catalog[j].threshold)
  }

  // The pairwise check is split by rows so that each proof stays small.

  lemma PairsInRows0To1()
    ensures forall i, j :: 0 <= i < 1 && i < j < |Catalog| ==> PairOk(i, j)
  {
  }

  lemma PairsInRows1To2()
    ensures forall i, j :: 1 <= i < 2 && i < j < |Catalog| ==> PairOk(i, j)
  {
  }

  lemma PairsInRows2To4()
    ensures forall i, j :: 2 <= i < 4 && i < j < |Catalog| ==> PairOk(i, j)
  {
  }

  lemma PairsInRows4To6()
    ensures forall i, j :: 4 <= i < 6 && i < j < |Catalog| ==> PairOk(i, j)
  {
  }

  lemma PairsInRows6To8()
    ensures forall i, j :: 6 <= i < 8 && i < j < |Catalog| ==> PairOk(i, j)
  {
  }

  lemma PairsInRows8To11()
    ensures forall i, j :: 8 <= i < 11 && i < j < |Catalog| ==> PairOk(i, j)
  {
  }

  lemma PairsInRows11To15()
    ensures forall i, j :: 11 <= i < 15 && i < j < |Catalog| ==> PairOk(i, j)
  {
  }

  lemma PairsInRows15To20()
    ensures forall i, j :: 15 <= i < 20 && i < j < |Catalog| ==> PairOk(i, j)
  {
  }

  lemma PairsInRows20To28()
    ensures forall i, j :: 20 <= i < 28 && i < j < |Catalog| ==> PairOk(i, j)
  {
  }

  lemma PairsInRows28To40()
    ensures forall i, j :: 28 <= i < |Catalog| && i < j < |Catalog| ==> PairOk(i, j)
  {
  }

  /** Every pair of rows is consistent. */
  lemma AllPairsOk()
    ensures forall i, j :: 0 <= i < j < |Catalog| ==> PairOk(i, j)
  {
    PairsInRows0To1();
    PairsInRows1To2();
    PairsInRows2To4();
    PairsInRows4To6();
    PairsInRows6To8();
    PairsInRows8To11();
    PairsInRows11To15();
    PairsInRows15To20();
    PairsInRows20To28();
    PairsInRows28To40();
  }

  /** Catalog names are pairwise distinct. */
  lemma NamesDistinct(i: int, j: int)
    requires 0 <= i < |Catalog| && 0 <= j < |Catalog| && i != j
    ensures Catalog[i].name != Catalog[j].name
  {
    AllPairsOk();
    if i < j {
      assert PairOk(i, j);
    } else {
      assert PairOk(j, i);
    }
  }

  /** Within a family (definitions sharing one query), thresholds strictly increase
      in catalog order. */
  lemma FamilyThresholdsIncrease(i: int, j: int)
    requires 0 <= i < j < |Catalog| && Catalog[i].query == Catalog[j].query
    ensures Catalog[i].threshold < Catalog[j].threshold
  {
    AllPairsOk();
    assert PairOk(i, j);
  }

  lemma ThresholdsPositive()
    ensures forall i :: 0 <= i < |Catalog| ==> Catalog[i].threshold >= 1
  {
  }

  /** Meeting a later definition of a family means every earlier one is met too. */
  lemma MetLaterImpliesEarlier(i: int, j: int, p: string, f: Facts)
    requires 0 <= i < j < |Catalog| && Catalog[i].query == Catalog[j].query
    requires Met(Catalog[j], p, f)
    ensures Met(Catalog[i], p, f)
  {
    FamilyThresholdsIncrease(i, j);
  }

  // ----- Tier collectors -----

  /** Catalog positions of the definitions whose name matches `%_<suffix>`. */
  function TierIndices(suffix: string): set<int> {
    set i | 0 <= i < |Catalog| && LikeSuffix(Catalog[i].name, suffix)
  }

  // Which rows belong to which tier, checked in two halves of the catalog.

  lemma BronzeRows0To20()
    ensures forall i :: 0 <= i < 20 ==> (LikeSuffix(Catalog[i].name, "bronze") <==> i == 1 || i == 6 || i == 9 || i == 14 || i == 18)
  {
  }

  lemma BronzeRows20To40()
    ensures forall i :: 20 <= i < |Catalog| ==> (LikeSuffix(Catalog[i].name, "bronze") <==> i == 21 || i == 30 || i == 33 || i == 37)
  {
  }

  lemma SilverRows0To20()
    ensures forall i :: 0 <= i < 20 ==> (LikeSuffix(Catalog[i].name, "silver") <==> i == 2 || i == 7 || i == 10 || i == 15 || i == 19)
  {
  }

  lemma SilverRows20To40()
    ensures forall i :: 20 <= i < |Catalog| ==> (LikeSuffix(Catalog[i].name, "silver") <==> i == 22 || i == 31 || i == 34 || i == 38)
  {
  }

  lemma GoldRows0To20()
    ensures forall i :: 0 <= i < 20 ==> (LikeSuffix(Catalog[i].name, "gold") <==> i == 3 || i == 8 || i == 11 || i == 16)
  {
  }

  lemma GoldRows20To40()
    ensures forall i :: 20 <= i < |Catalog| ==> (LikeSuffix(Catalog[i].name, "gold") <==> i == 20 || i == 23 || i == 32 || i == 35 || i == 39)
  {
  }

  lemma DiamondRows0To20()
    ensures forall i :: 0 <= i < 20 ==> (LikeSuffix(Catalog[i].name, "diamond") <==> i == 4 || i == 12)
  {
  }

  lemma DiamondRows20To40()
    ensures forall i :: 20 <= i < |Catalog| ==> (LikeSuffix(Catalog[i].name, "diamond") <==> i == 24)
  {
  }

  const BronzePositions: set<int> := {1, 6, 9, 14, 18, 21, 30, 33, 37}

  const SilverPositions: set<int> := {2, 7, 10, 15, 19, 22, 31, 34, 38}

  const GoldPositions: set<int> := {3, 8, 11, 16, 20, 23, 32, 35, 39}

  const DiamondPositions: set<int> := {4, 12, 24}

  lemma BronzeTier()
    ensures TierIndices("bronze") == BronzePositions
  {
    BronzeRows0To20();
    BronzeRows20To40();
  }

  lemma SilverTier()
    ensures TierIndices("silver") == SilverPositions
  {
    SilverRows0To20();
    SilverRows20To40();
  }

  lemma GoldTier()
    ensures TierIndices("gold") == GoldPositions
  {
    GoldRows0To20();
    GoldRows20To40();
  }

  lemma DiamondTier()
    ensures TierIndices("diamond") == DiamondPositions
  {
    DiamondRows0To20();
    DiamondRows20To40();
  }

  /** Each collector asks for as many unlocks as its tier has definitions (its
      positions are given by the tier lemmas above): 9 bronze, 9 silver, 9 gold and
      3 diamond. */
  lemma BronzeCollector()
    ensures Catalog[25].query == CountUnlockedWithSuffix("bronze")
    ensures Catalog[25].threshold == |BronzePositions| == 9
  {
  }

  lemma SilverCollector()
    ensures Catalog[26].query == CountUnlockedWithSuffix("silver")
    ensures Catalog[26].threshold == |SilverPositions| == 9
  {
  }

  lemma GoldCollector()
    ensures Catalog[27].query == CountUnlockedWithSuffix("gold")
    ensures Catalog[27].threshold == |GoldPositions| == 9
  {
  }

  lemma DiamondCollector()
    ensures Catalog[28].query == CountUnlockedWithSuffix("diamond")
    ensures Catalog[28].threshold == |DiamondPositions| == 3
  {
  }

  // ----- Counting strategies -----

  /** Counting over a concatenation adds up. */
  lemma {:induction false} CountRowsAppend(rs: seq<RatingRecord>, ts: seq<RatingRecord>, p: string, q: Query)
    ensures CountRows(rs + ts, p, q) == CountRows(rs, p, q) + CountRows(ts, p, q)
  {
    if rs != [] {
      assert (rs + ts)[1..] == rs[1..] + ts;
      CountRowsAppend(rs[1..], ts, p, q);
    } else {
      assert rs + ts == ts;
    }
  }

  lemma {:induction false} ArtistsAppend(rs: seq<RatingRecord>, ts: seq<RatingRecord>, p: string)
    ensures Artists(rs + ts, p) == Artists(rs, p) + Artists(ts, p)
  {
    if rs != [] {
      assert (rs + ts)[1..] == rs[1..] + ts;
      ArtistsAppend(rs[1..], ts, p);
    } else {
      assert rs + ts == ts;
    }
  }

  lemma {:induction false} CustomSongsAppend(rs: seq<RatingRecord>, ts: seq<RatingRecord>, p: string)
    ensures CustomSongs(rs + ts, p) == CustomSongs(rs, p) + CustomSongs(ts, p)
  {
    if rs != [] {
      assert (rs + ts)[1..] == rs[1..] + ts;
      CustomSongsAppend(rs[1..], ts, p);
    } else {
      assert rs + ts == ts;
    }
  }

  lemma {:induction false} DaysAppend(rs: seq<RatingRecord>, ts: seq<RatingRecord>, p: string)
    ensures Days(rs + ts, p) == Days(rs, p) + Days(ts, p)
  {
    if rs != [] {
      assert (rs + ts)[1..] == rs[1..] + ts;
      DaysAppend(rs[1..], ts, p);
    } else {
      assert rs + ts == ts;
    }
  }

  /** One more rating raises a plain count by one exactly when it belongs to the
      profile and passes the filter. */
  lemma CountRowsSnoc(rs: seq<RatingRecord>, r: RatingRecord, p: string, q: Query)
    ensures CountRows(rs + [r], p, q)
      == CountRows(rs, p, q) + (if r.profile == p && Selects(q, r) then 1 else 0)
  {
    CountRowsAppend(rs, [r], p, q);
  }

  /** Perfect and low scores, and custom ratings, are among the profile's ratings. */
  lemma {:induction false} FilteredCountBounded(rs: seq<RatingRecord>, p: string, q: Query)
    ensures CountRows(rs, p, q) <= CountRows(rs, p, CountRatings)
  {
    if rs != [] {
      FilteredCountBounded(rs[1..], p, q);
    }
  }

  /** There are no more distinct artists than ratings. */
  lemma {:induction false} ArtistsBounded(rs: seq<RatingRecord>, p: string)
    ensures |Artists(rs, p)| <= CountRows(rs, p, CountRatings)
  {
    if rs != [] {
      ArtistsBounded(rs[1..], p);
      var r := rs[0];
      var rest := Artists(rs[1..], p);
      if r.profile == p {
        assert |{r.artist} + rest| <= |rest| + 1;
      }
    }
  }

  /** There are no more distinct rating days than ratings. */
  lemma {:induction false} DaysBounded(rs: seq<RatingRecord>, p: string)
    ensures |Days(rs, p)| <= CountRows(rs, p, CountRatings)
  {
    if rs != [] {
      DaysBounded(rs[1..], p);
      var r := rs[0];
      var rest := Days(rs[1..], p);
      if r.profile == p {
        assert |{DayOf(r.createdAt)} + rest| <= |rest| + 1;
      }
    }
  }

  /** There are no more distinct custom songs than custom ratings, and every one of
      them has the custom prefix. */
  lemma {:induction false} CustomSongsBounded(rs: seq<RatingRecord>, p: string)
    ensures |CustomSongs(rs, p)| <= CountRows(rs, p, CountCustom)
    ensures forall id :: id in CustomSongs(rs, p) ==> IsCustomSongId(id)
  {
    if rs != [] {
      CustomSongsBounded(rs[1..], p);
      var r := rs[0];
      var rest := CustomSongs(rs[1..], p);
      if r.profile == p && IsCustomSongId(r.songId) {
        assert |{r.songId} + rest| <= |rest| + 1;
      }
    }
  }

  /** A rating of a non-custom song changes neither custom count. */
  lemma CustomCountsIgnoreOtherSongs(rs: seq<RatingRecord>, r: RatingRecord, p: string)
    requires !IsCustomSongId(r.songId)
    ensures CountRows(rs + [r], p, CountCustom) == CountRows(rs, p, CountCustom)
    ensures CustomSongs(rs + [r], p) == CustomSongs(rs, p)
  {
    CountRowsSnoc(rs, r, p, CountCustom);
    CustomSongsAppend(rs, [r], p);
    assert CustomSongs([r], p) == {};
  }

  // ----- Monotonicity -----

  /** `g` extends `f`: more ratings appended, more unlocks, and counters that did not
      go down. */
  predicate Grows(f: Facts, g: Facts, p: string) {
    |f.ratings| <= |g.ratings| && g.ratings[..|f.ratings|] == f.ratings
    && f.unlocked <= g.unlocked
    && (p in f.counters ==>
          p in g.counters && forall c :: CounterValue(f.counters[p], c) <= CounterValue(g.counters[p], c))
  }

  lemma SubsetCard<T>(a: set<T>, b: set<T>)
    requires a <= b
    ensures |a| <= |b|
  {
    assert b == a + (b - a);
  }

  /** No count goes down as the facts grow. */
  lemma CountMonotone(q: Query, p: string, f: Facts, g: Facts)
    requires Grows(f, g, p)
    ensures Count(q, p, f) <= Count(q, p, g)
  {
    var rs := f.ratings;
    var extra := g.ratings[|rs|..];
    assert g.ratings == rs + extra;
    match q
    case CountDistinctArtists =>
      ArtistsAppend(rs, extra, p);
      SubsetCard(Artists(rs, p), Artists(g.ratings, p));
    case CountDistinctCustom =>
      CustomSongsAppend(rs, extra, p);
      SubsetCard(CustomSongs(rs, p), CustomSongs(g.ratings, p));
    case CountDistinctDays =>
      DaysAppend(rs, extra, p);
      SubsetCard(Days(rs, p), Days(g.ratings, p));
    case CountUnlockedWithSuffix(s) =>
      SubsetCard(UnlockedWithSuffix(f.unlocked, p, s), UnlockedWithSuffix(g.unlocked, p, s));
    case ReadCounter(c) =>
    case _ =>
      CountRowsAppend(rs, extra, p, q);
  }

  /** Once met, an achievement stays met as ratings, unlocks and counters grow. */
  lemma MetStaysMet(d: Definition, p: string, f: Facts, g: Facts)
    requires Grows(f, g, p)
    requires Met(d, p, f)
    ensures Met(d, p, g)
  {
    CountMonotone(d.query, p, f, g);
  }
}
