/** The lyrics guessing game of screens/GameScreen.js: the round state, a guess, a
    joker, the lyrics preview, the random pick of an unused song and the bounded
    retry loop that looks for a song with lyrics. The artist search, the
    discography download, the lyrics service and `Math.random` are oracles passed in
    as parameters; alerts are not modelled. */
module GuessGame {
  import opened Wrappers
  import opened Strings

  /** A track of the downloaded discography. */
  datatype Track = Track(id: string, name: string, artist: string, album: string,
                         duration: int, cover: string)

  /** An artist found by the search. */
  datatype Artist = Artist(id: string, name: string)

  datatype Joker = ShowMore | ShowCover | ShowInitial | ShowDuration

  /** The remaining uses of each joker. */
  datatype Jokers = Jokers(showMore: int, showCover: int, showInitial: int, showDuration: int) {
    function Get(j: Joker): int {
      match j
      case ShowMore => showMore
      case ShowCover => showCover
      case ShowInitial => showInitial
      case ShowDuration => showDuration
    }

    /** `{ ...prev, [type]: prev[type] - 1 }`. */
    function Decrement(j: Joker): (r: Jokers)
      ensures r.Get(j) == Get(j) - 1
      ensures forall k :: k != j ==> r.Get(k) == Get(k)
    {
      match j
      case ShowMore => this.(showMore := showMore - 1)
      case ShowCover => this.(showCover := showCover - 1)
      case ShowInitial => this.(showInitial := showInitial - 1)
      case ShowDuration => this.(showDuration := showDuration - 1)
    }
  }

  /** One use of every joker, at the start and after a lost game. */
  const FullJokers := Jokers(1, 1, 1, 1)

  const InitialAttempts := 3
  const InitialVisibleLines := 5

  // ----- Guess normalisation -----

  /** `guess.trim().toLowerCase() === name.toLowerCase()`. Only the guess is trimmed. */
  predicate IsCorrect(guess: string, title: string) {
    Lower(Trim(guess)) == Lower(title)
  }

  /** The comparison ignores letter case on both sides. */
  lemma IsCorrectIgnoresCase(guess: string, title: string)
    ensures IsCorrect(guess, title) <==> IsCorrect(guess, Lower(title))
  {
    assert Lower(Lower(title)) == Lower(title);
  }

  /** Typing a title without surrounding white space, in any letter case, is correct. */
  lemma OwnTitleIsCorrect(title: string)
    requires title == [] || (!IsSpace(title[0]) && !IsSpace(title[|title| - 1]))
    ensures IsCorrect(title, title)
  {
    assert TrimStart(title) == title;
    assert TrimEnd(title) == title;
  }

  /** The title is not trimmed: a title that starts with white space matches no
      guess, since the trimmed guess never starts with white space. */
  lemma PaddedTitleUnguessable(guess: string, title: string)
    requires title != [] && IsSpace(title[0])
    ensures !IsCorrect(guess, title)
  {
    var g := Trim(guess);
    LowerCharKeepsSpace(title[0]);
    if g != [] {
      LowerCharKeepsSpace(g[0]);
      assert Lower(g)[0] != Lower(title)[0];
    }
  }

  // ----- The lyrics preview -----

  /** `lines.filter(l => l.trim() !== '')`. */
  function NonBlank(lines: seq<string>): (r: seq<string>)
    ensures |r| <= |lines|
    ensures forall l :: l in r <==> l in lines && !IsBlank(l)
  {
    if lines == [] then []
    else
      TrimEmptyIffBlank(lines[0]);
      var rest := NonBlank(lines[1..]);
      assert forall l :: l in lines <==> l == lines[0] || l in lines[1..];
      if Trim(lines[0]) != [] then [lines[0]] + rest else rest
  }

  /** The filter works line by line: it distributes over concatenation. */
  lemma {:induction false} NonBlankAppend(a: seq<string>, b: seq<string>)
    ensures NonBlank(a + b) == NonBlank(a) + NonBlank(b)
  {
    if a == [] {
      assert a + b == b;
    } else {
      assert (a + b)[1..] == a[1..] + b;
      NonBlankAppend(a[1..], b);
    }
  }

  /** A single line is kept exactly when it is not blank. With `NonBlankAppend`
      this fixes the order and multiplicity of the kept lines. */
  lemma NonBlankSingle(l: string)
    ensures NonBlank([l]) == if IsBlank(l) then [] else [l]
  {
    TrimEmptyIffBlank(l);
  }

  /** `arr.slice(0, n)`. */
  function Take(lines: seq<string>, n: nat): (r: seq<string>)
    ensures |r| == if n < |lines| then n else |lines|
    ensures r == lines[..|r|]
  {
    if n < |lines| then lines[..n] else lines
  }

  /** `getLyricsPreview`: at most `visibleLines` non-blank lines of the lyrics, in
      order, joined by line breaks. */
  function LyricsPreview(lyrics: string, visibleLines: nat): string {
    Join(Take(NonBlank(Split(lyrics, '\n')), visibleLines), '\n')
  }

  /** The preview's lines are exactly the first `min(visibleLines, k)` of the `k`
      non-blank lyric lines; an empty selection gives the empty text. */
  lemma PreviewLines(lyrics: string, visibleLines: nat)
    ensures var shown := Take(NonBlank(Split(lyrics, '\n')), visibleLines);
      (shown != [] ==> Split(LyricsPreview(lyrics, visibleLines), '\n') == shown)
      && (shown == [] ==> LyricsPreview(lyrics, visibleLines) == "")
      && (forall l :: l in shown ==> !IsBlank(l) && l in Split(lyrics, '\n'))
  {
    var lines := Split(lyrics, '\n');
    var shown := Take(NonBlank(lines), visibleLines);
    forall k | 0 <= k < |shown|
      ensures '\n' !in shown[k]
    {
      assert shown[k] in NonBlank(lines);
      var i :| 0 <= i < |lines| && lines[i] == shown[k];
    }
    if shown != [] {
      SplitJoin(shown, '\n');
    }
  }

  /** Showing more lines extends the preview: the earlier selection is a prefix of the
      later one. */
  lemma MoreLinesExtendPreview(lyrics: string, n: nat, m: nat)
    requires n <= m
    ensures var all := NonBlank(Split(lyrics, '\n'));
      Take(all, n) == Take(all, m)[..|Take(all, n)|]
  {
  }

  // ----- Picking a song -----

  /** `discography.filter(song => !used.includes(song.id))`. */
  function Unused(tracks: seq<Track>, used: seq<string>): (r: seq<Track>)
    ensures |r| <= |tracks|
    ensures forall t {:trigger t in r} :: t in r <==> t in tracks && t.id !in used
  {
    if tracks == [] then []
    else
      var rest := Unused(tracks[1..], used);
      assert forall t :: t in tracks <==> t == tracks[0] || t in tracks[1..];
      if tracks[0].id !in used then [tracks[0]] + rest else rest
  }

  /** The filter works track by track: it distributes over concatenation. */
  lemma {:induction false} UnusedAppend(a: seq<Track>, b: seq<Track>, used: seq<string>)
    ensures Unused(a + b, used) == Unused(a, used) + Unused(b, used)
  {
    if a == [] {
      assert a + b == b;
    } else {
      assert (a + b)[1..] == a[1..] + b;
      UnusedAppend(a[1..], b, used);
    }
  }

  /** A single track is kept exactly when its id is not used. With
      `UnusedAppend` this fixes the order of the candidates `RandomSong` indexes. */
  lemma UnusedSingle(t: Track, used: seq<string>)
    ensures Unused([t], used) == if t.id in used then [] else [t]
  {
  }

  /** `Math.floor(x * n)` for `0 <= x < 1` is a valid index. */
  lemma RandomIndex(x: real, n: nat)
    requires 0.0 <= x < 1.0 && n > 0
    ensures 0 <= (x * n as real).Floor < n
  {
    assert x * n as real < n as real by {
      assert (1.0 - x) * n as real > 0.0;
    }
  }

  /** `getRandomSong(candidates)` with `x` the value of `Math.random()`: nothing for no
      candidates, otherwise the track at `floor(x * k)` among the `k` whose id is not
      in the used list of the state. */
  function RandomSong(used: seq<string>, candidates: seq<Track>, x: real): (r: Option<Track>)
    requires 0.0 <= x < 1.0
    ensures r.Some? ==> r.value in candidates && r.value.id !in used
    ensures r.None? <==> Unused(candidates, used) == []
  {
    var available := Unused(candidates, used);
    if candidates == [] || available == [] then None
    else
      RandomIndex(x, |available|);
      var k := (x * |available| as real).Floor;
      assert available[k] in available;
      Some(available[k])
  }

  // ----- The retry loop of startGame -----

  /** How the retry loop ends: the song and lyrics found (empty lyrics when none was
      found) and the local used list. */
  datatype RoundPick = RoundPick(song: Option<Track>, lyrics: string, used: seq<string>)

  /** The oracles of one `startGame`: up to three lyrics responses (`""` for a
      failed or empty one) and up to four `Math.random` values. */
  predicate OraclesOk(responses: seq<string>, randoms: seq<real>) {
    |responses| == 3 && |randoms| == 4
    && forall i :: 0 <= i < |randoms| ==> 0.0 <= randoms[i] < 1.0
  }

  /** The loop `while (retries > 0 && !lyricsText)` from the state with `retries`
      attempts left, the current song and the local used list. Fetch number
      `3 - retries` gets `responses[3 - retries]`; the re-pick after it uses
      `randoms[4 - retries]`. */
  function Retry(discography: seq<Track>, stateUsed: seq<string>, local: seq<string>,
                 song: Option<Track>, retries: nat, responses: seq<string>, randoms: seq<real>): RoundPick
    requires OraclesOk(responses, randoms) && retries <= 3
    decreases retries
  {
    if retries == 0 || song.None? then RoundPick(song, "", local)
    else
      var text := responses[3 - retries];
      var local' := local + [song.value.id];
      if text == "" then
        var next := RandomSong(stateUsed, Unused(discography, local'), randoms[4 - retries]);
        Retry(discography, stateUsed, local', next, retries - 1, responses, randoms)
      else RoundPick(song, text, local')
  }

  /** The ids of a list of tracks. */
  function Ids(tracks: seq<Track>): set<string> {
    set t | t in tracks :: t.id
  }

  /** `used` extends `local` by ids of the discography, each new one not seen before
      it: the tried songs are fresh and pairwise distinct. */
  predicate ExtendsFreshly(discography: seq<Track>, local: seq<string>, used: seq<string>) {
    |local| <= |used| && used[..|local|] == local
    && forall i :: |local| <= i < |used| ==> used[i] !in used[..i] && used[i] in Ids(discography)
  }

  /** One more fresh id in front keeps the extension fresh. */
  lemma ExtendsFreshlyCons(discography: seq<Track>, local: seq<string>, id: string, used: seq<string>)
    requires id !in local && id in Ids(discography)
    requires ExtendsFreshly(discography, local + [id], used)
    ensures ExtendsFreshly(discography, local, used)
  {
    assert used[..|local|] == (local + [id])[..|local|] == local;
    assert used[..|local| + 1] == local + [id];
  }

  /** The retry loop tries at most `retries` songs, each once, each a track of the
      discography not already used, and appends their ids to the used list. */
  lemma {:induction false} RetryTriesFreshSongs(discography: seq<Track>, stateUsed: seq<string>, local: seq<string>,
                                                song: Option<Track>, retries: nat, responses: seq<string>, randoms: seq<real>)
    requires OraclesOk(responses, randoms) && retries <= 3
    requires song.Some? ==> song.value in discography && song.value.id !in local
    decreases retries
    ensures var p := Retry(discography, stateUsed, local, song, retries, responses, randoms);
      ExtendsFreshly(discography, local, p.used) && |p.used| <= |local| + retries
  {
    if retries == 0 || song.None? {
      assert local[..|local|] == local;
    } else {
      var local' := local + [song.value.id];
      assert song.value.id in Ids(discography);
      if responses[3 - retries] == "" {
        var next := RandomSong(stateUsed, Unused(discography, local'), randoms[4 - retries]);
        RetryTriesFreshSongs(discography, stateUsed, local', next, retries - 1, responses, randoms);
        var p := Retry(discography, stateUsed, local', next, retries - 1, responses, randoms);
        assert Retry(discography, stateUsed, local, song, retries, responses, randoms) == p;
        ExtendsFreshlyCons(discography, local, song.value.id, p.used);
      } else {
        assert Retry(discography, stateUsed, local, song, retries, responses, randoms)
            == RoundPick(song, responses[3 - retries], local');
        ExtendsFreshlyCons(discography, local, song.value.id, local');
        assert local'[..|local'|] == local';
      }
    }
  }

  /** One step of `Retry` when the fetch succeeds: the loop ends with that song. */
  lemma RetryHit(discography: seq<Track>, stateUsed: seq<string>, local: seq<string>,
                 song: Option<Track>, retries: nat, responses: seq<string>, randoms: seq<real>)
    requires OraclesOk(responses, randoms) && 0 < retries <= 3 && song.Some?
    requires responses[3 - retries] != ""
    ensures Retry(discography, stateUsed, local, song, retries, responses, randoms)
      == RoundPick(song, responses[3 - retries], local + [song.value.id])
  {
  }

  /** One step of `Retry` when the fetch fails: the song is marked used and another
      one is picked. */
  lemma RetryMiss(discography: seq<Track>, stateUsed: seq<string>, local: seq<string>,
                  song: Option<Track>, retries: nat, responses: seq<string>, randoms: seq<real>)
    requires OraclesOk(responses, randoms) && 0 < retries <= 3 && song.Some?
    requires responses[3 - retries] == ""
    ensures var local' := local + [song.value.id];
      Retry(discography, stateUsed, local, song, retries, responses, randoms)
      == Retry(discography, stateUsed, local', RandomSong(stateUsed, Unused(discography, local'), randoms[4 - retries]),
               retries - 1, responses, randoms)
  {
  }

  /** When lyrics are found, the song of the round is a track of the discography and
      the lyrics are one of the responses. */
  lemma {:induction false} RetryFindsTrack(discography: seq<Track>, stateUsed: seq<string>, local: seq<string>,
                                           song: Option<Track>, retries: nat, responses: seq<string>, randoms: seq<real>)
    requires OraclesOk(responses, randoms) && retries <= 3
    requires song.Some? ==> song.value in discography
    decreases retries
    ensures var p := Retry(discography, stateUsed, local, song, retries, responses, randoms);
      p.lyrics != "" ==> p.song.Some? && p.song.value in discography && p.lyrics in responses
  {
    if retries > 0 && song.Some? {
      var local' := local + [song.value.id];
      if responses[3 - retries] == "" {
        var next := RandomSong(stateUsed, Unused(discography, local'), randoms[4 - retries]);
        RetryFindsTrack(discography, stateUsed, local', next, retries - 1, responses, randoms);
        RetryMiss(discography, stateUsed, local, song, retries, responses, randoms);
      } else {
        RetryHit(discography, stateUsed, local, song, retries, responses, randoms);
        assert responses[3 - retries] in responses;
      }
    }
  }

  /** When lyrics are found, the song of the round is the last one tried: its id ends
      the used list, which has grown. */
  lemma {:induction false} RetryEndsWithSong(discography: seq<Track>, stateUsed: seq<string>, local: seq<string>,
                                             song: Option<Track>, retries: nat, responses: seq<string>, randoms: seq<real>)
    requires OraclesOk(responses, randoms) && retries <= 3
    decreases retries
    ensures var p := Retry(discography, stateUsed, local, song, retries, responses, randoms);
      p.lyrics != "" ==> p.song.Some? && |p.used| > |local| && p.used[|p.used| - 1] == p.song.value.id
  {
    if retries > 0 && song.Some? {
      var local' := local + [song.value.id];
      if responses[3 - retries] == "" {
        var next := RandomSong(stateUsed, Unused(discography, local'), randoms[4 - retries]);
        RetryEndsWithSong(discography, stateUsed, local', next, retries - 1, responses, randoms);
        RetryMiss(discography, stateUsed, local, song, retries, responses, randoms);
      } else {
        RetryHit(discography, stateUsed, local, song, retries, responses, randoms);
        assert local'[|local'| - 1] == song.value.id;
      }
    } else {
      assert Retry(discography, stateUsed, local, song, retries, responses, randoms).lyrics == "";
    }
  }

  /** Lyrics are found only for the last song tried, which is then the song of the
      round and a track of the discography; the lyrics are one of the responses. */
  lemma RetryFindsLastTried(discography: seq<Track>, stateUsed: seq<string>, local: seq<string>,
                            song: Option<Track>, retries: nat, responses: seq<string>, randoms: seq<real>)
    requires OraclesOk(responses, randoms) && retries <= 3
    requires song.Some? ==> song.value in discography
    ensures var p := Retry(discography, stateUsed, local, song, retries, responses, randoms);
      p.lyrics != "" ==>
        p.song.Some? && p.song.value in discography && |p.used| > |local|
        && p.used[|p.used| - 1] == p.song.value.id && p.lyrics in responses
  {
    RetryFindsTrack(discography, stateUsed, local, song, retries, responses, randoms);
    RetryEndsWithSong(discography, stateUsed, local, song, retries, responses, randoms);
  }

  /** The whole retry loop: the first pick, then up to three fetches. */
  function FirstPick(discography: seq<Track>, used: seq<string>, responses: seq<string>, randoms: seq<real>): RoundPick
    requires OraclesOk(responses, randoms)
  {
    Retry(discography, used, used, RandomSong(used, Unused(discography, used), randoms[0]), 3, responses, randoms)
  }

  /** The retry loop of `startGame`, lines 102-125: starting from `used`, picks a
      random unused song and asks for its lyrics, at most three times. */
  method PickPlayableSong(discography: seq<Track>, used: seq<string>, responses: seq<string>, randoms: seq<real>)
    returns (pick: RoundPick)
    requires OraclesOk(responses, randoms)
    ensures pick == FirstPick(discography, used, responses, randoms)
  {
    var localUsed := used;
    var available := Unused(discography, localUsed);
    var song := RandomSong(used, available, randoms[0]);
    var retries := 3;
    var lyricsText := "";
    ghost var goal := Retry(discography, used, localUsed, song, retries, responses, randoms);
    while retries > 0 && lyricsText == ""
      invariant retries <= 3
      invariant lyricsText == "" ==> Retry(discography, used, localUsed, song, retries, responses, randoms) == goal
      invariant lyricsText != "" ==> RoundPick(song, lyricsText, localUsed) == goal
      decreases retries, if lyricsText == "" then 1 else 0
    {
      if song.None? {
        break;
      }
      lyricsText := responses[3 - retries];
      if lyricsText == "" {
        localUsed := localUsed + [song.value.id];
        available := Unused(discography, localUsed);
        song := RandomSong(used, available, randoms[4 - retries]);
        retries := retries - 1;
      } else {
        localUsed := localUsed + [song.value.id];
      }
    }
    pick := RoundPick(song, lyricsText, localUsed);
  }

  // ----- Where a round draws its songs from -----

  /** The artist on screen differs from the one just found. */
  predicate ArtistChanged(current: Option<Artist>, found: Artist) {
    current.None? || current.value.id != found.id
  }

  /** As written, `startGame` reads `discography` and `usedSongs` from the render it
      started in, so the reset at lines 88-92 does not reach lines 94-102: the
      discography and used list of the round are the old ones. */
  function StaleRoundSource(current: Option<Artist>, found: Artist, discography: seq<Track>,
                            usedSongs: seq<string>, fetched: seq<Track>): (seq<Track>, seq<string>)
  {
    (if discography == [] then fetched else discography, usedSongs)
  }

  /** After switching artist, the first round as written is still drawn from the
      previous artist's tracks. */
  lemma StaleRoundUsesPreviousArtist()
    ensures var old_track := Track("a1", "Old Song", "A", "Old Album", 1, "");
      var new_track := Track("b1", "New Song", "B", "New Album", 1, "");
      var src := StaleRoundSource(Some(Artist("a", "A")), Artist("b", "B"), [old_track], [], [new_track]);
      ArtistChanged(Some(Artist("a", "A")), Artist("b", "B"))
      && src.0 == [old_track] && new_track !in src.0
  {
  }

  /** The `discography` state after `startGame` as written. The setters take effect
      in call order: the reset of line 89 after a switch, then the download stored at
      line 98 when the render's discography was empty. */
  function StoredDiscography(current: Option<Artist>, found: Artist, discography: seq<Track>,
                             fetched: seq<Track>): seq<Track>
  {
    if discography == [] then fetched
    else if ArtistChanged(current, found) then []
    else discography
  }

  /** As written, switching to a new artist while the old one's tracks are loaded
      plays one more round of the old artist: the song comes from the old
      discography, the used list only grows from the old one, and the stored
      discography is left empty, so the next round downloads again. */
  lemma StaleSwitchPlaysOldArtist(current: Option<Artist>, found: Artist, discography: seq<Track>,
                                  usedSongs: seq<string>, fetched: seq<Track>,
                                  responses: seq<string>, randoms: seq<real>)
    requires OraclesOk(responses, randoms)
    requires ArtistChanged(current, found) && discography != []
    ensures var src := StaleRoundSource(current, found, discography, usedSongs, fetched);
      var p := FirstPick(src.0, src.1, responses, randoms);
      StoredDiscography(current, found, discography, fetched) == []
      && (p.lyrics != "" ==> p.song.Some? && p.song.value in discography)
      && |usedSongs| <= |p.used| && p.used[..|usedSongs|] == usedSongs
  {
    var first := RandomSong(usedSongs, Unused(discography, usedSongs), randoms[0]);
    RetryFindsLastTried(discography, usedSongs, usedSongs, first, 3, responses, randoms);
    RetryTriesFreshSongs(discography, usedSongs, usedSongs, first, 3, responses, randoms);
  }

  /** The evidently intended source: after an artist switch, the freshly downloaded
      discography and an empty used list; otherwise the kept discography (downloaded
      again only when empty) and the used list so far. */
  function RoundSource(current: Option<Artist>, found: Artist, discography: seq<Track>,
                       usedSongs: seq<string>, fetched: seq<Track>): (r: (seq<Track>, seq<string>))
    ensures ArtistChanged(current, found) ==> r == (fetched, [])
    ensures !ArtistChanged(current, found) && discography != [] ==> r == (discography, usedSongs)
    ensures !ArtistChanged(current, found) && discography == [] ==> r == (fetched, usedSongs)
  {
    var base := if ArtistChanged(current, found) then [] else discography;
    var used := if ArtistChanged(current, found) then [] else usedSongs;
    (if base == [] then fetched else base, used)
  }

  /** Every song a round can pick comes from the source's discography. */
  lemma RoundSongFromSource(current: Option<Artist>, found: Artist, discography: seq<Track>,
                            usedSongs: seq<string>, fetched: seq<Track>, responses: seq<string>, randoms: seq<real>)
    requires OraclesOk(responses, randoms)
    ensures var src := RoundSource(current, found, discography, usedSongs, fetched);
      var first := RandomSong(src.1, Unused(src.0, src.1), randoms[0]);
      var p := Retry(src.0, src.1, src.1, first, 3, responses, randoms);
      p.lyrics != "" ==>
        (p.song.Some? && p.song.value in src.0
         && (ArtistChanged(current, found) ==> p.song.value in fetched))
  {
    var src := RoundSource(current, found, discography, usedSongs, fetched);
    RetryFindsLastTried(src.0, src.1, src.1, RandomSong(src.1, Unused(src.0, src.1), randoms[0]), 3, responses, randoms);
  }

  /** The outcome of a guess. */
  datatype GuessOutcome = NoSong | Correct | Lost | Wrong

  /** The state slots that describe the round on screen: `currentSong`, `lyrics`,
      `guess`, `attempts`, `visibleLines`, `showCover`, `showInitial` and
      `usedJokers`. */
  datatype RoundView = RoundView(currentSong: Option<Track>, lyrics: string, guess: string,
                                 attempts: int, visibleLines: nat, showCover: bool,
                                 showInitial: bool, usedJokers: seq<Joker>)

  /** The state of one game screen. The per-round slots are kept together in `view`;
      the other slots are fields of their own. */
  class Game {
    var artistInput: string
    var isLoading: bool
    var view: RoundView
    var correctGuesses: nat
    var jokers: Jokers
    var discography: seq<Track>
    var usedSongs: seq<string>
    var currentArtist: Option<Artist>

    /** Each joker has zero or one use left, one to three attempts remain, and at
        least the first five lines are shown. */
    ghost predicate Valid()
      reads this
    {
      (forall j :: 0 <= jokers.Get(j) <= 1)
      && 1 <= view.attempts <= InitialAttempts
      && view.visibleLines >= InitialVisibleLines
    }

    /** The initial values of the state slots. */
    constructor()
      ensures Valid()
      ensures artistInput == "" && !isLoading && correctGuesses == 0 && jokers == FullJokers
      ensures view == RoundView(None, "", "", 3, 5, false, false, [])
      ensures discography == [] && usedSongs == [] && currentArtist == None
    {
      artistInput := "";
      isLoading := false;
      view := RoundView(None, "", "", InitialAttempts, InitialVisibleLines, false, false, []);
      correctGuesses := 0;
      jokers := FullJokers;
      discography := [];
      usedSongs := [];
      currentArtist := None;
    }

    /** `handleGuess`, without the `startGame` it then calls on a correct guess and on
        a lost game (the outcomes `Correct` and `Lost`). A lost game keeps the
        attempt count at 1 until that new round starts. */
    method HandleGuess() returns (outcome: GuessOutcome)
      requires Valid()
      modifies this
      ensures Valid()
      ensures outcome == NoSong <==> old(view.currentSong).None?
      ensures outcome == Correct <==>
        old(view.currentSong).Some? && IsCorrect(old(view.guess), old(view.currentSong).value.name)
      ensures outcome == Lost <==>
        old(view.currentSong).Some? && !IsCorrect(old(view.guess), old(view.currentSong).value.name)
        && old(view.attempts) == 1
      ensures correctGuesses == if outcome == Correct then old(correctGuesses) + 1
                                else if outcome == Lost then 0 else old(correctGuesses)
      ensures jokers == if outcome == Lost then FullJokers else old(jokers)
      ensures view == if outcome == Lost then old(view).(usedJokers := [])
                      else if outcome == Wrong then old(view).(attempts := old(view.attempts) - 1, guess := "")
                      else old(view)
      ensures unchanged(this`artistInput, this`isLoading, this`discography, this`usedSongs, this`currentArtist)
    {
      if view.currentSong.None? {
        return NoSong;
      }
      var correct := IsCorrect(view.guess, view.currentSong.value.name);
      outcome := ScoreGuess(correct);
    }

    /** The state change of `handleGuess` once the guess has been compared with the
        title. */
    method ScoreGuess(correct: bool) returns (outcome: GuessOutcome)
      requires Valid()
      modifies this
      ensures Valid()
      ensures outcome == Correct <==> correct
      ensures outcome == Lost <==> !correct && old(view.attempts) == 1
      ensures outcome == Wrong <==> !correct && old(view.attempts) != 1
      ensures correctGuesses == if outcome == Correct then old(correctGuesses) + 1
                                else if outcome == Lost then 0 else old(correctGuesses)
      ensures jokers == if outcome == Lost then FullJokers else old(jokers)
      ensures view == if outcome == Lost then old(view).(usedJokers := [])
                      else if outcome == Wrong then old(view).(attempts := old(view.attempts) - 1, guess := "")
                      else old(view)
      ensures unchanged(this`artistInput, this`isLoading, this`discography, this`usedSongs, this`currentArtist)
    {
      if correct {
        correctGuesses := correctGuesses + 1;
        outcome := Correct;
      } else if view.attempts == 1 {
        correctGuesses := 0;
        jokers := FullJokers;
        view := view.(usedJokers := []);
        outcome := Lost;
      } else {
        view := view.(attempts := view.attempts - 1, guess := "");
        outcome := Wrong;
      }
    }

    /** `useJoker(type)`: a used-up joker does nothing; otherwise one use is spent
        and its effect applied (the duration joker only shows an alert). */
    method UseJoker(j: Joker)
      requires Valid()
      modifies this
      ensures Valid()
      ensures old(jokers.Get(j)) == 0 ==> jokers == old(jokers) && view == old(view)
      ensures old(jokers.Get(j)) != 0 ==>
        (jokers == old(jokers).Decrement(j)
         && view == old(view).(visibleLines := if j == ShowMore then old(view.visibleLines) + 5 else old(view.visibleLines),
                               showCover := old(view.showCover) || j == ShowCover,
                               showInitial := old(view.showInitial) || j == ShowInitial))
      ensures unchanged(this`artistInput, this`isLoading, this`correctGuesses, this`discography, this`usedSongs, this`currentArtist)
    {
      if jokers.Get(j) == 0 {
        return;
      }
      jokers := jokers.Decrement(j);
      match j
      case ShowMore => view := view.(visibleLines := view.visibleLines + 5);
      case ShowCover => view := view.(showCover := true);
      case ShowInitial => view := view.(showInitial := true);
      case ShowDuration =>
    }

    /** The effect on `usedSongs`: once as many songs are used as the discography
        holds, both lists are cleared. */
    method ExhaustionEffect()
      modifies this
      ensures discography == [] || |usedSongs| < |discography|
      ensures if |old(discography)| > 0 && |old(usedSongs)| >= |old(discography)|
              then discography == [] && usedSongs == []
              else discography == old(discography) && usedSongs == old(usedSongs)
      ensures unchanged(this`artistInput, this`isLoading, this`view, this`correctGuesses, this`jokers, this`currentArtist)
    {
      if |discography| > 0 && |usedSongs| >= |discography| {
        discography := [];
        usedSongs := [];
      }
    }

    /** `startGame` with the oracles' answers: `found` from the artist search,
        `fetched` from the discography download (used only if needed). With no
        artist input nothing happens; an unknown artist changes only the loading flag.
        Otherwise `LoadRound` runs, then the effect on `usedSongs`. */
    method StartGame(found: Option<Artist>, fetched: seq<Track>, responses: seq<string>, randoms: seq<real>)
      returns (started: bool)
      requires Valid() && OraclesOk(responses, randoms)
      modifies this
      ensures Valid()
      ensures old(artistInput) == "" ==> !started && unchanged(this)
      ensures old(artistInput) != "" ==> !isLoading
      ensures old(artistInput) != "" && found.None? ==>
        !started && unchanged(this`view, this`discography, this`usedSongs, this`currentArtist)
      ensures old(artistInput) != "" && found.Some? ==>
        var src := StaleRoundSource(old(currentArtist), found.value, old(discography), old(usedSongs), fetched);
        var p := FirstPick(src.0, src.1, responses, randoms);
        var stored := StoredDiscography(old(currentArtist), found.value, old(discography), fetched);
        && (started <==> p.lyrics != "")
        && (started ==> p.song.Some? && p.song.value in src.0
                        && view == RoundView(p.song, p.lyrics, "", 3, 5, false, false, []))
        && (currentArtist == if ArtistChanged(old(currentArtist), found.value) then Some(found.value) else old(currentArtist))
        && (if |stored| > 0 && |p.used| >= |stored|
            then discography == [] && usedSongs == []
            else discography == stored && usedSongs == p.used)
      ensures !started ==> view == old(view)
      ensures unchanged(this`artistInput, this`correctGuesses, this`jokers)
    {
      started := false;
      if artistInput == "" {
        return;
      }
      isLoading := true;
      if found.None? {
        isLoading := false;
        return;
      }
      started := LoadRound(found.value, fetched, responses, randoms);
      ExhaustionEffect();
      isLoading := false;
    }

    /** The part of `startGame` after the artist is found (lines 88-139), as written:
        the round draws from the render's `discography` and `usedSongs`
        (`StaleRoundSource`), the retry loop picks the song, the used list is stored,
        and a round with lyrics starts afresh. */
    method LoadRound(artist: Artist, fetched: seq<Track>, responses: seq<string>, randoms: seq<real>)
      returns (started: bool)
      requires Valid() && OraclesOk(responses, randoms)
      modifies this
      ensures Valid()
      ensures var src := StaleRoundSource(old(currentArtist), artist, old(discography), old(usedSongs), fetched);
        var p := FirstPick(src.0, src.1, responses, randoms);
        && (started <==> p.lyrics != "")
        && discography == StoredDiscography(old(currentArtist), artist, old(discography), fetched)
        && usedSongs == p.used
        && (started ==> p.song.Some? && p.song.value in src.0 && usedSongs[|usedSongs| - 1] == p.song.value.id
                        && view == RoundView(p.song, p.lyrics, "", 3, 5, false, false, []))
      ensures !started ==> view == old(view)
      ensures currentArtist == if ArtistChanged(old(currentArtist), artist) then Some(artist) else old(currentArtist)
      ensures unchanged(this`artistInput, this`isLoading, this`correctGuesses, this`jokers)
    {
      var src := StaleRoundSource(currentArtist, artist, discography, usedSongs, fetched);
      var renderDiscography, renderUsed := discography, usedSongs;
      if ArtistChanged(currentArtist, artist) {
        discography := [];
        usedSongs := [];
        currentArtist := Some(artist);
      }
      var availableDiscography := renderDiscography;
      if availableDiscography == [] {
        availableDiscography := fetched;
        discography := availableDiscography;
      }
      var pick := PickPlayableSong(availableDiscography, renderUsed, responses, randoms);
      usedSongs := pick.used;
      started := pick.lyrics != "";
      if started {
        RetryFindsLastTried(src.0, src.1, src.1, RandomSong(src.1, Unused(src.0, src.1), randoms[0]), 3, responses, randoms);
        view := RoundView(pick.song, pick.lyrics, "", InitialAttempts, InitialVisibleLines, false, false, []);
      }
    }
  }
}
