/** The custom rating form of CustomRatingScreen.js: a song the catalogue does not
    know is entered by hand, stored under a `custom-` id derived from the clock, and
    rated with the slider's rounded score. The slider is modelled in tenths
    (0 .. 100), the positions a step of 0.1 between 0 and 10 can take. */
module CustomRating {
  import opened Strings
  import opened Database
  import Achievements

  const ProfileError: string := "Bitte erstelle oder wähle ein Profil aus"
  const FieldsError: string := "Bitte fülle alle Felder aus"
  const SuccessMessage: string := "Rating erfolgreich gespeichert!"
  const CustomImage: string := "local:dog_icon.jpeg"

  /** The slider's initial and reset position, 5.0. */
  const DefaultTenths: nat := 50

  /** The id `custom-<milliseconds>` a hand-entered song is stored under. */
  function CustomId(nowMillis: nat): (id: string)
    ensures Achievements.IsCustomSongId(id)
    ensures |Achievements.CustomPrefix| < |id|
    ensures id[|Achievements.CustomPrefix|..] == NatToString(nowMillis)
  {
    Achievements.CustomPrefix + NatToString(nowMillis)
  }

  /** Songs entered at different milliseconds get different ids. */
  lemma CustomIdInjective(m: nat, n: nat)
    requires CustomId(m) == CustomId(n)
    ensures m == n
  {
    NatToStringInjective(m, n);
  }

  /** `Math.round(score)` for a slider position: the nearest whole score, inside the
      range the CHECK constraint accepts. */
  function SubmittedScore(tenths: nat): (s: int)
    requires tenths <= 100
    ensures 0 <= s <= 10
    ensures s as real - 0.5 <= tenths as real / 10.0 < s as real + 0.5
  {
    RoundInRange(tenths as real / 10.0);
    Round(tenths as real / 10.0)
  }

  /** `addRating` rounds again; a whole score passes through unchanged, so the
      stored score is the one the screen shows. */
  lemma StoredScoreIsShownScore(tenths: nat)
    requires tenths <= 100
    ensures Round(SubmittedScore(tenths) as real) == SubmittedScore(tenths)
  {
    RoundOfInteger(SubmittedScore(tenths));
  }

  /** The two writes of a submission: `addSong` first, so that the rating's foreign
      key holds, then `addRating` with a score the CHECK constraint accepts. */
  method SaveSongThenRating(store: RatingStore, song: Song, score: int, clock: nat, newId: nat)
    requires store.Valid() && 0 <= score <= 10 && store.lastRowId < newId
    modifies store
    ensures store.Valid() && store.isOpen
    ensures store.songs == old(store.songs)[song.id := song]
    ensures store.ratings == Upserted(old(store.ratings), newId, song.id, score, clock)
    ensures store.lastRowId == LastIdAfter(old(store.ratings), old(store.lastRowId), newId, song.id)
  {
    store.AddSong(song);
    RoundOfInteger(score);
    var result := store.AddRating(song.id, score as real, clock, newId);
    assert result == Written;
  }

  /** The form's state slots, over the rating store it writes to. */
  class CustomRatingForm {
    var title: string
    var album: string
    var artist: string
    var notes: string
    var scoreTenths: nat
    var error: string
    var success: string
    const store: RatingStore

    ghost predicate Valid()
      reads this, store
    {
      store.Valid() && scoreTenths <= 100
    }

    constructor(store: RatingStore)
      requires store.Valid()
      ensures Valid() && this.store == store
      ensures title == "" && album == "" && artist == "" && notes == ""
      ensures scoreTenths == DefaultTenths && error == "" && success == ""
    {
      this.store := store;
      title, album, artist, notes := "", "", "", "";
      scoreTenths := DefaultTenths;
      error, success := "", "";
    }

    /** The slider's `onValueChange`. */
    method SetScore(tenths: nat)
      requires Valid() && tenths <= 100
      modifies this
      ensures Valid() && scoreTenths == tenths
      ensures unchanged(this`title, this`album, this`artist, this`notes, this`error, this`success)
    {
      scoreTenths := tenths;
    }

    /** `handleSubmit` with the stored profile name (empty for none), the time of
        `Date.now()`, the database clock and the rowid SQLite would give a new
        rating: a missing profile or an empty field only sets the error; otherwise
        the song is added, then its rating, and the form is reset with the success
        message. The notes are passed along but not stored. */
    method HandleSubmit(profile: string, nowMillis: nat, clock: nat, newId: nat) returns (saved: bool)
      requires Valid() && store.lastRowId < newId
      modifies this, store
      ensures Valid()
      ensures saved <==> profile != "" && old(title) != "" && old(album) != "" && old(artist) != ""
      ensures profile == "" ==> error == ProfileError
      ensures profile != "" && !saved ==> error == FieldsError
      ensures !saved ==> (unchanged(store)
        && unchanged(this`title, this`album, this`artist, this`notes, this`scoreTenths, this`success))
      ensures saved ==>
        (var id := CustomId(nowMillis);
         store.isOpen
         && store.songs == old(store.songs)[id := Song(id, old(title), old(artist), old(album), 0, CustomImage)]
         && store.ratings == Upserted(old(store.ratings), newId, id, SubmittedScore(old(scoreTenths)), clock)
         && store.lastRowId == LastIdAfter(old(store.ratings), old(store.lastRowId), newId, id))
      ensures saved ==> (title == "" && album == "" && artist == "" && scoreTenths == DefaultTenths
        && error == "" && success == SuccessMessage && notes == old(notes))
    {
      if profile == "" {
        error := ProfileError;
        return false;
      }
      if title == "" || album == "" || artist == "" {
        error := FieldsError;
        return false;
      }
      SaveSongThenRating(store, Song(CustomId(nowMillis), title, artist, album, 0, CustomImage),
                         SubmittedScore(scoreTenths), clock, newId);
      title, album, artist := "", "", "";
      scoreTenths := DefaultTenths;
      error := "";
      success := SuccessMessage;
      return true;
    }

    /** The timer two seconds after a save clears the success message. */
    method ClearSuccess()
      requires Valid()
      modifies this
      ensures Valid() && success == ""
      ensures unchanged(this`title, this`album, this`artist, this`notes, this`scoreTenths, this`error)
    {
      success := "";
    }
  }
}
