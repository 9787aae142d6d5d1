/**
 * Concrete cases of the selection rules and of one whole update, worked
 * out on the model: the priority chain, SDH narrowing, an end-to-end
 * subtitle update, and a sidecar that overrides the language filter.
 */
module Scenarios {
  import opened Optional
  import Lists
  import Text
  import opened Tracks
  import opened Kodi
  import opened Autosubs

  /** A subtitle track as MediaInfo reports one: only the fields the heuristics read. */
  function Sub(id: int, lang: string, title: Option<string>, isDefault: bool, isForced: bool): Track
  {
    Track(id, Some(lang), title, isDefault, isForced, None)
  }

  /** A forced track wins even when a default track is listed before it. */
  lemma ForcedBeatsEarlierDefault()
    ensures PreferredSubtrack([Sub(0, "en", None, true, false), Sub(1, "en", None, false, true)], "en")
            == Some(Sub(1, "en", None, false, true))
  {
    var subtracks := [Sub(0, "en", None, true, false), Sub(1, "en", None, false, true)];
    assert SubtitlePool(subtracks, "en") == subtracks;
  }

  /** "English SDH" mentions SDH (at position 8). */
  lemma {:induction false} SdhTitle()
    ensures !NotSDH(Sub(0, "en", Some("English SDH"), false, false))
  {
    var title := "English SDH";
    assert title[8..] == "SDH";
    assert Text.OccursAt(title, "SDH", 8);
    Text.ContainsAt(title, "SDH");
  }

  /** "English" does not mention SDH: it has no 'S' at all. */
  lemma {:induction false} PlainTitle()
    ensures NotSDH(Sub(1, "en", Some("English"), false, false))
  {
    var title := "English";
    assert forall i :: 0 <= i < |title| ==> title[i] != 'S';
    Text.ContainsAt(title, "SDH");
    forall i
      ensures !Text.OccursAt(title, "SDH", i)
    {
      if 0 <= i && i + 3 <= |title| {
        assert title[i..i + 3][0] == title[i];
      }
    }
  }

  /** An SDH track is dropped when a plain one remains, and kept when it is alone. */
  lemma {:induction false} SdhNarrowing()
    ensures PreferredSubtrack([Sub(0, "en", Some("English SDH"), false, false), Sub(1, "en", Some("English"), false, false)], "en")
            == Some(Sub(1, "en", Some("English"), false, false))
    ensures PreferredSubtrack([Sub(0, "en", Some("English SDH"), false, false)], "en")
            == Some(Sub(0, "en", Some("English SDH"), false, false))
  {
    var sdh := Sub(0, "en", Some("English SDH"), false, false);
    var plain := Sub(1, "en", Some("English"), false, false);
    SdhTitle();
    PlainTitle();
    assert Lists.Filter([sdh, plain], InLanguage("en")) == [sdh, plain];
    assert Lists.Filter([sdh, plain], NotSDH) == [plain];
    assert SubtitlePool([sdh, plain], "en") == [plain];
    assert SubtitlePool([sdh], "en") == [sdh];
  }

  /** The one French audio track of the films below. */
  function FrenchAudio(): seq<Track>
  {
    [Track(0, Some("fr"), None, true, false, None)]
  }

  /** A forced and a default English subtitle. */
  function EnglishSubs(): seq<Track>
  {
    [Sub(0, "en", None, false, true), Sub(1, "en", None, true, false)]
  }

  /** Quiet mode takes the forced track, stream 0, when nothing was chosen before. */
  lemma {:induction false} QuietWritesForced()
    ensures PreferredSubtrack(EnglishSubs(), "en") == Some(EnglishSubs()[0])
    ensures SubtitleWrite(Args("en", "eng", false, false, true, false), EnglishSubs(), Some(EnglishSubs()[0]),
                          FrenchAudio()[0], Answers("", "", "", ""), -1) == Some(0)
  {
    assert SubtitlePool(EnglishSubs(), "en") == EnglishSubs();
  }

  /**
   * A French film with two English subtitles, a forced one and a default
   * one, and no settings yet: in quiet mode the forced track (stream 0) is
   * stored and subtitles are switched on.
   */
  method EndToEnd() returns (written: Option<int>, stored: SettingsRow)
    ensures written == Some(0)
    ensures stored.subtitleStream == 0 && stored.subtitlesOn == 1 && stored.audioStream == -1
  {
    var args := Args("en", "eng", false, false, true, false);
    var db := new KodiManager([], map[], map[]);
    var film := new FileManager("/films/film.mkv", "en", FrenchAudio(), EnglishSubs(), {});
    assert DefaultAudiotrack(FrenchAudio()) == FrenchAudio()[0];
    QuietWritesForced();
    written := UpdateSubtitles(args, db, film, 7, Answers("", "", "", ""));
    stored := db.settings[7];
  }

  /**
   * A film whose only subtitle is German but which has a sidecar .srt:
   * the sidecar becomes the preferred track, numbered by the one audio
   * track, and accepting it stores stream 1.
   */
  method SidecarOverride() returns (preferred: Option<Track>, written: Option<int>)
    ensures preferred == Some(ExternalSubtrack(1, "en"))
    ensures written == Some(1)
  {
    var audiotracks := [Track(0, Some("fr"), None, true, false, None)];
    var subtracks := [Sub(0, "de", None, false, false)];
    assert PreferredSubtrack(subtracks, "en") == None;
    var args := Args("en", "eng", false, false, true, false);
    var db := new KodiManager([], map[], map[]);
    assert LongSidecarPath("/films/film.mkv") == "/films/film.mkv.srt";
    var film := new FileManager("/films/film.mkv", "en", audiotracks, subtracks, {"/films/film.mkv.srt"});
    assert DefaultAudiotrack(audiotracks) == audiotracks[0];
    written := UpdateSubtitles(args, db, film, 7, Answers("", "", "", ""));
    preferred := film.preferredSubtrack;
  }
}
