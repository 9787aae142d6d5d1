/**
 * The per-file decisions of AutosubsProgram (autosubs.py): how the typed
 * answer to a prompt becomes a track choice, how a sidecar subtitle joins
 * the track list, when update_subtitles and update_audio write to the
 * settings table, and which of them _run lets loose on each file.
 *
 * The program's state (its parsed arguments and its KodiManager) is
 * passed in explicitly. Whatever the console would answer is an input.
 */
module Autosubs {
  import opened Optional
  import opened Text
  import opened Tracks
  import opened Kodi

  /** The parsed command line: the target language's two codes and the mode flags. */
  datatype Args = Args(alpha2: string, alpha3: string, updateonly: bool, fastmode: bool, quiet: bool, audio: bool)

  /** What the user would type at each prompt for one file (`input()` without the newline). */
  datatype Answers = Answers(subtitleTrack: string, subtitleOverwrite: string, audioTrack: string, audioOverwrite: string)

  /** One file of the batch: its path, what MediaInfo.parse reports, and the user's answers. */
  datatype MediaFile = MediaFile(path: string, audiotracks: seq<Track>, subtracks: seq<Track>, answers: Answers)

  /** A language attribute Python treats as true: present and non-empty. */
  predicate LanguageKnown(language: Option<string>)
  {
    language.Some? && language.value != ""
  }

  // ---------------------------------------------------------------------
  // choose_subtrack and choose_atrack: the typed answer to a choice
  // ---------------------------------------------------------------------

  /** `inp.isdecimal()` and `0 <= int(inp) < count`: a list position that was typed. */
  function TypedIndex(inp: string, count: nat): (r: Option<int>)
    ensures r.Some? <==> IsDecimal(inp) && DecimalValue(inp) < count
    ensures r.Some? ==> r.value == DecimalValue(inp) && 0 <= r.value < count
  {
    if IsDecimal(inp) && DecimalValue(inp) < count then Some(DecimalValue(inp)) else None
  }

  /**
   * choose_subtrack: an empty answer accepts the preferred track when the
   * default audio track's language is known; otherwise a typed position
   * within the subtitle list is taken, and anything else cancels.
   */
  function ChooseSubtrack(inp: string, audioLanguageKnown: bool, preferredId: int, subCount: nat): (r: Option<int>)
    ensures audioLanguageKnown && inp == "" ==> r == Some(preferredId)
    ensures !audioLanguageKnown && inp == "" ==> r == None
    ensures inp != "" ==> r == TypedIndex(inp, subCount)
  {
    if audioLanguageKnown && inp == "" then Some(preferredId)
    else TypedIndex(inp, subCount)
  }

  /** choose_atrack: a typed position within the audio list, or nothing. */
  function ChooseAtrack(inp: string, audioCount: nat): (r: Option<int>)
    ensures r.Some? ==> 0 <= r.value < audioCount
    ensures r.Some? <==> IsDecimal(inp) && DecimalValue(inp) < audioCount
    ensures r.Some? ==> r.value == DecimalValue(inp)
  {
    TypedIndex(inp, audioCount)
  }

  /** Typing the digits of a position in the list chooses exactly that position. */
  lemma TypedPositionIsChosen(n: nat, audioLanguageKnown: bool, preferredId: int, count: nat)
    requires n < count
    ensures ChooseSubtrack(DecimalString(n), audioLanguageKnown, preferredId, count) == Some(n)
    ensures ChooseAtrack(DecimalString(n), count) == Some(n)
  {
    DecimalRoundTrip(n);
  }

  /** Typing a position past the end of the list cancels. */
  lemma TypedPositionPastEndCancels(n: nat, audioLanguageKnown: bool, preferredId: int, count: nat)
    requires n >= count
    ensures ChooseSubtrack(DecimalString(n), audioLanguageKnown, preferredId, count) == None
    ensures ChooseAtrack(DecimalString(n), count) == None
  {
    DecimalRoundTrip(n);
  }

  // ---------------------------------------------------------------------
  // update_subtitles: the external subtitle
  // ---------------------------------------------------------------------

  /**
   * The placeholder for a sidecar .srt. Its stream identifier is the
   * number of AUDIO tracks, as the code computes it (the comment above it
   * speaks of the subtitle list instead).
   */
  function ExternalSubtrack(audioCount: int, alpha2: string): (t: Track)
    ensures t.language == Some(alpha2) && !t.isForced && !t.isDefault
    ensures t.streamIdentifier == audioCount
  {
    Track(audioCount, Some(alpha2), Some("EXTERNAL"), false, false, Some("srt"))
  }

  /** With a sidecar, the placeholder is appended and becomes the preferred track. */
  method InjectExternalSubtrack(film: FileManager, alpha2: string)
    modifies film
    ensures film.externalSubtrack ==>
              && film.subtracks == old(film.subtracks) + [ExternalSubtrack(|film.audiotracks|, alpha2)]
              && film.preferredSubtrack == Some(ExternalSubtrack(|film.audiotracks|, alpha2))
    ensures !film.externalSubtrack ==>
              film.subtracks == old(film.subtracks) && film.preferredSubtrack == old(film.preferredSubtrack)
  {
    if film.externalSubtrack {
      var extSubtrack := ExternalSubtrack(|film.audiotracks|, alpha2);
      film.subtracks := film.subtracks + [extSubtrack];
      film.preferredSubtrack := Some(extSubtrack);
    }
  }

  // ---------------------------------------------------------------------
  // update_subtitles and update_audio
  // ---------------------------------------------------------------------

  /** The answer fed to choose_subtrack: in quiet mode nothing is asked and the answer is empty. */
  function SubtitleInput(args: Args, answers: Answers): (inp: string)
    ensures args.quiet ==> inp == ""
    ensures !args.quiet ==> inp == answers.subtitleTrack
  {
    if args.quiet then "" else answers.subtitleTrack
  }

  /** In quiet mode the proposal is taken when the audio language is known, and nothing is chosen otherwise. */
  lemma QuietTakesProposal(args: Args, answers: Answers, audioLanguageKnown: bool, preferredId: int, subCount: nat)
    requires args.quiet
    ensures ChooseSubtrack(SubtitleInput(args, answers), audioLanguageKnown, preferredId, subCount)
            == if audioLanguageKnown then Some(preferredId) else None
  {
  }

  /**
   * The subtitle stream update_subtitles writes, from the track list and
   * the proposal after the sidecar injection, the default audio track and
   * the subtitle stream stored before; None when it writes nothing.
   */
  function SubtitleWrite(args: Args, subtracks: seq<Track>, preferred: Option<Track>, defaultAudio: Track,
                         answers: Answers, prior: int): (r: Option<int>)
    ensures r.Some? ==> subtracks != [] && defaultAudio.language != Some(args.alpha2) && preferred.Some?
    ensures r.Some? ==> r == ChooseSubtrack(SubtitleInput(args, answers), LanguageKnown(defaultAudio.language),
                                            preferred.value.streamIdentifier, |subtracks|)
    ensures r.Some? && (args.quiet || answers.subtitleOverwrite != "y") ==> !Conflicts(prior, r.value)
    ensures subtracks != [] && defaultAudio.language != Some(args.alpha2) && preferred.Some? ==>
              var choice := ChooseSubtrack(SubtitleInput(args, answers), LanguageKnown(defaultAudio.language),
                                           preferred.value.streamIdentifier, |subtracks|);
              (choice.Some? && (!Conflicts(prior, choice.value) || (!args.quiet && answers.subtitleOverwrite == "y")))
                ==> r == choice
  {
    if subtracks != [] && defaultAudio.language != Some(args.alpha2) && preferred.Some? then
      var choice := ChooseSubtrack(SubtitleInput(args, answers), LanguageKnown(defaultAudio.language),
                                   preferred.value.streamIdentifier, |subtracks|);
      if choice.Some? && (!Conflicts(prior, choice.value) || (!args.quiet && answers.subtitleOverwrite == "y"))
      then choice else None
    else None
  }

  /**
   * The audio stream update_audio writes, from the extra audio tracks, the
   * number of audio tracks and the audio stream stored before; None when
   * it writes nothing.
   */
  function AudioWrite(extraAudiotracks: seq<Track>, audioCount: nat, answers: Answers, prior: int): (r: Option<int>)
    ensures r.Some? ==> extraAudiotracks != [] && r == ChooseAtrack(answers.audioTrack, audioCount)
    ensures r.Some? && answers.audioOverwrite != "y" ==> !Conflicts(prior, r.value)
    ensures var choice := ChooseAtrack(answers.audioTrack, audioCount);
            (extraAudiotracks != [] && choice.Some? && (!Conflicts(prior, choice.value) || answers.audioOverwrite == "y"))
              ==> r == choice
  {
    var choice := ChooseAtrack(answers.audioTrack, audioCount);
    if extraAudiotracks != [] && choice.Some? && (!Conflicts(prior, choice.value) || answers.audioOverwrite == "y")
    then choice else None
  }

  /**
   * Accepting the proposed sidecar (an empty answer, a known audio
   * language other than the user's, no other stream chosen before) writes
   * the number of audio tracks as subtitle stream.
   */
  lemma AcceptedSidecarIsAudioCount(args: Args, subtracks: seq<Track>, defaultAudio: Track, answers: Answers,
                                    prior: int, audioCount: nat)
    requires SubtitleInput(args, answers) == ""
    requires LanguageKnown(defaultAudio.language) && defaultAudio.language != Some(args.alpha2)
    requires !Conflicts(prior, audioCount)
    ensures var ext := ExternalSubtrack(audioCount, args.alpha2);
            SubtitleWrite(args, subtracks + [ext], Some(ext), defaultAudio, answers, prior) == Some(audioCount)
  {
  }

  /**
   * update_subtitles: the sidecar injection, then the write SubtitleWrite
   * describes, through set_subtrack (forced only after a confirmed
   * overwrite).
   */
  method UpdateSubtitles(args: Args, db: KodiManager, film: FileManager, fid: int, answers: Answers)
    returns (written: Option<int>)
    modifies db, film
    ensures film.externalSubtrack ==>
              && film.subtracks == old(film.subtracks) + [ExternalSubtrack(|film.audiotracks|, args.alpha2)]
              && film.preferredSubtrack == Some(ExternalSubtrack(|film.audiotracks|, args.alpha2))
    ensures !film.externalSubtrack ==>
              film.subtracks == old(film.subtracks) && film.preferredSubtrack == old(film.preferredSubtrack)
    ensures written == SubtitleWrite(args, film.subtracks, film.preferredSubtrack, film.defaultAudiotrack, answers,
                                     old(SubtitleStreamOf(db.settings, fid)))
    ensures db.settings == if written.Some? then WithSubtitle(old(db.settings), fid, written.value) else old(db.settings)
  {
    InjectExternalSubtrack(film, args.alpha2);
    written := None;
    if film.subtracks != [] && film.defaultAudiotrack.language != Some(args.alpha2) {
      if film.preferredSubtrack.Some? {
        var subtrackChoice := ChooseSubtrack(SubtitleInput(args, answers), LanguageKnown(film.defaultAudiotrack.language),
                                             film.preferredSubtrack.value.streamIdentifier, |film.subtracks|);
        if subtrackChoice.Some? {
          var result := db.SetSubtrack(fid, subtrackChoice.value, false);
          if result {
            written := subtrackChoice;
          } else if !args.quiet && answers.subtitleOverwrite == "y" {
            result := db.SetSubtrack(fid, subtrackChoice.value, true);
            written := subtrackChoice;
          }
        }
      }
    }
  }

  /** update_audio: the write AudioWrite describes, through set_atrack (forced only after a confirmed overwrite). */
  method UpdateAudio(db: KodiManager, film: FileManager, fid: int, answers: Answers)
    returns (written: Option<int>)
    modifies db
    ensures written == AudioWrite(film.extraAudiotracks, |film.audiotracks|, answers, old(AudioStreamOf(db.settings, fid)))
    ensures db.settings == if written.Some? then WithAudio(old(db.settings), fid, written.value) else old(db.settings)
  {
    written := None;
    if film.extraAudiotracks != [] {
      var atrackChoice := ChooseAtrack(answers.audioTrack, |film.audiotracks|);
      if atrackChoice.Some? {
        var result := db.SetAtrack(fid, atrackChoice.value, false);
        if result {
          written := atrackChoice;
        } else if answers.audioOverwrite == "y" {
          result := db.SetAtrack(fid, atrackChoice.value, true);
          written := atrackChoice;
        }
      }
    }
  }

  // ---------------------------------------------------------------------
  // _run
  // ---------------------------------------------------------------------

  /** The subtitle columns of `fid` read the same after as before. */
  ghost predicate SubtitleUntouched(before: Settings, after: Settings, fid: int)
  {
    if fid in before
    then fid in after && after[fid].subtitleStream == before[fid].subtitleStream
         && after[fid].subtitlesOn == before[fid].subtitlesOn
    else SubtitleStreamOf(after, fid) == -1
  }

  /** The row of `fid` is exactly as before (or still missing). */
  ghost predicate RowUntouched(before: Settings, after: Settings, fid: int)
  {
    (fid in after <==> fid in before) && (fid in before ==> after[fid] == before[fid])
  }

  /** The file's audio stream may change only in audio mode without updateonly. */
  ghost predicate AudioGuarded(args: Args, before: Settings, after: Settings, fid: int)
  {
    args.updateonly || !args.audio ==> AudioStreamOf(after, fid) == AudioStreamOf(before, fid)
  }

  /** In quiet mode a subtitle stream chosen before is never replaced. */
  ghost predicate QuietGuarded(args: Args, before: Settings, after: Settings, fid: int)
  {
    args.quiet && SubtitleStreamOf(before, fid) != -1 ==> SubtitleStreamOf(after, fid) == SubtitleStreamOf(before, fid)
  }

  /** Under updateonly, subtitles configured before are left as they are. */
  ghost predicate UpdateonlyGuarded(args: Args, before: Settings, after: Settings, fid: int)
  {
    args.updateonly && HasSubtitleSettings(before, fid) ==> SubtitleUntouched(before, after, fid)
  }

  /**
   * In fastmode, subtitles are left alone for a file whose default audio is
   * already in the user's language (stated where no audio change can move
   * the default audio language in between).
   */
  ghost predicate FastmodeGuarded(args: Args, streamdetails: map<int, seq<string>>, before: Settings, after: Settings, fid: int)
  {
    (args.fastmode && (args.updateonly || !args.audio) && DefaultAudioLang(before, streamdetails, fid) == Known(args.alpha3))
      ==> SubtitleUntouched(before, after, fid)
  }

  /** Everything _run promises about the row of one file id. */
  ghost predicate Guarded(args: Args, streamdetails: map<int, seq<string>>, before: Settings, after: Settings, fid: int)
  {
    && AudioGuarded(args, before, after, fid)
    && QuietGuarded(args, before, after, fid)
    && UpdateonlyGuarded(args, before, after, fid)
    && FastmodeGuarded(args, streamdetails, before, after, fid)
  }

  /** What one iteration of the loop in _run does to the table: it touches the row of `fid` only. */
  ghost predicate FileStep(args: Args, streamdetails: map<int, seq<string>>, before: Settings, after: Settings, fid: int)
  {
    && Guarded(args, streamdetails, before, after, fid)
    && forall f :: f != fid ==> RowUntouched(before, after, f)
  }

  lemma {:induction false} SubtitleUntouchedTransitive(s0: Settings, s1: Settings, s2: Settings, fid: int)
    requires SubtitleUntouched(s0, s1, fid) && SubtitleUntouched(s1, s2, fid)
    ensures SubtitleUntouched(s0, s2, fid)
  {
    if fid !in s0 && fid in s1 {
      assert s1[fid].subtitleStream == -1;
    }
  }

  lemma RowUntouchedTransitive(s0: Settings, s1: Settings, s2: Settings, fid: int)
    requires RowUntouched(s0, s1, fid) && RowUntouched(s1, s2, fid)
    ensures RowUntouched(s0, s2, fid)
  {
  }

  /** The guarantees about one file id survive a further step that keeps them. */
  lemma {:induction false} GuardedTransitive(args: Args, sd: map<int, seq<string>>, s0: Settings, s1: Settings, s2: Settings, fid: int)
    requires Guarded(args, sd, s0, s1, fid) && Guarded(args, sd, s1, s2, fid)
    ensures Guarded(args, sd, s0, s2, fid)
  {
    if args.updateonly && HasSubtitleSettings(s0, fid) {
      assert HasSubtitleSettings(s1, fid);
      SubtitleUntouchedTransitive(s0, s1, s2, fid);
    }
    if args.fastmode && (args.updateonly || !args.audio) && DefaultAudioLang(s0, sd, fid) == Known(args.alpha3) {
      DefaultAudioLangOnlyReadsAudioStream(s0, s1, sd, fid);
      SubtitleUntouchedTransitive(s0, s1, s2, fid);
    }
  }

  /** A row nobody touched keeps every guarantee. */
  lemma RowUntouchedIsGuarded(args: Args, sd: map<int, seq<string>>, s0: Settings, s1: Settings, fid: int)
    requires RowUntouched(s0, s1, fid)
    ensures Guarded(args, sd, s0, s1, fid)
  {
    DefaultAudioLangOnlyReadsAudioStream(s0, s1, sd, fid);
  }

  /** A subtitle write by update_subtitles, under the gates _run applied before calling it. */
  lemma {:induction false} SubtitleWriteStep(args: Args, sd: map<int, seq<string>>, s: Settings, fid: int, k: int)
    requires args.quiet ==> !Conflicts(SubtitleStreamOf(s, fid), k)
    requires !(args.updateonly && HasSubtitleSettings(s, fid))
    requires args.fastmode ==> DefaultAudioLang(s, sd, fid) != Known(args.alpha3)
    ensures FileStep(args, sd, s, WithSubtitle(s, fid, k), fid)
  {
    var r := WithSubtitle(s, fid, k);
    forall f | f != fid
      ensures RowUntouched(s, r, f)
    {
    }
  }

  /** An audio write by update_audio, which _run calls only in audio mode without updateonly. */
  lemma {:induction false} AudioWriteStep(args: Args, sd: map<int, seq<string>>, s: Settings, fid: int, k: int)
    requires args.audio && !args.updateonly
    ensures FileStep(args, sd, s, WithAudio(s, fid, k), fid)
  {
    var r := WithAudio(s, fid, k);
    forall f | f != fid
      ensures RowUntouched(s, r, f)
    {
    }
    assert SubtitleStreamOf(r, fid) == SubtitleStreamOf(s, fid);
    if fid in s {
      assert r[fid].subtitlesOn == s[fid].subtitlesOn;
    }
  }

  /** Two steps on the same file id compose into one. */
  lemma {:induction false} FileStepTransitive(args: Args, sd: map<int, seq<string>>, s0: Settings, s1: Settings, s2: Settings, fid: int)
    requires FileStep(args, sd, s0, s1, fid) && FileStep(args, sd, s1, s2, fid)
    ensures FileStep(args, sd, s0, s2, fid)
  {
    GuardedTransitive(args, sd, s0, s1, s2, fid);
    forall f | f != fid
      ensures RowUntouched(s0, s2, f)
    {
      assert RowUntouched(s0, s1, f) && RowUntouched(s1, s2, f);
    }
  }

  // ---------------------------------------------------------------------
  // One file of _run, as a function of the table before it
  // ---------------------------------------------------------------------

  /** Under --fast, get_default_audio_lang raises before anything is written for the file. */
  function FastmodeRaises(args: Args, settings: Settings, streamdetails: map<int, seq<string>>, fid: int): (r: bool)
    ensures r <==> (args.fastmode && |AudioLanguages(streamdetails, fid)| > 0 &&
                    AudioStreamOf(settings, fid) + |AudioLanguages(streamdetails, fid)| < 0)
    ensures fid !in settings ==> !r
  {
    args.fastmode && DefaultAudioLang(settings, streamdetails, fid).IndexError?
  }

  /** The subtitle gate of _run, read before anything is written for the file. */
  function SubtitlesAllowed(args: Args, settings: Settings, streamdetails: map<int, seq<string>>, fid: int): (r: bool)
    ensures !args.fastmode && !args.updateonly ==> r
    ensures args.updateonly && HasSubtitleSettings(settings, fid) ==> !r
    ensures args.fastmode && DefaultAudioLang(settings, streamdetails, fid) == Known(args.alpha3) ==> !r
    ensures fid !in settings ==>
              (r <==> !(args.fastmode && AudioLanguages(streamdetails, fid) != [] &&
                        AudioLanguages(streamdetails, fid)[0] == args.alpha3))
  {
    && !(args.fastmode && DefaultAudioLang(settings, streamdetails, fid) == Known(args.alpha3))
    && !(args.updateonly && HasSubtitleSettings(settings, fid))
  }

  /**
   * The audio gate of _run. `self.db.has_audio_settings` is tested without
   * being called, and a bound method is always true, so updateonly alone
   * closes this gate.
   */
  predicate AudioAllowed(args: Args): (r: bool)
    ensures args.updateonly ==> !r
    ensures !args.audio ==> !r
    ensures args.audio && !args.updateonly ==> r
  {
    args.audio && !args.updateonly
  }

  /** The table after processing, and whether Python raised on the way. */
  datatype Outcome = Outcome(settings: Settings, crashed: bool)

  /** The subtitle stream update_subtitles writes for a freshly analysed file. */
  function SubtitleChoiceFor(args: Args, onDisk: set<string>, file: MediaFile, settings: Settings, fid: int): (r: Option<int>)
    requires |file.audiotracks| > 0
    ensures DefaultAudiotrack(file.audiotracks).language == Some(args.alpha2) ==> r.None?
    ensures file.subtracks == [] && !HasExternalSubtrack(file.path, onDisk) ==> r.None?
    ensures r.Some? && (args.quiet || file.answers.subtitleOverwrite != "y") ==>
              !Conflicts(SubtitleStreamOf(settings, fid), r.value)
    ensures (HasExternalSubtrack(file.path, onDisk) && SubtitleInput(args, file.answers) == "" &&
             LanguageKnown(DefaultAudiotrack(file.audiotracks).language) &&
             DefaultAudiotrack(file.audiotracks).language != Some(args.alpha2) &&
             !Conflicts(SubtitleStreamOf(settings, fid), |file.audiotracks|))
            ==> r == Some(|file.audiotracks|)
  {
    var ext := ExternalSubtrack(|file.audiotracks|, args.alpha2);
    var sidecar := HasExternalSubtrack(file.path, onDisk);
    SubtitleWrite(args,
                  file.subtracks + (if sidecar then [ext] else []),
                  if sidecar then Some(ext) else PreferredSubtrack(file.subtracks, args.alpha2),
                  DefaultAudiotrack(file.audiotracks), file.answers, SubtitleStreamOf(settings, fid))
  }

  /** The audio stream update_audio writes for an analysed file. */
  function AudioChoiceFor(file: MediaFile, settings: Settings, fid: int): (r: Option<int>)
    requires |file.audiotracks| > 0
    ensures r.Some? ==> 0 <= r.value < |file.audiotracks|
    ensures r.Some? && file.answers.audioOverwrite != "y" ==> !Conflicts(AudioStreamOf(settings, fid), r.value)
    ensures Extras(file.audiotracks, DefaultAudiotrack(file.audiotracks)) == [] ==> r.None?
  {
    AudioWrite(Extras(file.audiotracks, DefaultAudiotrack(file.audiotracks)), |file.audiotracks|, file.answers,
               AudioStreamOf(settings, fid))
  }

  /** set_subtrack on `fid` leaves every other row as it was. */
  lemma WithSubtitleFrame(settings: Settings, fid: int, k: int)
    ensures forall f :: f != fid ==> RowUntouched(settings, WithSubtitle(settings, fid, k), f)
  {
  }

  /** The table after update_subtitles, when its gate is open. */
  function SubtitleStep(args: Args, streamdetails: map<int, seq<string>>, onDisk: set<string>, file: MediaFile,
                        settings: Settings, fid: int): (r: Settings)
    requires SubtitlesAllowed(args, settings, streamdetails, fid) ==> |file.audiotracks| > 0
    ensures !SubtitlesAllowed(args, settings, streamdetails, fid) ==> r == settings
    ensures SubtitlesAllowed(args, settings, streamdetails, fid) && SubtitleChoiceFor(args, onDisk, file, settings, fid).Some? ==>
              SubtitleStreamOf(r, fid) == SubtitleChoiceFor(args, onDisk, file, settings, fid).value
              && fid in r && r[fid].subtitlesOn == 1
    ensures SubtitlesAllowed(args, settings, streamdetails, fid) && SubtitleChoiceFor(args, onDisk, file, settings, fid).None? ==>
              r == settings
    ensures forall f :: AudioStreamOf(r, f) == AudioStreamOf(settings, f)
    ensures forall f :: f != fid ==> RowUntouched(settings, r, f)
  {
    if SubtitlesAllowed(args, settings, streamdetails, fid) then
      var write := SubtitleChoiceFor(args, onDisk, file, settings, fid);
      if write.Some? then
        WithSubtitleFrame(settings, fid, write.value);
        WithSubtitle(settings, fid, write.value)
      else settings
    else settings
  }

  /** The table after update_audio, when its gate is open. */
  function AudioStep(args: Args, file: MediaFile, settings: Settings, fid: int): (r: Settings)
    requires AudioAllowed(args) ==> |file.audiotracks| > 0
    ensures !AudioAllowed(args) ==> r == settings
    ensures AudioAllowed(args) && AudioChoiceFor(file, settings, fid).Some? ==>
              AudioStreamOf(r, fid) == AudioChoiceFor(file, settings, fid).value
    ensures AudioAllowed(args) && AudioChoiceFor(file, settings, fid).None? ==> r == settings
    ensures forall f :: SubtitleStreamOf(r, f) == SubtitleStreamOf(settings, f)
    ensures forall f :: f in settings ==> f in r && r[f].subtitlesOn == settings[f].subtitlesOn
    ensures forall f :: f != fid ==> RowUntouched(settings, r, f)
  {
    if AudioAllowed(args) then
      var write := AudioChoiceFor(file, settings, fid);
      if write.Some? then WithAudio(settings, fid, write.value) else settings
    else settings
  }

  /**
   * One iteration of the loop in _run. A path Kodi does not know (no id, or
   * id 0) is skipped. Under --fast an IndexError from
   * get_default_audio_lang, or an open gate for a file without audio
   * tracks (FileManager takes `audiotracks[0]`), raises before anything is
   * written. Otherwise the subtitle update runs when its gate is open, and
   * then the audio update when its gate is open.
   */
  function FileOutcome(args: Args, movies: seq<MovieRow>, streamdetails: map<int, seq<string>>, onDisk: set<string>,
                       file: MediaFile, settings: Settings): (r: Outcome)
    ensures var fid := GetFid(movies, file.path);
            fid.None? || fid.value == 0 ==> r == Outcome(settings, false)
    ensures r.crashed ==> r.settings == settings
  {
    var fid := GetFid(movies, file.path);
    if fid.None? || fid.value == 0 then Outcome(settings, false)
    else
      var id := fid.value;
      var subtitles := SubtitlesAllowed(args, settings, streamdetails, id);
      if FastmodeRaises(args, settings, streamdetails, id) then Outcome(settings, true)
      else if (subtitles || AudioAllowed(args)) && |file.audiotracks| == 0 then Outcome(settings, true)
      else
        Outcome(AudioStep(args, file, SubtitleStep(args, streamdetails, onDisk, file, settings, id), id), false)
  }

  /**
   * Python raises on a known file exactly when --fast meets an audio
   * stream index out of range, or an open gate meets a file without audio
   * tracks.
   */
  lemma FileOutcomeCrashes(args: Args, movies: seq<MovieRow>, sd: map<int, seq<string>>, onDisk: set<string>,
                           file: MediaFile, s: Settings)
    ensures var fid := GetFid(movies, file.path);
            FileOutcome(args, movies, sd, onDisk, file, s).crashed <==>
              (&& fid.Some? && fid.value != 0
               && (|| FastmodeRaises(args, s, sd, fid.value)
                   || ((SubtitlesAllowed(args, s, sd, fid.value) || AudioAllowed(args)) && |file.audiotracks| == 0)))
  {
  }

  /**
   * Open gates write: a known file that does not raise gets the subtitle
   * stream update_subtitles chooses when the subtitle gate is open (with
   * subtitles on), and the audio stream update_audio chooses when the
   * audio gate is open.
   */
  lemma {:induction false} OpenGatesWrite(args: Args, movies: seq<MovieRow>, sd: map<int, seq<string>>, onDisk: set<string>,
                                          file: MediaFile, s: Settings)
    requires GetFid(movies, file.path).Some? && GetFid(movies, file.path).value != 0
    requires !FastmodeRaises(args, s, sd, GetFid(movies, file.path).value) && |file.audiotracks| > 0
    ensures var id := GetFid(movies, file.path).value;
            var r := FileOutcome(args, movies, sd, onDisk, file, s);
            && !r.crashed
            && (SubtitlesAllowed(args, s, sd, id) && SubtitleChoiceFor(args, onDisk, file, s, id).Some? ==>
                  SubtitleStreamOf(r.settings, id) == SubtitleChoiceFor(args, onDisk, file, s, id).value
                  && r.settings[id].subtitlesOn == 1)
            && (AudioAllowed(args) && AudioChoiceFor(file, s, id).Some? ==>
                  AudioStreamOf(r.settings, id) == AudioChoiceFor(file, s, id).value)
            && (&& (!SubtitlesAllowed(args, s, sd, id) || SubtitleChoiceFor(args, onDisk, file, s, id).None?)
                && (!AudioAllowed(args) || AudioChoiceFor(file, s, id).None?)
                ==> r.settings == s)
  {
    var id := GetFid(movies, file.path).value;
    var afterSubtitles := SubtitleStep(args, sd, onDisk, file, s, id);
    assert AudioChoiceFor(file, afterSubtitles, id) == AudioChoiceFor(file, s, id);
  }

  /** The subtitle half of one file keeps the guarantees of FileStep for its id. */
  lemma SubtitleStepIsFileStep(args: Args, sd: map<int, seq<string>>, onDisk: set<string>, file: MediaFile,
                               s: Settings, id: int)
    requires SubtitlesAllowed(args, s, sd, id) ==> |file.audiotracks| > 0
    ensures FileStep(args, sd, s, SubtitleStep(args, sd, onDisk, file, s, id), id)
  {
    RowUntouchedIsGuarded(args, sd, s, s, id);
    if SubtitlesAllowed(args, s, sd, id) {
      var write := SubtitleChoiceFor(args, onDisk, file, s, id);
      if write.Some? {
        SubtitleWriteStep(args, sd, s, id, write.value);
      }
    }
  }

  /** The audio half of one file keeps the guarantees of FileStep for its id. */
  lemma AudioStepIsFileStep(args: Args, sd: map<int, seq<string>>, file: MediaFile, s: Settings, id: int)
    requires AudioAllowed(args) ==> |file.audiotracks| > 0
    ensures FileStep(args, sd, s, AudioStep(args, file, s, id), id)
  {
    RowUntouchedIsGuarded(args, sd, s, s, id);
    if AudioAllowed(args) {
      var write := AudioChoiceFor(file, s, id);
      if write.Some? {
        AudioWriteStep(args, sd, s, id, write.value);
      }
    }
  }

  /** Closed gates keep: what FileOutcome does to the table respecting each flag, and only to the file's row. */
  lemma {:induction false} FileOutcomeStep(args: Args, movies: seq<MovieRow>, sd: map<int, seq<string>>, onDisk: set<string>,
                                           file: MediaFile, s: Settings)
    ensures var fid := GetFid(movies, file.path);
            var r := FileOutcome(args, movies, sd, onDisk, file, s);
            && (fid.None? ==> r.settings == s)
            && (fid.Some? ==> FileStep(args, sd, s, r.settings, fid.value))
  {
    var fid := GetFid(movies, file.path);
    var r := FileOutcome(args, movies, sd, onDisk, file, s);
    if fid.Some? {
      var id := fid.value;
      RowUntouchedIsGuarded(args, sd, s, s, id);
      if && id != 0 && !FastmodeRaises(args, s, sd, id)
         && !((SubtitlesAllowed(args, s, sd, id) || AudioAllowed(args)) && |file.audiotracks| == 0)
      {
        var afterSubtitles := SubtitleStep(args, sd, onDisk, file, s, id);
        SubtitleStepIsFileStep(args, sd, onDisk, file, s, id);
        AudioStepIsFileStep(args, sd, file, afterSubtitles, id);
        FileStepTransitive(args, sd, s, afterSubtitles, r.settings, id);
      }
    }
  }

  /**
   * Within one file, --fast keeps the subtitles of a file whose default
   * audio is already in the user's language, with or without --audio: the
   * gate is read before any write, and the audio write keeps the subtitle
   * columns.
   */
  lemma {:induction false} FastmodeKeepsSubtitles(args: Args, movies: seq<MovieRow>, sd: map<int, seq<string>>,
                                                  onDisk: set<string>, file: MediaFile, s: Settings)
    requires GetFid(movies, file.path).Some?
    requires args.fastmode && DefaultAudioLang(s, sd, GetFid(movies, file.path).value) == Known(args.alpha3)
    ensures SubtitleUntouched(s, FileOutcome(args, movies, sd, onDisk, file, s).settings, GetFid(movies, file.path).value)
  {
    var id := GetFid(movies, file.path).value;
    var r := FileOutcome(args, movies, sd, onDisk, file, s);
    if id != 0 && !r.crashed {
      assert !SubtitlesAllowed(args, s, sd, id);
      assert SubtitleStep(args, sd, onDisk, file, s, id) == s;
      assert r.settings == AudioStep(args, file, s, id);
      AudioStepKeepsSubtitles(args, file, s, id);
    }
  }

  /** The audio step leaves the file's subtitle columns as they are. */
  lemma {:induction false} AudioStepKeepsSubtitles(args: Args, file: MediaFile, s: Settings, fid: int)
    requires AudioAllowed(args) ==> |file.audiotracks| > 0
    ensures SubtitleUntouched(s, AudioStep(args, file, s, fid), fid)
  {
    var write := if AudioAllowed(args) then AudioChoiceFor(file, s, fid) else None;
    if write.Some? {
      var r := WithAudio(s, fid, write.value);
      assert SubtitleStreamOf(r, fid) == SubtitleStreamOf(s, fid);
      if fid in s {
        assert r[fid].subtitlesOn == s[fid].subtitlesOn;
      }
    }
  }

  /**
   * The second half of one iteration of _run: update_subtitles when the
   * subtitle gate is open, then the audio half. The FileManager is built
   * on first use, which raises on a file without audio tracks.
   */
  method PerformUpdates(args: Args, db: KodiManager, file: MediaFile, onDisk: set<string>, id: int,
                        canUpdateSubtitles: bool)
    returns (crashed: bool)
    requires canUpdateSubtitles == SubtitlesAllowed(args, db.settings, db.streamdetails, id)
    modifies db
    ensures crashed <==> (canUpdateSubtitles || AudioAllowed(args)) && |file.audiotracks| == 0
    ensures crashed ==> db.settings == old(db.settings)
    ensures !crashed ==>
              db.settings == AudioStep(args, file, SubtitleStep(args, db.streamdetails, onDisk, file, old(db.settings), id), id)
  {
    crashed := false;
    var film: FileManager? := null;
    if canUpdateSubtitles {
      if |file.audiotracks| == 0 {
        crashed := true;
        return;
      }
      film := new FileManager(file.path, args.alpha2, file.audiotracks, file.subtracks, onDisk);
      var written := UpdateSubtitles(args, db, film, id, file.answers);
      assert written == SubtitleChoiceFor(args, onDisk, file, old(db.settings), id);
    }
    crashed := UpdateAudioGated(args, db, film, file, onDisk, id);
  }

  /**
   * The audio half of one iteration of _run: update_audio when the audio
   * gate is open, on the FileManager the subtitle half built, or on a new
   * one (which raises on a file without audio tracks).
   */
  method UpdateAudioGated(args: Args, db: KodiManager, film: FileManager?, file: MediaFile, onDisk: set<string>, id: int)
    returns (crashed: bool)
    requires film != null ==> && film.audiotracks == file.audiotracks && |file.audiotracks| > 0
                              && film.extraAudiotracks == Extras(file.audiotracks, DefaultAudiotrack(file.audiotracks))
    modifies db
    ensures crashed <==> AudioAllowed(args) && |file.audiotracks| == 0
    ensures crashed ==> db.settings == old(db.settings)
    ensures !crashed ==> db.settings == AudioStep(args, file, old(db.settings), id)
  {
    crashed := false;
    // `self.db.has_audio_settings` is tested without being called: the
    // bound method is always true, so updateonly alone turns audio off.
    var canUpdateAudio := args.audio;
    if args.updateonly {
      canUpdateAudio := false;
    }
    if canUpdateAudio {
      var audioFilm := film;
      if audioFilm == null {
        if |file.audiotracks| == 0 {
          crashed := true;
          return;
        }
        audioFilm := new FileManager(file.path, args.alpha2, file.audiotracks, file.subtracks, onDisk);
      }
      var written := UpdateAudio(db, audioFilm, id, file.answers);
      assert written == AudioChoiceFor(file, old(db.settings), id);
    }
  }

  /**
   * One iteration of the loop in _run, proved to leave the table
   * FileOutcome describes; `fid` is the id getfid resolves the path to and
   * `crashed` is true when Python would raise.
   */
  method UpdateFile(args: Args, db: KodiManager, file: MediaFile, onDisk: set<string>)
    returns (fid: Option<int>, crashed: bool)
    modifies db
    ensures fid == GetFid(db.movies, file.path)
    ensures crashed == FileOutcome(args, db.movies, db.streamdetails, onDisk, file, old(db.settings)).crashed
    ensures crashed ==> db.settings == old(db.settings)
    ensures !crashed ==> db.settings == FileOutcome(args, db.movies, db.streamdetails, onDisk, file, old(db.settings)).settings
  {
    crashed := false;
    fid := GetFid(db.movies, file.path);
    if fid.None? || fid.value == 0 {
      return;
    }
    var id := fid.value;

    var canUpdateSubtitles := true;
    if args.fastmode {
      var lang := DefaultAudioLang(db.settings, db.streamdetails, id);
      if lang.IndexError? {
        crashed := true;
        return;
      }
      if lang == Known(args.alpha3) {
        canUpdateSubtitles := false;
      }
    }
    if args.updateonly && HasSubtitleSettings(db.settings, id) {
      canUpdateSubtitles := false;
    }
    crashed := PerformUpdates(args, db, file, onDisk, id, canUpdateSubtitles);
  }

  // ---------------------------------------------------------------------
  // _run over a batch
  // ---------------------------------------------------------------------

  /** The first `n` files handed to `step` in order, stopping at the first outcome that raises. */
  function Fold(step: (MediaFile, Settings) -> Outcome, files: seq<MediaFile>, n: nat, settings: Settings): (r: Outcome)
    requires n <= |files|
    ensures n == 0 ==> r == Outcome(settings, false)
    decreases n
  {
    if n == 0 then Outcome(settings, false)
    else
      var before := Fold(step, files, n - 1, settings);
      if before.crashed then before else step(files[n - 1], before.settings)
  }

  /** The first `n` files of a batch through the loop of _run. */
  function RunOutcome(args: Args, movies: seq<MovieRow>, streamdetails: map<int, seq<string>>, onDisk: set<string>,
                      files: seq<MediaFile>, n: nat, settings: Settings): (r: Outcome)
    requires n <= |files|
    ensures n == 0 ==> r == Outcome(settings, false)
    ensures !r.crashed ==>
              forall i :: 0 <= i < n ==>
                !FileOutcome(args, movies, streamdetails, onDisk, files[i],
                             RunOutcome(args, movies, streamdetails, onDisk, files, i, settings).settings).crashed
  {
    var step := (file, s) => FileOutcome(args, movies, streamdetails, onDisk, file, s);
    FoldNoCrashBefore(step, files, n, settings);
    Fold(step, files, n, settings)
  }

  /**
   * A fold that does not raise raised on none of its files: each file was
   * handed the table the files before it left, and did not raise on it.
   */
  lemma {:induction false} FoldNoCrashBefore(step: (MediaFile, Settings) -> Outcome, files: seq<MediaFile>, n: nat,
                                             s: Settings)
    requires n <= |files|
    ensures !Fold(step, files, n, s).crashed ==>
              forall i :: 0 <= i < n ==> !Fold(step, files, i, s).crashed
                                         && !step(files[i], Fold(step, files, i, s).settings).crashed
  {
    if !Fold(step, files, n, s).crashed {
      forall i | 0 <= i < n
        ensures !Fold(step, files, i, s).crashed && !step(files[i], Fold(step, files, i, s).settings).crashed
      {
        if Fold(step, files, i + 1, s).crashed {
          CrashSticks(step, files, i + 1, n, s);
        }
      }
    }
  }

  /** File `k` is the first on which the fold raises. */
  ghost predicate FirstCrashAt(step: (MediaFile, Settings) -> Outcome, files: seq<MediaFile>, settings: Settings, k: int)
  {
    && 0 <= k < |files|
    && !Fold(step, files, k, settings).crashed
    && Fold(step, files, k + 1, settings).crashed
  }

  /** Once the first `k` files have raised, the files after them change nothing. */
  lemma {:induction false} CrashSticks(step: (MediaFile, Settings) -> Outcome, files: seq<MediaFile>, k: nat, n: nat,
                                       s: Settings)
    requires k <= n <= |files| && Fold(step, files, k, s).crashed
    ensures Fold(step, files, n, s) == Fold(step, files, k, s)
    decreases n
  {
    if k < n {
      CrashSticks(step, files, k, n - 1, s);
    }
  }

  /**
   * A fold that raises stops at the first file on which it raises: the
   * table is the one the files before it left, so no later file is
   * processed.
   */
  lemma {:induction false} RunStopsAtFirstCrash(step: (MediaFile, Settings) -> Outcome, files: seq<MediaFile>, n: nat,
                                                s: Settings)
    requires n <= |files|
    requires forall file: MediaFile, st :: step(file, st).crashed ==> step(file, st).settings == st
    ensures var r := Fold(step, files, n, s);
            r.crashed ==> exists k :: k < n && FirstCrashAt(step, files, s, k)
                                     && r.settings == Fold(step, files, k, s).settings
    decreases n
  {
    if n > 0 && Fold(step, files, n, s).crashed {
      if Fold(step, files, n - 1, s).crashed {
        RunStopsAtFirstCrash(step, files, n - 1, s);
      } else {
        assert FirstCrashAt(step, files, s, n - 1);
      }
    }
  }

  /** Folding one more file into what _run has done so far keeps every file's guarantees. */
  lemma {:induction false} RunStepGuarded(args: Args, sd: map<int, seq<string>>, fid: Option<int>, s0: Settings, s1: Settings, s2: Settings)
    requires forall f :: Guarded(args, sd, s0, s1, f)
    requires fid.None? ==> s2 == s1
    requires fid.Some? ==> FileStep(args, sd, s1, s2, fid.value)
    ensures forall f :: Guarded(args, sd, s0, s2, f)
  {
    forall f
      ensures Guarded(args, sd, s0, s2, f)
    {
      if fid.None? || f != fid.value {
        RowUntouchedIsGuarded(args, sd, s1, s2, f);
      }
      GuardedTransitive(args, sd, s0, s1, s2, f);
    }
  }

  /** One step of the fold, on a table the files before it left, keeps every file's guarantees. */
  lemma StepGuarded(args: Args, movies: seq<MovieRow>, sd: map<int, seq<string>>,
                    step: (MediaFile, Settings) -> Outcome, file: MediaFile, s: Settings, st: Settings)
    requires forall f :: Guarded(args, sd, s, st, f)
    requires GetFid(movies, file.path).None? ==> step(file, st).settings == st
    requires GetFid(movies, file.path).Some? ==>
               FileStep(args, sd, st, step(file, st).settings, GetFid(movies, file.path).value)
    ensures forall f :: Guarded(args, sd, s, step(file, st).settings, f)
  {
    RunStepGuarded(args, sd, GetFid(movies, file.path), s, st, step(file, st).settings);
  }

  /**
   * A fold whose every step keeps the guarantees of FileStep for the id
   * its file resolves to (and no change at all for an unknown file) keeps,
   * over the first `n` files, the guarantees of Guarded for every id.
   */
  lemma {:induction false} FoldGuarded(args: Args, movies: seq<MovieRow>, sd: map<int, seq<string>>,
                                       step: (MediaFile, Settings) -> Outcome, files: seq<MediaFile>, n: nat, s: Settings)
    requires n <= |files|
    requires forall file: MediaFile, st :: GetFid(movies, file.path).None? ==> step(file, st).settings == st
    requires forall file: MediaFile, st :: GetFid(movies, file.path).Some? ==>
               FileStep(args, sd, st, step(file, st).settings, GetFid(movies, file.path).value)
    ensures forall f :: Guarded(args, sd, s, Fold(step, files, n, s).settings, f)
    decreases n
  {
    if n == 0 {
      forall f
        ensures Guarded(args, sd, s, s, f)
      {
        RowUntouchedIsGuarded(args, sd, s, s, f);
      }
    } else {
      FoldGuarded(args, movies, sd, step, files, n - 1, s);
      var before := Fold(step, files, n - 1, s);
      if before.crashed {
        assert Fold(step, files, n, s) == before;
      } else {
        assert Fold(step, files, n, s) == step(files[n - 1], before.settings);
        StepGuarded(args, movies, sd, step, files[n - 1], s, before.settings);
      }
    }
  }

  /**
   * A fold whose every step leaves the row of `f` alone for a file
   * `resolve` does not map to `f` leaves that row alone over the first `n` files, when
   * none of them resolves to `f`.
   */
  lemma {:induction false} FoldUntouched(resolve: MediaFile -> Option<int>, step: (MediaFile, Settings) -> Outcome,
                                         files: seq<MediaFile>, n: nat, s: Settings, f: int)
    requires n <= |files|
    requires forall i :: 0 <= i < n ==> resolve(files[i]) != Some(f)
    requires forall file: MediaFile, st :: resolve(file) != Some(f) ==> RowUntouched(st, step(file, st).settings, f)
    ensures RowUntouched(s, Fold(step, files, n, s).settings, f)
    decreases n
  {
    if n > 0 {
      FoldUntouched(resolve, step, files, n - 1, s, f);
      var before := Fold(step, files, n - 1, s);
      if !before.crashed {
        RowUntouchedTransitive(s, before.settings, step(files[n - 1], before.settings).settings, f);
      }
    }
  }

  /**
   * What _run promises for every file id, over the first `n` files:
   * the flag guarantees of Guarded, and no change to the row of an id none
   * of those files resolves to.
   */
  lemma {:induction false} RunGuarded(args: Args, movies: seq<MovieRow>, sd: map<int, seq<string>>, onDisk: set<string>,
                                      files: seq<MediaFile>, n: nat, s: Settings)
    requires n <= |files|
    ensures forall f :: Guarded(args, sd, s, RunOutcome(args, movies, sd, onDisk, files, n, s).settings, f)
    ensures forall f :: (forall i :: 0 <= i < n ==> GetFid(movies, files[i].path) != Some(f)) ==>
              RowUntouched(s, RunOutcome(args, movies, sd, onDisk, files, n, s).settings, f)
  {
    var step := (file, st) => FileOutcome(args, movies, sd, onDisk, file, st);
    forall file: MediaFile, st: Settings
      ensures GetFid(movies, file.path).None? ==> step(file, st).settings == st
      ensures GetFid(movies, file.path).Some? ==>
                FileStep(args, sd, st, step(file, st).settings, GetFid(movies, file.path).value)
    {
      FileOutcomeStep(args, movies, sd, onDisk, file, st);
    }
    forall f | forall i :: 0 <= i < n ==> GetFid(movies, files[i].path) != Some(f)
      ensures RowUntouched(s, RunOutcome(args, movies, sd, onDisk, files, n, s).settings, f)
    {
      var resolve := (file: MediaFile) => GetFid(movies, file.path);
      forall file: MediaFile, st: Settings | resolve(file) != Some(f)
        ensures RowUntouched(st, step(file, st).settings, f)
      {
        FileOutcomeStep(args, movies, sd, onDisk, file, st);
      }
      FoldUntouched(resolve, step, files, n, s, f);
    }
    FoldGuarded(args, movies, sd, step, files, n, s);
  }

  /**
   * _run over a batch of files, proved to leave the table RunOutcome
   * describes and to report whether Python would have raised. The flag
   * guarantees are stated for the whole batch: no audio change without
   * --audio or under --updateonly; quiet mode never replaces a chosen
   * subtitle stream; --updateonly keeps configured subtitles; --fast
   * (where no audio update can move a file's default audio language in
   * between) keeps the subtitles of a file whose default audio is in the
   * user's language; rows of ids outside the batch are untouched.
   */
  method Run(args: Args, db: KodiManager, files: seq<MediaFile>, onDisk: set<string>) returns (crashed: bool)
    modifies db
    ensures Outcome(db.settings, crashed) == RunOutcome(args, db.movies, db.streamdetails, onDisk, files, |files|, old(db.settings))
    ensures forall f :: Guarded(args, db.streamdetails, old(db.settings), db.settings, f)
    ensures forall f :: (forall i :: 0 <= i < |files| ==> GetFid(db.movies, files[i].path) != Some(f)) ==>
              RowUntouched(old(db.settings), db.settings, f)
    ensures crashed ==>
              exists k :: FirstCrashAt((file, s) => FileOutcome(args, db.movies, db.streamdetails, onDisk, file, s),
                                       files, old(db.settings), k)
                          && db.settings == RunOutcome(args, db.movies, db.streamdetails, onDisk, files, k, old(db.settings)).settings
  {
    RunGuarded(args, db.movies, db.streamdetails, onDisk, files, |files|, db.settings);
    crashed := false;
    for n := 0 to |files|
      invariant Outcome(db.settings, false) == RunOutcome(args, db.movies, db.streamdetails, onDisk, files, n, old(db.settings))
    {
      var fid;
      fid, crashed := UpdateFile(args, db, files[n], onDisk);
      if crashed {
        ghost var step := (file, s) => FileOutcome(args, db.movies, db.streamdetails, onDisk, file, s);
        CrashSticks(step, files, n + 1, |files|, old(db.settings));
        RunStopsAtFirstCrash(step, files, |files|, old(db.settings));
        return;
      }
    }
  }
}
