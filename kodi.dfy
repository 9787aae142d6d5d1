/**
 * Kodi's video database as the KodiManager class of autosubs.py sees it:
 * the `movie` table (to find a file's id), the `settings` table (one row of
 * playback settings per file id) and the audio languages in the
 * `streamdetails` table. Every query of the source becomes a function of
 * these tables; the three writers become methods of KodiManager.
 */
module Kodi {
  import opened Optional
  import opened Lists
  import opened Text

  // ---------------------------------------------------------------------
  // The settings table
  // ---------------------------------------------------------------------

  /** A value written into a settings column; floats are kept as their literal. */
  datatype Value = Int(n: int) | Real(literal: string) | Null

  /** The columns insert_settings_row fills in. */
  datatype Column =
    | Deinterlace | ViewMode | ZoomAmount | PixelRatio | VerticalShift | AudioStream | SubtitleStream
    | SubtitleDelay | SubtitlesOn | Brightness | Contrast | Gamma | VolumeAmplification | AudioDelay
    | ResumeTime | Sharpness | NoiseReduction | NonLinStretch | PostProcess | ScalingMethod
    | DeinterlaceMode | StereoMode | StereoInvert | VideoStream | TonemapMethod | TonemapParam
    | Orientation | CenterMixLevel

  /**
   * One row of `settings`. The three columns the program reads are fields;
   * -1 in a stream column means "no stream chosen". Every other column is
   * an opaque entry of `profile`.
   */
  datatype SettingsRow = SettingsRow(audioStream: int, subtitleStream: int, subtitlesOn: int, profile: map<Column, Value>)

  /** The `default_settings` dictionary, in its order (`"NULL"` is written as SQL NULL). */
  const DefaultSettings: seq<(Column, Value)> := [
    (Deinterlace, Int(1)), (ViewMode, Int(0)), (ZoomAmount, Real("1.0")), (PixelRatio, Real("1.0")),
    (VerticalShift, Real("0.0")), (AudioStream, Int(-1)), (SubtitleStream, Int(-1)), (SubtitleDelay, Real("0.0")),
    (SubtitlesOn, Int(1)), (Brightness, Real("50.0")), (Contrast, Real("50.0")), (Gamma, Real("20.0")),
    (VolumeAmplification, Real("0.0")), (AudioDelay, Real("0.0")), (ResumeTime, Int(0)), (Sharpness, Real("0.0")),
    (NoiseReduction, Real("0.0")), (NonLinStretch, Int(0)), (PostProcess, Int(0)), (ScalingMethod, Int(1)),
    (DeinterlaceMode, Null), (StereoMode, Int(0)), (StereoInvert, Int(0)), (VideoStream, Int(-1)),
    (TonemapMethod, Int(1)), (TonemapParam, Real("1.0")), (Orientation, Int(0)), (CenterMixLevel, Int(0))
  ]

  /** `update settings set {name}={val}` on one row. */
  function SetColumn(row: SettingsRow, c: Column, v: Value): SettingsRow
  {
    match (c, v)
    case (AudioStream, Int(n)) => row.(audioStream := n)
    case (SubtitleStream, Int(n)) => row.(subtitleStream := n)
    case (SubtitlesOn, Int(n)) => row.(subtitlesOn := n)
    case _ => row.(profile := row.profile[c := v])
  }

  /** The row after the updates `cols[i..]`, applied in order. */
  function ApplyColumns(row: SettingsRow, cols: seq<(Column, Value)>, i: nat): SettingsRow
    decreases |cols| - i
  {
    if i >= |cols| then row else ApplyColumns(SetColumn(row, cols[i].0, cols[i].1), cols, i + 1)
  }

  /**
   * The row `insert into settings (idFile)` creates, before the updates.
   * Its stream columns are overwritten by the updates, so their values
   * here do not matter.
   */
  const BlankRow := SettingsRow(-1, -1, 0, map[])

  /** The row insert_settings_row leaves behind. */
  function DefaultRow(): (r: SettingsRow)
    ensures r.audioStream == -1 && r.subtitleStream == -1 && r.subtitlesOn == 1
  {
    DefaultRowStreams(DefaultSettings);
    ApplyColumns(BlankRow, DefaultSettings, 0)
  }

  predicate IsStreamColumn(c: Column)
  {
    c == AudioStream || c == SubtitleStream || c == SubtitlesOn
  }

  function StreamField(row: SettingsRow, c: Column): int
    requires IsStreamColumn(c)
  {
    match c
    case AudioStream => row.audioStream
    case SubtitleStream => row.subtitleStream
    case SubtitlesOn => row.subtitlesOn
  }

  /** Updates that do not name a stream column leave it alone. */
  lemma {:induction false} ApplyColumnsKeeps(row: SettingsRow, cols: seq<(Column, Value)>, i: nat, c: Column)
    requires IsStreamColumn(c)
    requires forall j :: i <= j < |cols| ==> cols[j].0 != c
    ensures StreamField(ApplyColumns(row, cols, i), c) == StreamField(row, c)
    decreases |cols| - i
  {
    if i < |cols| {
      ApplyColumnsKeeps(SetColumn(row, cols[i].0, cols[i].1), cols, i + 1, c);
    }
  }

  /** A stream column ends with the value of the last update that names it. */
  lemma {:induction false} ApplyColumnsLastWrite(row: SettingsRow, cols: seq<(Column, Value)>, i: nat, k: nat, c: Column, v: int)
    requires IsStreamColumn(c)
    requires i <= k < |cols| && cols[k] == (c, Int(v))
    requires forall j :: k < j < |cols| ==> cols[j].0 != c
    ensures StreamField(ApplyColumns(row, cols, i), c) == v
    decreases k - i
  {
    var next := SetColumn(row, cols[i].0, cols[i].1);
    if i == k {
      ApplyColumnsKeeps(next, cols, k + 1, c);
    } else {
      ApplyColumnsLastWrite(next, cols, i + 1, k, c, v);
    }
  }

  /**
   * The default template leaves both streams unset and subtitles on. The
   * template is passed as a parameter equal to it so that the proof walks
   * the positions it names: stated over the 28-entry literal directly,
   * the verifier unrolls the whole fold and runs out of resource.
   */
  lemma DefaultRowStreams(cols: seq<(Column, Value)>)
    requires cols == DefaultSettings
    ensures ApplyColumns(BlankRow, cols, 0).audioStream == -1
    ensures ApplyColumns(BlankRow, cols, 0).subtitleStream == -1
    ensures ApplyColumns(BlankRow, cols, 0).subtitlesOn == 1
  {
    assert cols[5] == (AudioStream, Int(-1)) && cols[6] == (SubtitleStream, Int(-1)) && cols[8] == (SubtitlesOn, Int(1));
    assert forall j :: 5 < j < |cols| ==> cols[j].0 != AudioStream;
    assert forall j :: 6 < j < |cols| ==> cols[j].0 != SubtitleStream;
    assert forall j :: 8 < j < |cols| ==> cols[j].0 != SubtitlesOn;
    ApplyColumnsLastWrite(BlankRow, cols, 0, 5, AudioStream, -1);
    ApplyColumnsLastWrite(BlankRow, cols, 0, 6, SubtitleStream, -1);
    ApplyColumnsLastWrite(BlankRow, cols, 0, 8, SubtitlesOn, 1);
  }

  type Settings = map<int, SettingsRow>

  /** The stored audio stream of `fid`; a missing row reads as unset (-1). */
  function AudioStreamOf(settings: Settings, fid: int): int
  {
    if fid in settings then settings[fid].audioStream else -1
  }

  /** The stored subtitle stream of `fid`; a missing row reads as unset (-1). */
  function SubtitleStreamOf(settings: Settings, fid: int): int
  {
    if fid in settings then settings[fid].subtitleStream else -1
  }

  /** The row of `fid`, or the row insert_settings_row would create. */
  function RowOrDefault(settings: Settings, fid: int): SettingsRow
  {
    if fid in settings then settings[fid] else DefaultRow()
  }

  /**
   * has_subtitle_settings: a subtitle stream is chosen and subtitles are
   * on. A missing row reads as the default row, which has none.
   */
  predicate HasSubtitleSettings(settings: Settings, fid: int): (r: bool)
    ensures r <==> SubtitleStreamOf(settings, fid) != -1 && RowOrDefault(settings, fid).subtitlesOn == 1
    ensures fid !in settings ==> !r
  {
    fid in settings && settings[fid].subtitleStream != -1 && settings[fid].subtitlesOn == 1
  }

  /** has_audio_settings: an audio stream is chosen; a missing row has none. */
  predicate HasAudioSettings(settings: Settings, fid: int): (r: bool)
    ensures r <==> AudioStreamOf(settings, fid) != -1
  {
    fid in settings && settings[fid].audioStream != -1
  }

  /**
   * A prior choice `prior` stands in the way of choosing `tracknum`: only a
   * stored stream that differs does; an unset one or the same one never
   * does.
   */
  predicate Conflicts(prior: int, tracknum: int): (r: bool)
    ensures r ==> prior != -1 && prior != tracknum
    ensures prior == -1 || prior == tracknum ==> !r
  {
    prior != -1 && prior != tracknum
  }

  /** The table after set_subtrack has applied `tracknum` to `fid`. */
  function WithSubtitle(settings: Settings, fid: int, tracknum: int): (r: Settings)
    ensures r.Keys == settings.Keys + {fid}
    ensures r[fid].subtitleStream == tracknum && r[fid].subtitlesOn == 1
    ensures r[fid].audioStream == AudioStreamOf(settings, fid)
    ensures r[fid].profile == RowOrDefault(settings, fid).profile
    ensures forall f :: f in settings && f != fid ==> r[f] == settings[f]
    ensures forall f :: AudioStreamOf(r, f) == AudioStreamOf(settings, f)
  {
    settings[fid := RowOrDefault(settings, fid).(subtitleStream := tracknum, subtitlesOn := 1)]
  }

  /** The table after set_atrack has applied `tracknum` to `fid`. */
  function WithAudio(settings: Settings, fid: int, tracknum: int): (r: Settings)
    ensures r.Keys == settings.Keys + {fid}
    ensures r[fid].audioStream == tracknum
    ensures r[fid].subtitleStream == SubtitleStreamOf(settings, fid)
    ensures r[fid].subtitlesOn == RowOrDefault(settings, fid).subtitlesOn
    ensures r[fid].profile == RowOrDefault(settings, fid).profile
    ensures forall f :: f in settings && f != fid ==> r[f] == settings[f]
    ensures fid in settings && settings[fid].audioStream == tracknum ==> r == settings
    ensures forall f :: SubtitleStreamOf(r, f) == SubtitleStreamOf(settings, f)
    ensures forall f :: f in settings ==> r[f].subtitlesOn == settings[f].subtitlesOn
  {
    settings[fid := RowOrDefault(settings, fid).(audioStream := tracknum)]
  }

  /** Once applied, the same subtitle choice applies again, with or without force, and changes nothing. */
  lemma SubtitleAssignmentIdempotent(settings: Settings, fid: int, tracknum: int)
    ensures var after := WithSubtitle(settings, fid, tracknum);
            !Conflicts(SubtitleStreamOf(after, fid), tracknum) && WithSubtitle(after, fid, tracknum) == after
  {
    var after := WithSubtitle(settings, fid, tracknum);
    assert WithSubtitle(after, fid, tracknum) == after;
  }

  /** Once applied, the same audio choice applies again, with or without force, and changes nothing. */
  lemma AudioAssignmentIdempotent(settings: Settings, fid: int, tracknum: int)
    ensures var after := WithAudio(settings, fid, tracknum);
            !Conflicts(AudioStreamOf(after, fid), tracknum) && WithAudio(after, fid, tracknum) == after
  {
  }

  /** After an applied subtitle choice, has_subtitle_settings holds unless the choice was -1. */
  lemma SubtitleAssignmentConfigures(settings: Settings, fid: int, tracknum: int)
    ensures HasSubtitleSettings(WithSubtitle(settings, fid, tracknum), fid) <==> tracknum != -1
    ensures HasAudioSettings(WithSubtitle(settings, fid, tracknum), fid) <==> HasAudioSettings(settings, fid)
  {
  }

  /** After an applied audio choice, has_audio_settings holds unless the choice was -1. */
  lemma AudioAssignmentConfigures(settings: Settings, fid: int, tracknum: int)
    ensures HasAudioSettings(WithAudio(settings, fid, tracknum), fid) <==> tracknum != -1
    ensures HasSubtitleSettings(WithAudio(settings, fid, tracknum), fid) <==> HasSubtitleSettings(settings, fid)
  {
  }

  // ---------------------------------------------------------------------
  // get_default_audio_lang
  // ---------------------------------------------------------------------

  /** The outcome of get_default_audio_lang; `IndexError` is the exception Python raises. */
  datatype AudioLang = Known(lang: string) | Unknown | IndexError

  /** `select strAudioLanguage from streamdetails where idFile=fid and iStreamType=1`. */
  function AudioLanguages(streamdetails: map<int, seq<string>>, fid: int): seq<string>
  {
    if fid in streamdetails then streamdetails[fid] else []
  }

  /** The stream Kodi plays: the stored audio stream, with unset (or no row) read as stream 0. */
  function EffectiveAudioStream(settings: Settings, fid: int): int
  {
    var stream := AudioStreamOf(settings, fid);
    if stream == -1 then 0 else stream
  }

  /**
   * The language of the audio stream Kodi plays. Unknown when the file has
   * no audio languages or the stream lies past the last one. A negative
   * stream other than -1 indexes from the end, as Python lists do.
   */
  function DefaultAudioLang(settings: Settings, streamdetails: map<int, seq<string>>, fid: int): (r: AudioLang)
    ensures var langs := AudioLanguages(streamdetails, fid);
            var stream := EffectiveAudioStream(settings, fid);
            && (|langs| == 0 ==> r == Unknown)
            && (stream >= |langs| ==> r == Unknown)
            && (0 <= stream < |langs| ==> r == Known(langs[stream]))
            && (-|langs| <= stream < 0 ==> r == Known(langs[|langs| + stream]))
            && (r == IndexError <==> |langs| > 0 && stream < -|langs|)
  {
    var stream := EffectiveAudioStream(settings, fid);
    var langs := AudioLanguages(streamdetails, fid);
    if |langs| == 0 then Unknown
    else if stream + 1 > |langs| then Unknown
    else if stream >= 0 then Known(langs[stream])
    else if stream >= -|langs| then Known(langs[|langs| + stream])
    else IndexError
  }

  /** A row whose audio stream is -1 reads exactly like a missing row. */
  lemma UnsetAudioIsNoRow(settings: Settings, streamdetails: map<int, seq<string>>, fid: int)
    requires fid in settings && settings[fid].audioStream == -1
    ensures DefaultAudioLang(settings, streamdetails, fid) == DefaultAudioLang(settings - {fid}, streamdetails, fid)
    ensures DefaultAudioLang(settings, streamdetails, fid) ==
              if AudioLanguages(streamdetails, fid) == [] then Unknown else Known(AudioLanguages(streamdetails, fid)[0])
  {
  }

  /** Only the stored audio stream of `fid` decides its default audio language. */
  lemma DefaultAudioLangOnlyReadsAudioStream(s1: Settings, s2: Settings, streamdetails: map<int, seq<string>>, fid: int)
    requires AudioStreamOf(s1, fid) == AudioStreamOf(s2, fid)
    ensures DefaultAudioLang(s1, streamdetails, fid) == DefaultAudioLang(s2, streamdetails, fid)
  {
  }

  /** After set_atrack applies stream `k` of the file, that stream's language is the default audio language. */
  lemma ChosenAudioIsDefaultLang(settings: Settings, streamdetails: map<int, seq<string>>, fid: int, k: int)
    requires 0 <= k < |AudioLanguages(streamdetails, fid)|
    ensures DefaultAudioLang(WithAudio(settings, fid, k), streamdetails, fid) == Known(AudioLanguages(streamdetails, fid)[k])
  {
  }

  // ---------------------------------------------------------------------
  // getfid
  // ---------------------------------------------------------------------

  /** A row of the `movie` table: the file id and the path Kodi stores in `c22`. */
  datatype MovieRow = MovieRow(idFile: int, c22: string)

  /** `c22 like "%{fname}"`: a suffix test, ignoring ASCII case as SQLite's LIKE does. */
  function LikeSuffix(fname: string): MovieRow -> bool
  {
    (m: MovieRow) => EndsWith(Lower(m.c22), Lower(fname))
  }

  /** getfid: the id of the first movie whose path ends with the file name of `filmpath`. */
  function GetFid(movies: seq<MovieRow>, filmpath: string): (r: Option<int>)
    ensures var fname := LastComponent(filmpath);
            r.None? <==> forall i :: 0 <= i < |movies| ==> !EndsWith(Lower(movies[i].c22), Lower(fname))
    ensures var fname := LastComponent(filmpath);
            r.Some? ==> exists k :: IsFirst(movies, LikeSuffix(fname), k) && r.value == movies[k].idFile
  {
    var fname := LastComponent(filmpath);
    var matching := Filter(movies, LikeSuffix(fname));
    FilterHead(movies, LikeSuffix(fname));
    if matching == [] then None else Some(matching[0].idFile)
  }

  // ---------------------------------------------------------------------
  // class KodiManager
  // ---------------------------------------------------------------------

  /** The database connection; only `settings` is ever written. */
  class KodiManager {
    const movies: seq<MovieRow>
    var settings: Settings
    const streamdetails: map<int, seq<string>>

    constructor (movies: seq<MovieRow>, settings: Settings, streamdetails: map<int, seq<string>>)
      ensures this.movies == movies && this.settings == settings && this.streamdetails == streamdetails
    {
      this.movies := movies;
      this.settings := settings;
      this.streamdetails := streamdetails;
    }

    /** insert_settings_row: a new row for `rowid`, then one update per default column. */
    method InsertSettingsRow(rowid: int)
      requires rowid !in settings
      modifies this
      ensures settings == old(settings)[rowid := DefaultRow()]
    {
      settings := settings[rowid := BlankRow];
      var i := 0;
      while i < |DefaultSettings|
        invariant 0 <= i <= |DefaultSettings|
        invariant rowid in settings && settings == old(settings)[rowid := settings[rowid]]
        invariant ApplyColumns(settings[rowid], DefaultSettings, i) == DefaultRow()
      {
        var (name, val) := DefaultSettings[i];
        settings := settings[rowid := SetColumn(settings[rowid], name, val)];
        i := i + 1;
      }
    }

    /**
     * set_subtrack: choose subtitle stream `tracknum` for `fid` and turn
     * subtitles on, unless another stream is already chosen and `force`
     * is false; then nothing is written and the result is false.
     */
    method SetSubtrack(fid: int, tracknum: int, force: bool) returns (ok: bool)
      modifies this
      ensures ok <==> force || !Conflicts(old(SubtitleStreamOf(settings, fid)), tracknum)
      ensures settings == if ok then WithSubtitle(old(settings), fid, tracknum) else old(settings)
    {
      var res := if fid in settings then Some(settings[fid].subtitleStream) else None;
      if res.Some? && res.value != -1 {
        if res.value == tracknum {
          settings := settings[fid := settings[fid].(subtitlesOn := 1)];
          return true;
        } else if !force {
          return false;
        }
      }
      if res.None? {
        InsertSettingsRow(fid);
      }
      settings := settings[fid := settings[fid].(subtitleStream := tracknum, subtitlesOn := 1)];
      return true;
    }

    /**
     * set_atrack: choose audio stream `tracknum` for `fid`, unless another
     * stream is already chosen and `force` is false. Choosing the stream
     * already stored writes nothing.
     */
    method SetAtrack(fid: int, tracknum: int, force: bool) returns (ok: bool)
      modifies this
      ensures ok <==> force || !Conflicts(old(AudioStreamOf(settings, fid)), tracknum)
      ensures settings == if ok then WithAudio(old(settings), fid, tracknum) else old(settings)
    {
      var res := if fid in settings then Some(settings[fid].audioStream) else None;
      if res.Some? && res.value != -1 {
        if res.value == tracknum {
          return true;
        } else if !force {
          return false;
        }
      }
      if res.None? {
        InsertSettingsRow(fid);
      }
      settings := settings[fid := settings[fid].(audioStream := tracknum)];
      return true;
    }
  }
}
