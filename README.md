# kodi-autosubs: a verified model of the decision logic

`autosubs.py` picks subtitle and audio tracks for the films in a Kodi
library and records those choices in Kodi's video database. Kodi then
plays each film with the right tracks. For each media file the program:

1. finds the file's id in the `movie` table;
2. reads the audio and text tracks with MediaInfo;
3. proposes one subtitle track in the user's language;
4. asks the user (or, in quiet mode, takes the proposal);
5. stores the choice in the `settings` table without clobbering an earlier
   choice unless told to.

This project models the per-file decisions in Dafny and proves what they
promise.

- `lists.dfy` has two modules.
  - `Optional` is the `None`-or-value type.
  - `Lists` models Python's `list(filter(...))`. It proves that the filter
    keeps order, keeps each passing element as often as it occurs, and that
    its head is the first match.
- `text.dfy` (`Text`) models the string operations the heuristics use:
  - `lower`, for ASCII;
  - `in` on strings;
  - the suffix match behind the SQL pattern `LIKE "%name"` of `getfid`
    (line 95), as `EndsWith`;
  - `split("/")[-1]`;
  - `isdecimal`/`int`.

  It proves the round trip `int(str(n)) == n`.
- `tracks.dfy` (`Tracks`) models a track and the `FileManager` heuristics:
  - the default audio track;
  - the extra (non-default, non-commentary) audio tracks;
  - the preferred subtitle (same language, SDH narrowing, then forced >
    default > first);
  - the sidecar `.srt` test.

  `get_extra_audiotracks` builds its list in a loop. It is a method whose
  loop is proved against a filter specification. `FileManager` is a class:
  `update_subtitles` later changes its `subtracks` and `preferredSubtrack`.
- `kodi.dfy` (`Kodi`) models the database:
  - `movie`, as rows of id and path;
  - `settings`, as a map from file id to a row;
  - `streamdetails`, as a map from file id to the audio languages.

  The queries `getfid`, `get_default_audio_lang`, `has_subtitle_settings`
  and `has_audio_settings` are functions. The writers `insert_settings_row`,
  `set_subtrack` and `set_atrack` are methods of the `KodiManager` class that
  update its `settings` field. Each writer is proved against a pure
  description of the table it leaves behind: `DefaultRow`, `WithSubtitle`,
  `WithAudio`.
- `autosubs.dfy` (`Autosubs`) models the program glue:
  - how an answer typed at a prompt becomes a track choice;
  - the sidecar placeholder that `update_subtitles` appends;
  - `update_subtitles` and `update_audio`;
  - the file loop of `_run` with its mode flags.

  One iteration of the loop is a pure function, `FileOutcome`: the
  subtitle write of `update_subtitles` under its gate (`SubtitlesAllowed`),
  then the audio write of `update_audio` under its gate (`AudioAllowed`).
  `RunOutcome` folds it over the batch and stops at the first file that
  raises. `UpdateFile` and `Run` are proved to leave exactly the table
  these functions give. `Run` is also proved to keep the promises of the
  flags, for every file:
  - without `--audio`, or under `--updateonly`, no audio stream changes;
  - in quiet mode a chosen subtitle stream is never replaced;
  - under `--updateonly` configured subtitles stay as they are;
  - under `--fast`, a file whose default audio is already in the user's
    language keeps its subtitles. Within the file's own iteration this
    holds in every mode (`FastmodeKeepsSubtitles`). Over the whole batch it
    is stated only when audio updates are off: with `--audio`, an earlier
    file resolving to the same id can change the stored audio stream, and
    with it the default audio language the gate reads;
  - rows of files not in the batch are not touched.
- `scenarios.dfy` (`Scenarios`) holds concrete cases worked out on the model:
  - a forced track beating an earlier default;
  - SDH narrowing;
  - an end-to-end quiet run on a French film with English subtitles;
  - a sidecar that overrides the language filter.

Python's truthiness is modelled where the code relies on it:
- `if not fid` also skips file id 0;
- a present track object is always true;
- `title or ""` reads a missing title as `""`;
- `res and res[0] != -1` reads a missing row as unset.

A missing `settings` row and a row whose stream is -1 both read as "unset"
(`AudioStreamOf`, `SubtitleStreamOf`). The model follows the code where the
code differs from its comments or from the documented design:
- **The sidecar's stream number.** The synthetic subtitle is numbered by
  the number of audio tracks (line 381), not by one past the last subtitle
  index (as the comment at line 374 says). See `ExternalSubtrack` and
  `Scenarios.SidecarOverride`.
- **Audio under `--updateonly`.** Line 464 tests `self.db.has_audio_settings`
  without calling it. A bound method is always true, so `--updateonly`
  alone switches audio updates off. See `Autosubs.AudioAllowed`,
  `Autosubs.UpdateAudioGated` and the first guarantee of `Autosubs.Run`.
- **Which track is "the default".** Tracks are compared by their
  attributes, which is datatype equality here. So `get_extra_audiotracks`
  drops every track equal to the default track, not just the default track
  itself.
- **Crashes.** `get_default_audio_lang` indexes the language list with the
  stored audio stream as Python does. A negative stream counts from the end;
  one below minus the list length raises `IndexError`, which is the
  `IndexError` case of `Kodi.AudioLang`. `Run` models the exceptions that
  end the program:
  - that `IndexError`, under `--fast`;
  - a file with no audio track handed to `FileManager`.

  `Run` reports them as `crashed`. The table is then the one the files
  before the failing file left, so no later file is processed
  (`RunStopsAtFirstCrash`).

## Model

| member | source | states |
|---|---|---|
| Lists.Filter | autosubs.py:36 | `list(filter(p, s))`: no longer than `s`; the members of `s` that pass `p`, and only those |
| Lists.FilterIsSubsequence | autosubs.py:56 | a filtered list keeps the order of the original (it is a subsequence) |
| Lists.FilterCounts | autosubs.py:36 | each element passing the test occurs in the filtered list as often as in the original; no other element occurs |
| Lists.FilterHead | autosubs.py:37-40 | the filtered list is empty exactly when nothing passes; otherwise its head is the first element of the original that passes |
| Text.Lower | autosubs.py:48 | `lower()` keeps the length, lower-cases each ASCII letter, and leaves no upper-case ASCII letter |
| Text.ContainsAt | autosubs.py:48 | `sub in s` holds exactly when `sub` occurs in `s` at some position |
| Text.LastComponent | autosubs.py:94 | `split("/")[-1]` is a suffix of the path without '/', preceded by '/' when it is not the whole path |
| Text.DecimalRoundTrip | autosubs.py:351-352 | the digits of `n` pass `isdecimal()`, and `int` reads them back as `n` |
| Tracks.DefaultAudiotrack | autosubs.py:35-41 | on a non-empty list: the first track marked default when one is, else the first track; always a member of the list |
| Tracks.IsCommentary | autosubs.py:49 | a track counts as a commentary exactly when it has a title whose lower-cased text contains "commentary"; the truthiness test on the title only rules out a missing one |
| Tracks.ExtrasProperties | autosubs.py:44-52 | the extra audio tracks keep list order, never contain the default track or a track titled as a commentary, and include every other track |
| Tracks.ExtraAudiotracks | autosubs.py:44-52 | the loop builds exactly the filtered list of extra tracks, with the four properties above |
| Tracks.SubtitlePool | autosubs.py:56-63 | the candidates are empty exactly when no track is in the language; all are in the language and in list order; SDH tracks are dropped only when there are two or more candidates and at least one is not SDH, and then every non-SDH candidate stays; otherwise the candidates are all the same-language tracks |
| Tracks.SubtitlePoolCounts | autosubs.py:60-63 | when the SDH tracks are dropped, each non-SDH track in the language keeps its number of occurrences and no SDH track remains |
| Tracks.NotSDH | autosubs.py:61 | a track without a title passes; a titled one passes exactly when its title does not contain "SDH" (case-sensitive) |
| Tracks.PreferredSubtrack | autosubs.py:55-74 | None exactly when no subtitle track is in the language; otherwise a listed track in that language; the first forced candidate when one is forced, else the first default candidate, else the first candidate |
| Tracks.ShortSidecarPath | autosubs.py:80 | `fpath[:-3] + "srt"` keeps all but the last three characters (all of them are dropped for a shorter path) and ends in "srt" |
| Tracks.HasExternalSubtrack | autosubs.py:78-82 | a sidecar is found exactly when `fpath + ".srt"` or `fpath[:-3] + "srt"` is among the existing files; for a path shorter than three characters the second name is plain "srt"; whatever makes it found is an existing name ending in "srt" |
| Tracks.FileManager.constructor | autosubs.py:20-32 | the analysis of a file with at least one audio track: each field is the value of its selection function |
| Kodi.DefaultRow | autosubs.py:141-175 | the row insert_settings_row creates has both streams unset (-1) and subtitles on |
| Kodi.DefaultRowStreams | autosubs.py:142-171 | applying the default columns in order leaves AudioStream -1, SubtitleStream -1 and SubtitlesOn 1 |
| Kodi.HasSubtitleSettings | autosubs.py:128-133 | true exactly when the file's subtitle stream is set (not -1) and subtitles are on; a file without a row has none |
| Kodi.HasAudioSettings | autosubs.py:135-138 | true exactly when the file's audio stream is set (not -1); a file without a row has none |
| Kodi.Conflicts | autosubs.py:182-190 | the definition of the one-line overwrite test: a stored choice blocks a new one only when it is set and differs from it; an unset stream or the same stream never blocks |
| Kodi.WithSubtitle | autosubs.py:177-197 | a successful set_subtrack adds the row if missing and sets its subtitle stream and SubtitlesOn=1; the audio stream of every file and all other rows are kept |
| Kodi.WithAudio | autosubs.py:199-214 | a successful set_atrack adds the row if missing and sets its audio stream; the row's subtitle columns and all other rows are kept; re-choosing the stored stream writes nothing |
| Kodi.SubtitleAssignmentIdempotent | autosubs.py:183-189 | after a subtitle choice is applied, the same choice meets no conflict and applying it again changes nothing |
| Kodi.AudioAssignmentIdempotent | autosubs.py:204-206 | after an audio choice is applied, the same choice meets no conflict and applying it again changes nothing |
| Kodi.SubtitleAssignmentConfigures | autosubs.py:128-133 | after set_subtrack the file has subtitle settings exactly when the chosen stream is not -1, and whether it has audio settings is unchanged |
| Kodi.AudioAssignmentConfigures | autosubs.py:135-138 | after set_atrack the file has audio settings exactly when the chosen stream is not -1, and whether it has subtitle settings is unchanged |
| Kodi.DefaultAudioLang | autosubs.py:101-126 | a missing row or -1 reads as stream 0; no languages or a stream past the end give None; a stream in range gives its language; a negative stream counts from the end, and below minus the length it raises |
| Kodi.UnsetAudioIsNoRow | autosubs.py:104-107 | a row with AudioStream -1 gives the same default audio language as no row, namely the first language |
| Kodi.DefaultAudioLangOnlyReadsAudioStream | autosubs.py:101-126 | the default audio language depends on the settings only through the file's audio stream |
| Kodi.ChosenAudioIsDefaultLang | autosubs.py:199-214 | after set_atrack stores stream k of the file, k's language is the file's default audio language |
| Kodi.GetFid | autosubs.py:93-99 | None exactly when no movie path ends (ignoring ASCII case) with the file name; otherwise the id of the first movie that does |
| Kodi.KodiManager.constructor | autosubs.py:87-90 | the manager starts from the given tables |
| Kodi.KodiManager.InsertSettingsRow | autosubs.py:141-175 | the insert then each update in order leave exactly one new row, the default row, for the id |
| Kodi.KodiManager.SetSubtrack | autosubs.py:177-197 | returns false exactly when not forced and another subtitle stream is stored; then the table is unchanged, otherwise it becomes the table after the subtitle choice |
| Kodi.KodiManager.SetAtrack | autosubs.py:199-214 | returns false exactly when not forced and another audio stream is stored; then the table is unchanged, otherwise it becomes the table after the audio choice |
| Autosubs.TypedIndex | autosubs.py:351-355 | a typed answer selects a position exactly when it is decimal and below the list length, and then selects its value |
| Autosubs.ChooseSubtrack | autosubs.py:342-356 | an empty answer accepts the proposal when the audio language is known and cancels otherwise; any other answer is a typed position within the subtitle list |
| Autosubs.ChooseAtrack | autosubs.py:359-367 | an answer selects an audio track exactly when it is a decimal position within the audio list, and then selects the value typed |
| Autosubs.TypedPositionIsChosen | autosubs.py:350-356 | typing the digits of a position in the list chooses exactly that position, for subtitle and audio prompts |
| Autosubs.TypedPositionPastEndCancels | autosubs.py:350-356 | typing a position past the end of the list cancels, for subtitle and audio prompts |
| Autosubs.ExternalSubtrack | autosubs.py:376-383 | the sidecar placeholder is in the user's language, neither forced nor default, and numbered by the audio-track count |
| Autosubs.InjectExternalSubtrack | autosubs.py:373-388 | with a sidecar, the placeholder is appended to the subtitles and becomes the preferred track; without one, nothing changes |
| Autosubs.SubtitleInput | autosubs.py:342-349 | the definition of the one-line quiet test: quiet mode asks nothing and answers "" ; otherwise the typed answer is used |
| Autosubs.QuietTakesProposal | autosubs.py:342-351 | in quiet mode the proposal is chosen when the default audio language is known, and nothing is chosen otherwise |
| Autosubs.SubtitleWrite | autosubs.py:392-408 | a stream is written only when the file has subtitles, its default audio is not in the user's language and a proposal exists, and it is then the answer's choice; it never overrides a different stored stream unless the user confirmed outside quiet mode; whenever a choice exists and meets no conflict (or the overwrite is confirmed outside quiet mode) it is written |
| Autosubs.AudioWrite | autosubs.py:419-432 | a stream is written only when extra audio tracks exist, and it is then the typed position; it never overrides a different stored stream unless the overwrite is confirmed; whenever a typed position meets no conflict (or the overwrite is confirmed) it is written |
| Autosubs.AcceptedSidecarIsAudioCount | autosubs.py:381 | accepting the proposed sidecar makes the subtitle stream written the number of audio tracks |
| Autosubs.UpdateSubtitles | autosubs.py:370-410 | after the sidecar injection, the stream written is the one SubtitleWrite gives for the film's tracks, proposal, default audio track and the stream stored before; the table becomes the one set_subtrack leaves for it, and is unchanged when nothing is written |
| Autosubs.UpdateAudio | autosubs.py:417-432 | the stream written is the one AudioWrite gives for the film's extra tracks, audio-track count and the stream stored before; the table becomes the one set_atrack leaves for it, and is unchanged when nothing is written |
| Autosubs.SubtitleWriteStep | autosubs.py:447-460 | a subtitle write allowed by the fastmode and updateonly gates, and by quiet mode's no-overwrite rule, keeps every flag guarantee and touches only that file's row |
| Autosubs.AudioWriteStep | autosubs.py:462-469 | an audio write, which happens only with --audio and without --updateonly, keeps every flag guarantee and touches only that file's row |
| Autosubs.FastmodeRaises | autosubs.py:121-126 | under --fast (the gate test at line 449), get_default_audio_lang raises IndexError exactly when the file has audio languages and its stored audio stream is a negative index past the front of them; a file without a settings row never raises |
| Autosubs.SubtitlesAllowed | autosubs.py:447-454 | the subtitle gate is open without --fast and --updateonly; --updateonly closes it for a file with subtitle settings; --fast closes it for a file whose default audio is in the user's language; for a file without a settings row, it is closed exactly when --fast meets a first audio language that is the user's |
| Autosubs.AudioAllowed | autosubs.py:462-465 | the definition of the audio gate: open exactly with --audio and without --updateonly, because `has_audio_settings` is never called and the bound method is always true; the consequence that --updateonly never changes an audio stream is the UpdateonlyGuarded guarantee, which RunGuarded and Run prove over the batch |
| Autosubs.SubtitleChoiceFor | autosubs.py:370-410 | for an analysed file: nothing is written when its default audio is in the user's language or when it has neither subtitles nor a sidecar; a stream written without a confirmed overwrite never replaces a different stored one; an accepted sidecar on a file with audio in another known language and no conflicting stored stream is written as the audio-track count |
| Autosubs.AudioChoiceFor | autosubs.py:417-432 | for an analysed file: a written stream is a position in its audio list; it never replaces a different stored one without a confirmed overwrite; nothing is written when there is no extra audio track |
| Autosubs.SubtitleStep | autosubs.py:456-460 | a closed subtitle gate keeps the table; an open one stores the chosen stream with subtitles on, and keeps the table when nothing is chosen; audio streams and every other row are kept |
| Autosubs.AudioStep | autosubs.py:462-471 | a closed audio gate keeps the table; an open one stores the chosen stream, and keeps the table when nothing is chosen; subtitle streams and subtitle flags, and every other row, are kept |
| Autosubs.SubtitleStepIsFileStep | autosubs.py:447-460 | the subtitle half of an iteration keeps every flag guarantee and touches only that file's row |
| Autosubs.AudioStepIsFileStep | autosubs.py:462-471 | the audio half of an iteration keeps every flag guarantee and touches only that file's row |
| Autosubs.FileOutcome | autosubs.py:440-471 | an unknown file, or id 0, leaves the table as it is and raises nothing; when the iteration raises, nothing was written |
| Autosubs.FileOutcomeCrashes | autosubs.py:446-471 | a known file raises exactly when --fast meets an audio stream index out of range, or an open gate meets a file without audio tracks |
| Autosubs.OpenGatesWrite | autosubs.py:446-471 | for a known file that does not raise: with the subtitle gate open, the stream update_subtitles chooses is stored with subtitles on; with the audio gate open, the stream update_audio chooses is stored; when each gate is closed or chooses nothing, the table is kept |
| Autosubs.FileOutcomeStep | autosubs.py:446-471 | one iteration touches only the row of the file's id, within every flag guarantee; an unknown file changes nothing |
| Autosubs.FastmodeKeepsSubtitles | autosubs.py:447-451 | under --fast, a file whose default audio is in the user's language keeps its subtitle columns in its own iteration, whether or not --audio is given |
| Autosubs.PerformUpdates | autosubs.py:456-471 | with the subtitle gate given: raises exactly when an open gate meets a file without audio tracks, and then writes nothing; otherwise the table is the subtitle step followed by the audio step |
| Autosubs.UpdateAudioGated | autosubs.py:462-471 | the audio gate is --audio without --updateonly; it raises exactly when the gate is open and there is no FileManager yet and no audio track, and then writes nothing; otherwise the table is the audio step's |
| Autosubs.UpdateFile | autosubs.py:440-471 | one file: resolves its id, raises exactly when FileOutcome does and then leaves the table as it was, and otherwise leaves exactly the table FileOutcome gives |
| Autosubs.Fold | autosubs.py:437-471 | the loop of _run over the first n files, each handed the table the ones before it left, stopping at the first that raises: with no file the table is kept and nothing raises |
| Autosubs.FoldNoCrashBefore | autosubs.py:437-471 | a batch that does not raise raised on none of its files: every earlier prefix did not raise, and each file did not raise on the table the files before it left |
| Autosubs.RunOutcome | autosubs.py:437-471 | the loop of _run with FileOutcome as the iteration: with no file the table is kept and nothing raises; a batch that does not raise raised on none of its files, each on the table the files before it left |
| Autosubs.CrashSticks | autosubs.py:437-471 | once the first k files have raised, the files after them change nothing |
| Autosubs.RunStopsAtFirstCrash | autosubs.py:437-471 | a batch that raises has a first failing file, and its table is the one the files before that file left |
| Autosubs.FoldGuarded | autosubs.py:437-471 | when each iteration keeps the flag guarantees for its file's id and leaves others alone, the whole batch keeps them for every id |
| Autosubs.FoldUntouched | autosubs.py:437-471 | when each iteration leaves the row of an id its file does not resolve to alone, a batch none of whose files resolves to that id leaves its row alone |
| Autosubs.RunGuarded | autosubs.py:437-471 | over the first n files: every flag guarantee for every id, and rows of ids none of the files resolves to are untouched |
| Autosubs.Run | autosubs.py:434-471 | over the batch: the table and the crash flag are the ones RunOutcome gives (FileOutcome folded over the files in order, stopping at the first that raises); a crash comes at a first failing file and leaves the table the earlier files left;<br>• no audio change without --audio or under --updateonly;<br>• quiet mode never replaces a chosen subtitle stream;<br>• --updateonly keeps configured subtitles;<br>• --fast keeps the subtitles of files whose default audio is in the user's language, when audio updates are off;<br>• rows of files not in the batch are untouched |
| Scenarios.ForcedBeatsEarlierDefault | autosubs.py:64-74 | with a default track listed before a forced one, the forced one is preferred |
| Scenarios.SdhTitle | autosubs.py:61 | "English SDH" counts as an SDH title |
| Scenarios.PlainTitle | autosubs.py:61 | "English" does not count as an SDH title |
| Scenarios.SdhNarrowing | autosubs.py:60-63 | of an SDH and a plain track the plain one is preferred; an SDH track alone is kept |
| Scenarios.QuietWritesForced | autosubs.py:392-408 | for a forced and a default English subtitle under French audio, the forced track is the proposal and quiet mode writes stream 0 |
| Scenarios.EndToEnd | autosubs.py:370-410 | a French film with a forced and a default English subtitle and no settings row: quiet mode stores stream 0 with subtitles on and the audio stream unset |
| Scenarios.SidecarOverride | autosubs.py:373-410 | a film with only a German subtitle and a sidecar .srt: the sidecar becomes the proposal, numbered 1 by the one audio track, and stream 1 is stored |

## Left out

- Command-line parsing and the pycountry lookup behind `argparse_langcode` are left out. The language arrives as its alpha-2 and alpha-3 codes in `Args`.
- `MediaInfo.parse` is a foreign library. The audio and text track lists are inputs.
- `os.path.exists` touches the file system, so it is modelled as a set of existing paths.
- SQL text, the sqlite connection, cursors, commits and transactions are not modelled. The tables are maps and sequences.
- `getfid` is modelled as a suffix match ignoring ASCII case, which is what the pattern `"%name"` means with SQLite's LIKE. The `%` and `_` wildcards inside a file name, and quotes breaking the query, are not modelled.
- NULL values read from the database (a NULL AudioStream or language) are not modelled. The stream columns are integers and languages are strings.
- The float-valued default columns are opaque values in `profile`, kept as their literal text.
- String handling is exact only for ASCII. `lower()` folds A-Z and `isdecimal()` accepts 0-9; Unicode case folding and other decimal digits are not modelled.
- `print` and `input` are not modelled. The answers a user would type are inputs (`Answers`), one set per file, and `choose_atrack` and the overwrite prompts are read from them.
- `live`, `_listen_json` and `run` are left out. They cover the websocket, JSON-RPC, blocking receives and KeyboardInterrupt handling.
- Pymediainfo stream identifiers are taken to be integers. The `int(...)` conversion at line 351 is the identity here.
- Autosubs.Run: only the exceptions that the decision logic itself can raise are modelled. Database and MediaInfo failures are not.
