/**
 * Tracks and the FileManager heuristics (autosubs.py, class FileManager):
 * which audio track Kodi plays by default, which other audio tracks might
 * deserve to be the default, which subtitle track suits the user's
 * language, and whether a sidecar .srt file sits next to the media file.
 */
module Tracks {
  import opened Optional
  import opened Lists
  import opened Text

  /**
   * One track as pymediainfo reports it. `isDefault` and `isForced` stand
   * for the attributes `default == "Yes"` and `forced == "Yes"`; an absent
   * attribute is `None`. pymediainfo compares tracks by all their
   * attributes, which is what datatype equality does.
   */
  datatype Track = Track(
    streamIdentifier: int,
    language: Option<string>,
    title: Option<string>,
    isDefault: bool,
    isForced: bool,
    codecId: Option<string>)

  predicate MarkedDefault(t: Track)
  {
    t.isDefault
  }

  predicate MarkedForced(t: Track)
  {
    t.isForced
  }

  /** `track.title or ""`. */
  function TitleText(t: Track): string
  {
    if t.title.Some? then t.title.value else ""
  }

  // ---------------------------------------------------------------------
  // get_default_audiotrack
  // ---------------------------------------------------------------------

  /** The first track marked default, else the first track listed. */
  function DefaultAudiotrack(audiotracks: seq<Track>): (t: Track)
    requires |audiotracks| > 0
    ensures t in audiotracks
    ensures (exists i :: 0 <= i < |audiotracks| && audiotracks[i].isDefault) ==>
              exists k :: IsFirst(audiotracks, MarkedDefault, k) && t == audiotracks[k]
    ensures (forall i :: 0 <= i < |audiotracks| ==> !audiotracks[i].isDefault) ==> t == audiotracks[0]
  {
    var markedDefault := Filter(audiotracks, MarkedDefault);
    FilterHead(audiotracks, MarkedDefault);
    if markedDefault != [] then markedDefault[0] else audiotracks[0]
  }

  // ---------------------------------------------------------------------
  // get_extra_audiotracks
  // ---------------------------------------------------------------------

  /**
   * The title looks like a commentary: `title and "commentary" in
   * title.lower()`. The truthiness test only rules out a missing title:
   * an empty one cannot contain the word anyway.
   */
  predicate IsCommentary(t: Track): (r: bool)
    ensures r <==> t.title.Some? && Contains(Lower(t.title.value), "commentary")
    ensures t.title.None? ==> !r
  {
    t.title.Some? && t.title.value != "" && Contains(Lower(t.title.value), "commentary")
  }

  /** The test a track passes to be an extra candidate next to `defaultAudiotrack`. */
  function ExtraTo(defaultAudiotrack: Track): Track -> bool
  {
    (t: Track) => t != defaultAudiotrack && !IsCommentary(t)
  }

  /** The extra candidates: every track that is neither the default nor a commentary. */
  function Extras(audiotracks: seq<Track>, defaultAudiotrack: Track): seq<Track>
  {
    Filter(audiotracks, ExtraTo(defaultAudiotrack))
  }

  /** What the candidate list promises: order kept, default and commentaries out, the rest in. */
  lemma ExtrasProperties(audiotracks: seq<Track>, defaultAudiotrack: Track)
    ensures IsSubsequence(Extras(audiotracks, defaultAudiotrack), audiotracks)
    ensures defaultAudiotrack !in Extras(audiotracks, defaultAudiotrack)
    ensures forall i :: 0 <= i < |Extras(audiotracks, defaultAudiotrack)| ==>
              !IsCommentary(Extras(audiotracks, defaultAudiotrack)[i])
    ensures forall i :: 0 <= i < |audiotracks| && audiotracks[i] != defaultAudiotrack && !IsCommentary(audiotracks[i]) ==>
              audiotracks[i] in Extras(audiotracks, defaultAudiotrack)
  {
    FilterIsSubsequence(audiotracks, ExtraTo(defaultAudiotrack));
  }

  /** The loop of get_extra_audiotracks, appending each track that is neither skipped case. */
  method ExtraAudiotracks(audiotracks: seq<Track>, defaultAudiotrack: Track) returns (extra: seq<Track>)
    ensures extra == Extras(audiotracks, defaultAudiotrack)
    ensures IsSubsequence(extra, audiotracks)
    ensures defaultAudiotrack !in extra
    ensures forall i :: 0 <= i < |extra| ==> !IsCommentary(extra[i])
    ensures forall i :: 0 <= i < |audiotracks| && audiotracks[i] != defaultAudiotrack && !IsCommentary(audiotracks[i]) ==>
              audiotracks[i] in extra
  {
    extra := [];
    for i := 0 to |audiotracks|
      invariant extra == Extras(audiotracks[..i], defaultAudiotrack)
    {
      var atrack := audiotracks[i];
      assert audiotracks[..i + 1] == audiotracks[..i] + [atrack];
      FilterSnoc(audiotracks[..i], atrack, ExtraTo(defaultAudiotrack));
      if atrack == defaultAudiotrack {
        continue;
      }
      if IsCommentary(atrack) {
        continue;
      }
      extra := extra + [atrack];
    }
    assert audiotracks[..|audiotracks|] == audiotracks;
    ExtrasProperties(audiotracks, defaultAudiotrack);
  }

  // ---------------------------------------------------------------------
  // get_preferred_subtrack
  // ---------------------------------------------------------------------

  function InLanguage(lang: string): Track -> bool
  {
    (t: Track) => t.language == Some(lang)
  }

  /** `"SDH" not in (title or "")`, case-sensitive: a track without a title passes. */
  predicate NotSDH(t: Track): (r: bool)
    ensures t.title.None? ==> r
    ensures t.title.Some? ==> (r <==> !Contains(t.title.value, "SDH"))
  {
    !Contains(TitleText(t), "SDH")
  }

  /**
   * The candidates the priority chain chooses from: the tracks in `lang`,
   * without the SDH ones when there is more than one candidate and at
   * least one of them is not SDH.
   */
  function SubtitlePool(subtracks: seq<Track>, lang: string): (pool: seq<Track>)
    ensures pool == [] <==> forall i :: 0 <= i < |subtracks| ==> subtracks[i].language != Some(lang)
    ensures forall i :: 0 <= i < |pool| ==> pool[i].language == Some(lang)
    ensures IsSubsequence(pool, subtracks)
    ensures var local := Filter(subtracks, InLanguage(lang));
            if |local| > 1 && exists i :: 0 <= i < |local| && NotSDH(local[i])
            then (forall i :: 0 <= i < |pool| ==> NotSDH(pool[i])) &&
                 (forall i :: 0 <= i < |local| && NotSDH(local[i]) ==> local[i] in pool)
            else pool == local
  {
    var local := Filter(subtracks, InLanguage(lang));
    FilterHead(subtracks, InLanguage(lang));
    FilterIsSubsequence(subtracks, InLanguage(lang));
    if |local| > 1 then
      var clean := Filter(local, NotSDH);
      FilterHead(local, NotSDH);
      FilterIsSubsequence(local, NotSDH);

      SubsequenceTransitive(clean, local, subtracks);
      if clean != [] then clean else local
    else
      local
  }

  /**
   * When the SDH tracks are dropped, every other track in `lang` keeps its
   * multiplicity and every SDH track is gone.
   */
  lemma SubtitlePoolCounts(subtracks: seq<Track>, lang: string)
    requires |Filter(subtracks, InLanguage(lang))| > 1
    requires exists i :: 0 <= i < |Filter(subtracks, InLanguage(lang))| && NotSDH(Filter(subtracks, InLanguage(lang))[i])
    ensures forall t :: multiset(SubtitlePool(subtracks, lang))[t] ==
              if NotSDH(t) then multiset(Filter(subtracks, InLanguage(lang)))[t] else 0
  {
    var local := Filter(subtracks, InLanguage(lang));
    FilterHead(local, NotSDH);
    FilterCounts(local, NotSDH);
  }

  /** The preferred track in `lang`: forced first, then default, then first listed. */
  function PreferredSubtrack(subtracks: seq<Track>, lang: string): (r: Option<Track>)
    ensures r.None? <==> forall i :: 0 <= i < |subtracks| ==> subtracks[i].language != Some(lang)
    ensures r.Some? ==> r.value in subtracks && r.value.language == Some(lang)
    ensures var pool := SubtitlePool(subtracks, lang);
            (exists i :: 0 <= i < |pool| && pool[i].isForced) ==>
              exists k :: IsFirst(pool, MarkedForced, k) && r == Some(pool[k])
    ensures var pool := SubtitlePool(subtracks, lang);
            (forall i :: 0 <= i < |pool| ==> !pool[i].isForced) && (exists i :: 0 <= i < |pool| && pool[i].isDefault) ==>
              exists k :: IsFirst(pool, MarkedDefault, k) && r == Some(pool[k])
    ensures var pool := SubtitlePool(subtracks, lang);
            pool != [] && (forall i :: 0 <= i < |pool| ==> !pool[i].isForced && !pool[i].isDefault) ==>
              r == Some(pool[0])
  {
    var pool := SubtitlePool(subtracks, lang);
    if pool == [] then None
    else
      SubsequenceMembers(pool, subtracks);
      var markedForced := Filter(pool, MarkedForced);
      FilterHead(pool, MarkedForced);
      if markedForced != [] then Some(markedForced[0])
      else
        var markedDefault := Filter(pool, MarkedDefault);
        FilterHead(pool, MarkedDefault);
        if markedDefault != [] then Some(markedDefault[0]) else Some(pool[0])
  }

  lemma {:induction false} SubsequenceTransitive<T>(a: seq<T>, b: seq<T>, c: seq<T>)
    requires IsSubsequence(a, b) && IsSubsequence(b, c)
    ensures IsSubsequence(a, c)
    decreases |c|
  {
    if a != [] && c != [] {
      if b[0] == c[0] && IsSubsequence(b[1..], c[1..]) {
        if a[0] == b[0] && IsSubsequence(a[1..], b[1..]) {
          SubsequenceTransitive(a[1..], b[1..], c[1..]);
        } else {
          SubsequenceTransitive(a, b[1..], c[1..]);
        }
      } else {
        SubsequenceTransitive(a, b, c[1..]);
      }
    }
  }

  lemma {:induction false} SubsequenceMembers<T>(a: seq<T>, b: seq<T>)
    requires IsSubsequence(a, b)
    ensures forall i :: 0 <= i < |a| ==> a[i] in b
    decreases |b|
  {
    if a != [] {
      if a[0] == b[0] && IsSubsequence(a[1..], b[1..]) {
        SubsequenceMembers(a[1..], b[1..]);
        assert forall i :: 1 <= i < |a| ==> a[i] == a[1..][i - 1];
      } else {
        SubsequenceMembers(a, b[1..]);
      }
    }
  }

  // ---------------------------------------------------------------------
  // has_external_subtrack
  // ---------------------------------------------------------------------

  /** `fpath + ".srt"`, e.g. movie.mkv.srt. */
  function LongSidecarPath(fpath: string): string
  {
    fpath + ".srt"
  }

  /** `fpath[:-3] + "srt"`, e.g. movie.srt: the last three characters replaced. */
  function ShortSidecarPath(fpath: string): (r: string)
    ensures |fpath| >= 3 ==> |r| == |fpath| && r[..|fpath| - 3] == fpath[..|fpath| - 3]
    ensures |fpath| < 3 ==> r == "srt"
    ensures EndsWith(r, "srt")
  {
    (if |fpath| >= 3 then fpath[..|fpath| - 3] else "") + "srt"
  }

  /** Whether either sidecar name is among the files `onDisk` (the `exists` checks). */
  predicate HasExternalSubtrack(fpath: string, onDisk: set<string>): (r: bool)
    ensures fpath + ".srt" in onDisk ==> r
    ensures |fpath| >= 3 && fpath[..|fpath| - 3] + "srt" in onDisk ==> r
    ensures r ==> exists name :: name in onDisk && EndsWith(name, "srt")
    ensures r <==> LongSidecarPath(fpath) in onDisk || ShortSidecarPath(fpath) in onDisk
    ensures |fpath| < 3 ==> (r <==> fpath + ".srt" in onDisk || "srt" in onDisk)
  {
    LongSidecarPath(fpath) in onDisk || ShortSidecarPath(fpath) in onDisk
  }

  // ---------------------------------------------------------------------
  // class FileManager
  // ---------------------------------------------------------------------

  /**
   * The analysis of one media file. The track lists are what
   * `MediaInfo.parse` reports (audio and text tracks, in container order),
   * and `onDisk` is the set of paths the file system has.
   * `update_subtitles` later appends to `subtracks` and reassigns
   * `preferredSubtrack`; the other fields never change.
   */
  class FileManager {
    const fpath: string
    const audiotracks: seq<Track>
    var subtracks: seq<Track>
    const defaultAudiotrack: Track
    const extraAudiotracks: seq<Track>
    var preferredSubtrack: Option<Track>
    const externalSubtrack: bool

    constructor (fpath: string, defaultlangAa: string, audiotracks: seq<Track>, subtracks: seq<Track>, onDisk: set<string>)
      requires |audiotracks| > 0
      ensures this.fpath == fpath && this.audiotracks == audiotracks && this.subtracks == subtracks
      ensures defaultAudiotrack == DefaultAudiotrack(audiotracks)
      ensures extraAudiotracks == Extras(audiotracks, defaultAudiotrack)
      ensures preferredSubtrack == PreferredSubtrack(subtracks, defaultlangAa)
      ensures externalSubtrack == HasExternalSubtrack(fpath, onDisk)
    {
      this.fpath := fpath;
      this.audiotracks := audiotracks;
      this.subtracks := subtracks;
      var defaultTrack := DefaultAudiotrack(audiotracks);
      defaultAudiotrack := defaultTrack;
      var extra := ExtraAudiotracks(audiotracks, defaultTrack);
      extraAudiotracks := extra;
      preferredSubtrack := PreferredSubtrack(subtracks, defaultlangAa);
      externalSubtrack := HasExternalSubtrack(fpath, onDisk);
    }
  }
}
