/**
 * The artifact store the transcription scripts share: the working directory
 * as a map from file name to (contents, ctime), the timestamped audio names,
 * the extension taken from an upload's MIME type, the transcript sidecar
 * name, and the "newest audio file" query.
 */
module Artifacts {
  import opened Wrappers
  import opened Text
  import Timestamp
  import Selection

  type Byte = bv8

  /** What a file in the working directory holds: uploaded or recorded bytes, or a transcript. */
  datatype FileData = Audio(bytes: seq<Byte>) | TranscriptText(text: string)

  /** A directory entry: contents and the creation time `os.path.getctime` reports. */
  datatype Entry = Entry(data: FileData, ctime: real)

  /** One reading of the clock: the local time `datetime.now()` gives and the ctime a write at that moment gets. */
  datatype Instant = Instant(stamp: Timestamp.DateTime, ctime: real)

  /** `max` over an empty list raises `ValueError`: no audio file to work on. */
  datatype StoreError = NoArtifact

  /** The prefix the newest-file filter tests (`f.startswith("audio")`). */
  const CandidatePrefix := "audio"
  /** Recordings from the microphone widget are always saved with this extension. */
  const RecordingExtension := "wav"

  /**
   * `f"audio_{timestamp}.{file_extension}"`: `audio_`, then the 15 characters
   * that read back as the save instant, a dot, and the extension.
   */
  function ArtifactName(stamp: Timestamp.DateTime, ext: string): (name: string)
    requires Timestamp.Valid(stamp)
    ensures StartsWith(name, CandidatePrefix)
    ensures |name| == 22 + |ext| && name[..6] == "audio_" && name[21] == '.' && name[22..] == ext
    ensures Timestamp.Parse(name[6..21]) == Some(stamp)
  {
    var f := Timestamp.Format(stamp);
    Timestamp.ParseFormat(stamp);
    var name := "audio_" + f + "." + ext;
    assert name[6..21] == f;
    name
  }

  /** The part of an artifact name before its extension. */
  function ArtifactStem(stamp: Timestamp.DateTime): (stem: string)
    requires Timestamp.Valid(stamp)
    ensures |stem| == 21 && '.' !in stem
  {
    var f := Timestamp.Format(stamp);
    assert forall i :: 0 <= i < 15 ==> f[i] != '.' by {
      forall i | 0 <= i < 15 ensures f[i] != '.' {
        if i < 8 { assert f[i] == f[..8][i]; } else if i > 8 { assert f[i] == f[9..][i - 9]; }
      }
    }
    "audio_" + f
  }

  lemma ArtifactNameSplit(stamp: Timestamp.DateTime, ext: string)
    requires Timestamp.Valid(stamp)
    ensures ArtifactName(stamp, ext) == ArtifactStem(stamp) + ['.'] + ext
  {
  }

  /**
   * Two saves produce the same file name exactly when they fall in the same
   * second and use the same extension: a second save in that second
   * overwrites the first.
   */
  lemma ArtifactNameInjective(t1: Timestamp.DateTime, e1: string, t2: Timestamp.DateTime, e2: string)
    requires Timestamp.Valid(t1) && Timestamp.Valid(t2)
    ensures ArtifactName(t1, e1) == ArtifactName(t2, e2) <==> t1 == t2 && e1 == e2
  {
    var n1, n2 := ArtifactName(t1, e1), ArtifactName(t2, e2);
    if n1 == n2 {
      assert n1[6..21] == Timestamp.Format(t1);
      assert n2[6..21] == Timestamp.Format(t2);
      Timestamp.FormatInjective(t1, t2);
    }
  }

  /** A split yields a single piece exactly when the separator does not occur. */
  lemma SplitSingle(s: string, sep: char)
    ensures |Split(s, sep)| == 1 <==> sep !in s
  {
    JoinSplit(s, sep);
    if sep !in s { SplitNoSep(s, sep); }
  }

  /** `audio_file.type.split('/')[1]`: `None` is the `IndexError` of a type without `/`. */
  function MimeSubtype(mime: string): (r: Option<string>)
    ensures r.None? <==> '/' !in mime
    ensures r.Some? ==> '/' !in r.value
  {
    SplitSingle(mime, '/');
    JoinSplit(mime, '/');
    var parts := Split(mime, '/');
    if |parts| < 2 then None else Some(parts[1])
  }

  /** For a `type/subtype` MIME type (section 5.1 of RFC 2045) the extension is the subtype. */
  lemma MimeSubtypeOfType(kind: string, subtype: string)
    requires '/' !in kind && '/' !in subtype
    ensures MimeSubtype(kind + "/" + subtype) == Some(subtype)
  {
    SplitAt(kind, '/', subtype);
    SplitNoSep(kind, '/');
    SplitNoSep(subtype, '/');
  }

  /**
   * `f"{audio_file_path.split('.')[0]}.txt"`: the transcript sidecar and
   * download name. The stem is the name up to its first dot, or the whole
   * name when it has none, whatever the name looks like.
   */
  function TranscriptName(audioName: string): (r: string)
    ensures |r| >= 4 && r[|r| - 4..] == ".txt"
    ensures StartsWith(audioName, r[..|r| - 4]) && '.' !in r[..|r| - 4]
    ensures '.' in audioName ==> |r| - 4 < |audioName| && audioName[|r| - 4] == '.'
    ensures '.' !in audioName ==> r == audioName + ".txt"
  {
    var stem := Before(audioName, '.');
    assert (stem + ".txt")[..|stem|] == stem;
    stem + ".txt"
  }

  /** The sidecar of an artifact is the same name with extension `txt`, whatever the audio extension. */
  lemma TranscriptNameOfArtifact(stamp: Timestamp.DateTime, ext: string)
    requires Timestamp.Valid(stamp)
    ensures TranscriptName(ArtifactName(stamp, ext)) == ArtifactName(stamp, "txt")
  {
    ArtifactNameSplit(stamp, ext);
    BeforeJoined(ArtifactStem(stamp), '.', ext);
  }

  /** The sidecar replaces the audio file itself exactly when the audio extension is `txt`. */
  lemma TranscriptNameDistinct(stamp: Timestamp.DateTime, ext: string)
    requires Timestamp.Valid(stamp)
    ensures TranscriptName(ArtifactName(stamp, ext)) == ArtifactName(stamp, ext) <==> ext == "txt"
  {
    TranscriptNameOfArtifact(stamp, ext);
    ArtifactNameInjective(stamp, "txt", stamp, ext);
  }

  /** Names the newest-file filter keeps. */
  predicate IsCandidate(name: string)
  {
    StartsWith(name, CandidatePrefix)
  }

  /** `[f for f in listing if f.startswith("audio")]`. */
  function Candidates(listing: seq<string>): (c: seq<string>)
    ensures forall n :: n in c <==> n in listing && IsCandidate(n)
  {
    if |listing| == 0 then []
    else (if IsCandidate(listing[0]) then [listing[0]] else []) + Candidates(listing[1..])
  }

  /** Every listed name is a file of the directory. */
  predicate Listed(listing: seq<string>, files: map<string, Entry>)
  {
    forall i :: 0 <= i < |listing| ==> listing[i] in files
  }

  /** `listing` is an `os.listdir` of `files`: exactly its names, in some order. */
  predicate IsListingOf(listing: seq<string>, files: map<string, Entry>)
  {
    Listed(listing, files) && forall n :: n in files ==> n in listing
  }

  lemma CandidatesListed(listing: seq<string>, files: map<string, Entry>)
    requires Listed(listing, files)
    ensures Listed(Candidates(listing), files)
  {
    var c := Candidates(listing);
    forall i | 0 <= i < |c| ensures c[i] in files {
      assert c[i] in listing;
      var j :| 0 <= j < |listing| && listing[j] == c[i];
    }
  }

  function Ctimes(names: seq<string>, files: map<string, Entry>): (ts: seq<real>)
    requires Listed(names, files)
    ensures |ts| == |names| && forall i :: 0 <= i < |names| ==> ts[i] == files[names[i]].ctime
  {
    seq(|names|, i requires 0 <= i < |names| => files[names[i]].ctime)
  }

  /** `max([f for f in os.listdir(".") if f.startswith("audio")], key=os.path.getctime)`. */
  function Newest(files: map<string, Entry>, listing: seq<string>): (r: Result<string, StoreError>)
    requires Listed(listing, files)
    ensures r.Err? <==> forall i :: 0 <= i < |listing| ==> !IsCandidate(listing[i])
    ensures r.Ok? ==> r.value in listing && r.value in files && IsCandidate(r.value)
    ensures r.Ok? ==> forall i :: 0 <= i < |listing| && IsCandidate(listing[i]) ==>
                        files[listing[i]].ctime <= files[r.value].ctime
  {
    var c := Candidates(listing);
    CandidatesListed(listing, files);
    var ts := Ctimes(c, files);
    match Selection.ArgMax(ts)
    case None =>
      assert forall i :: 0 <= i < |listing| ==> (IsCandidate(listing[i]) ==> listing[i] in c);
      Err(NoArtifact)
    case Some(k) =>
      assert c[k] in listing;
      var w :| 0 <= w < |listing| && listing[w] == c[k];
      assert forall i :: 0 <= i < |listing| && IsCandidate(listing[i]) ==>
               files[listing[i]].ctime <= files[c[k]].ctime by {
        forall i | 0 <= i < |listing| && IsCandidate(listing[i])
          ensures files[listing[i]].ctime <= files[c[k]].ctime
        {
          var m :| 0 <= m < |c| && c[m] == listing[i];
          assert ts[m] <= ts[k];
        }
      }
      Ok(c[k])
  }

  /** Where the `i`-th candidate sits in the listing: every candidate before it in the listing is an earlier candidate. */
  lemma {:induction false} LocateCandidate(listing: seq<string>, i: nat) returns (k: nat)
    requires i < |Candidates(listing)|
    ensures k < |listing| && listing[k] == Candidates(listing)[i]
    ensures Candidates(listing[..k]) == Candidates(listing)[..i]
  {
    var head := if IsCandidate(listing[0]) then [listing[0]] else [];
    var c := Candidates(listing);
    assert c == head + Candidates(listing[1..]);
    if IsCandidate(listing[0]) && i == 0 {
      k := 0;
      assert listing[..0] == [];
    } else {
      var k' := LocateCandidate(listing[1..], i - |head|);
      k := k' + 1;
      assert listing[..k][1..] == listing[1..][..k'];
      assert Candidates(listing[..k]) == head + Candidates(listing[1..][..k']);
    }
  }

  /** Ties go to the candidate listed first: every candidate listed before the chosen one is strictly older. */
  lemma NewestFirstAmongTies(files: map<string, Entry>, listing: seq<string>)
    requires Listed(listing, files) && Newest(files, listing).Ok?
    ensures exists k :: 0 <= k < |listing| && listing[k] == Newest(files, listing).value &&
                        (forall j :: 0 <= j < k && IsCandidate(listing[j]) ==>
                                       files[listing[j]].ctime < files[listing[k]].ctime)
  {
    var c := Candidates(listing);
    CandidatesListed(listing, files);
    var ts := Ctimes(c, files);
    var i := Selection.ArgMax(ts).value;
    var k := LocateCandidate(listing, i);
    forall j | 0 <= j < k && IsCandidate(listing[j])
      ensures files[listing[j]].ctime < files[listing[k]].ctime
    {
      assert listing[j] in listing[..k];
      var m :| 0 <= m < |Candidates(listing[..k])| && Candidates(listing[..k])[m] == listing[j];
      assert c[m] == listing[j] && m < i;
      assert ts[m] < ts[i];
    }
  }

  /** A file written after every other one is what the next newest query returns, whatever its name says. */
  lemma NewestAfterWrite(files: map<string, Entry>, listing: seq<string>, name: string, e: Entry)
    requires IsListingOf(listing, files[name := e])
    requires IsCandidate(name)
    requires forall n :: n in files && n != name ==> files[n].ctime < e.ctime
    ensures Newest(files[name := e], listing) == Ok(name)
  {
    var after := files[name := e];
    var r := Newest(after, listing);
    var i :| 0 <= i < |listing| && listing[i] == name;
    assert r.Ok?;
    var j :| 0 <= j < |listing| && listing[j] == r.value;
    assert after[listing[i]].ctime <= after[r.value].ctime;
  }

  /**
   * The prefix filter also keeps transcript sidecars: right after a sidecar is
   * written, the newest query selects the sidecar rather than any audio file.
   */
  lemma SidecarSelectedAsNewest(files: map<string, Entry>, listing: seq<string>,
                                stamp: Timestamp.DateTime, ext: string, e: Entry)
    requires Timestamp.Valid(stamp)
    requires IsListingOf(listing, files[TranscriptName(ArtifactName(stamp, ext)) := e])
    requires forall n :: n in files ==> files[n].ctime < e.ctime
    ensures Newest(files[TranscriptName(ArtifactName(stamp, ext)) := e], listing)
            == Ok(ArtifactName(stamp, "txt"))
  {
    TranscriptNameOfArtifact(stamp, ext);
    NewestAfterWrite(files, listing, ArtifactName(stamp, "txt"), e);
  }

  /** The session's working directory. */
  class WorkingDirectory {
    var files: map<string, Entry>

    constructor (initial: map<string, Entry>)
      ensures files == initial
    {
      files := initial;
    }

    /** `with open(name, mode) as f: f.write(data)`: creates or truncates exactly the entry `name`. */
    method Write(name: string, data: FileData, ctime: real)
      modifies this
      ensures files == old(files)[name := Entry(data, ctime)]
    {
      files := files[name := Entry(data, ctime)];
    }

    /** `save_audio_file(audio_bytes, file_extension)`. */
    method SaveAudioFile(audio: seq<Byte>, ext: string, at: Instant) returns (name: string)
      requires Timestamp.Valid(at.stamp)
      modifies this
      ensures name == ArtifactName(at.stamp, ext)
      ensures files == old(files)[name := Entry(Audio(audio), at.ctime)]
    {
      name := ArtifactName(at.stamp, ext);
      Write(name, Audio(audio), at.ctime);
    }

    /** The transcript write after a run: the sidecar of `audioName` holds exactly `text`. */
    method WriteTranscript(audioName: string, text: string, ctime: real) returns (name: string)
      modifies this
      ensures name == TranscriptName(audioName)
      ensures files == old(files)[name := Entry(TranscriptText(text), ctime)]
    {
      name := TranscriptName(audioName);
      Write(name, TranscriptText(text), ctime);
    }
  }

  /** Two saves in the same second with the same extension leave one file, holding the later bytes. */
  method SaveTwiceInOneSecond(dir: WorkingDirectory, first: seq<Byte>, second: seq<Byte>,
                              ext: string, at1: Instant, at2: Instant)
    returns (name1: string, name2: string)
    requires Timestamp.Valid(at1.stamp) && at2.stamp == at1.stamp
    modifies dir
    ensures name1 == name2
    ensures dir.files == old(dir.files)[name2 := Entry(Audio(second), at2.ctime)]
  {
    name1 := dir.SaveAudioFile(first, ext, at1);
    name2 := dir.SaveAudioFile(second, ext, at2);
  }
}
