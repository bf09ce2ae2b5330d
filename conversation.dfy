/** Assembling one call: per turn a speech clip and the silence opposite it, the two
    channel tracks, the stereo recording, and the removal of every intermediate file.
    The file system is a value mapping each file to the audio it holds; the speech
    synthesizer, the duration probe, the silence generator and the merge tool become the
    raw durations given as input and the file contents they write. */
module Conversation {
  import opened Overlap
  import opened Timeline

  /** One scripted turn: the channel whose voice speaks it, and its text. */
  datatype Turn = Turn(channel: string, text: string)

  /** The files of one run, by their parts: the per-turn speech and silence files and
      the two channel tracks under the working directory, and the stereo recording,
      which is written to the current directory. */
  datatype FilePath =
    | SpeechFile(dir: string, run: string, idx: nat)
    | SilenceFile(dir: string, run: string, idx: nat)
    | ChannelFile(dir: string, run: string, ch: nat)
    | StereoFile(run: string, language: string)

  /** What a file holds: a mono track made of clips, or two such tracks side by side. */
  datatype Audio = Mono(clips: seq<Clip>) | Stereo(left: seq<Clip>, right: seq<Clip>)

  type Disk = map<FilePath, Audio>

  /** The run stops at turn `turn` because its channel has no voice. */
  datatype Failure = UnknownChannel(turn: nat, channel: string)

  datatype Result<T> = Ok(value: T) | Err(error: Failure)

  /** The first k turns all name a channel that has a voice. */
  predicate Voiced(turns: seq<Turn>, voiceMap: map<string, string>, k: nat)
  {
    forall i :: 0 <= i < k && i < |turns| ==> turns[i].channel in voiceMap
  }

  /** A turn whose channel has a voice extends the voiced prefix. */
  lemma VoicedStep(turns: seq<Turn>, voiceMap: map<string, string>, k: nat)
    requires Voiced(turns, voiceMap, k) && k < |turns| && turns[k].channel in voiceMap
    ensures Voiced(turns, voiceMap, k + 1)
  {
  }

  /** The speech clip of every turn, spoken by the voice of the turn's channel. */
  function SpeechClips(turns: seq<Turn>, voiceMap: map<string, string>, raw: seq<real>): seq<Clip>
    requires |raw| == |turns| && Voiced(turns, voiceMap, |turns|)
  {
    seq(|turns|, i requires 0 <= i < |turns| => Voice(turns[i].text, voiceMap[turns[i].channel], raw[i]))
  }

  function SpeechFiles(dir: string, run: string, n: nat): seq<FilePath>
  {
    seq(n, i requires 0 <= i < n => SpeechFile(dir, run, i))
  }

  function SilenceFiles(dir: string, run: string, n: nat): seq<FilePath>
  {
    seq(n, i requires 0 <= i < n => SilenceFile(dir, run, i))
  }

  /** The list of files concatenated into channel `ch` after k turns. */
  function ChannelFiles(dir: string, run: string, ch: nat, k: nat): seq<FilePath>
  {
    Alternate(SpeechFiles(dir, run, k), SilenceFiles(dir, run, k), ch, k)
  }

  /** Each turn appends one file to each channel list. */
  lemma ChannelFilesStep(dir: string, run: string, ch: nat, k: nat)
    ensures ChannelFiles(dir, run, ch, k + 1)
            == ChannelFiles(dir, run, ch, k)
               + [if SpeakerChannel(k) == ch then SpeechFile(dir, run, k) else SilenceFile(dir, run, k)]
  {
  }

  /** After k turns both lists have k entries; at an even turn the first list holds the
      turn's speech file and the second its silence file, at an odd turn the reverse. */
  lemma ChannelFilesLayout(dir: string, run: string, k: nat)
    ensures |ChannelFiles(dir, run, 1, k)| == k && |ChannelFiles(dir, run, 2, k)| == k
    ensures forall i :: 0 <= i < k && i % 2 == 0 ==>
              ChannelFiles(dir, run, 1, k)[i] == SpeechFile(dir, run, i)
              && ChannelFiles(dir, run, 2, k)[i] == SilenceFile(dir, run, i)
    ensures forall i :: 0 <= i < k && i % 2 == 1 ==>
              ChannelFiles(dir, run, 1, k)[i] == SilenceFile(dir, run, i)
              && ChannelFiles(dir, run, 2, k)[i] == SpeechFile(dir, run, i)
  {
  }

  /** f is the speech or silence file of one of the first n turns of this run. */
  predicate IsTurnFile(f: FilePath, dir: string, run: string, n: nat)
  {
    (f.SpeechFile? || f.SilenceFile?) && f.dir == dir && f.run == run && f.idx < n
  }

  /** f is one of the files a run of n turns creates and then removes. */
  predicate IsIntermediate(f: FilePath, dir: string, run: string, n: nat)
  {
    IsTurnFile(f, dir, run, n) || f == ChannelFile(dir, run, 1) || f == ChannelFile(dir, run, 2)
  }

  /** The disk after the first k turns have written their files over `disk`: turn i
      writes its speech file, holding the clip spoken in its channel's voice, and then
      its silence file, holding `silence[i]`. */
  function Written(disk: Disk, turns: seq<Turn>, voiceMap: map<string, string>, raw: seq<real>, silence: seq<Clip>,
                   dir: string, run: string, k: nat): Disk
    requires k <= |turns| && k <= |raw| && k <= |silence| && Voiced(turns, voiceMap, k)
  {
    if k == 0 then disk
    else Written(disk, turns, voiceMap, raw, silence, dir, run, k - 1)
           [SpeechFile(dir, run, k - 1) := Mono([Voice(turns[k - 1].text, voiceMap[turns[k - 1].channel], raw[k - 1])])]
           [SilenceFile(dir, run, k - 1) := Mono([silence[k - 1]])]
  }

  /** After k turns the disk holds the files it held before and the speech and silence
      files numbered below k, and every file that is not one of those is as it was. */
  lemma {:induction false} WrittenFrame(disk: Disk, turns: seq<Turn>, voiceMap: map<string, string>, raw: seq<real>,
                                        silence: seq<Clip>, dir: string, run: string, k: nat)
    requires k <= |turns| && k <= |raw| && k <= |silence| && Voiced(turns, voiceMap, k)
    ensures forall f :: f in Written(disk, turns, voiceMap, raw, silence, dir, run, k)
                        <==> f in disk || IsTurnFile(f, dir, run, k)
    ensures forall f :: f in disk && !IsTurnFile(f, dir, run, k)
                        ==> Written(disk, turns, voiceMap, raw, silence, dir, run, k)[f] == disk[f]
  {
    if k > 0 {
      var last := k - 1;
      WrittenFrame(disk, turns, voiceMap, raw, silence, dir, run, last);
      forall f ensures IsTurnFile(f, dir, run, k)
                       <==> IsTurnFile(f, dir, run, last) || f == SpeechFile(dir, run, last) || f == SilenceFile(dir, run, last) {
      }
    }
  }

  /** After k turns the speech and silence files numbered below k hold each turn's
      speech clip and silence. */
  lemma {:induction false} WrittenHolds(disk: Disk, turns: seq<Turn>, voiceMap: map<string, string>, raw: seq<real>,
                                        silence: seq<Clip>, dir: string, run: string, k: nat)
    requires k <= |turns| && k <= |raw| && k <= |silence| && Voiced(turns, voiceMap, k)
    ensures forall i :: 0 <= i < k ==>
              && SpeechFile(dir, run, i) in Written(disk, turns, voiceMap, raw, silence, dir, run, k)
              && Written(disk, turns, voiceMap, raw, silence, dir, run, k)[SpeechFile(dir, run, i)]
                 == Mono([Voice(turns[i].text, voiceMap[turns[i].channel], raw[i])])
    ensures forall i :: 0 <= i < k ==>
              && SilenceFile(dir, run, i) in Written(disk, turns, voiceMap, raw, silence, dir, run, k)
              && Written(disk, turns, voiceMap, raw, silence, dir, run, k)[SilenceFile(dir, run, i)] == Mono([silence[i]])
  {
    if k > 0 {
      WrittenHolds(disk, turns, voiceMap, raw, silence, dir, run, k - 1);
    }
  }

  /** The clips a channel track concatenates, one file after another. */
  function Concatenate(disk: Disk, files: seq<FilePath>): seq<Clip>
    requires forall f :: f in files ==> f in disk && disk[f].Mono?
  {
    if files == [] then []
    else Concatenate(disk, files[..|files| - 1]) + disk[files[|files| - 1]].clips
  }

  /** Removing a file: it must exist, and it alone goes. */
  function RemoveFile(disk: Disk, f: FilePath): (r: Disk)
    requires f in disk
    ensures f !in r
    ensures forall g :: g != f ==> (g in r <==> g in disk)
    ensures forall g :: g in r ==> r[g] == disk[g]
  {
    disk - {f}
  }

  /** Each channel list holds, at turn i, that turn's speech file when the channel
      speaks at turn i and its silence file otherwise; so the two lists together name
      every per-turn file exactly once. */
  lemma {:induction false} ChannelFilesPartition(dir: string, run: string, n: nat)
    ensures var all := ChannelFiles(dir, run, 1, n) + ChannelFiles(dir, run, 2, n);
            && (forall i, j :: 0 <= i < j < |all| ==> all[i] != all[j])
            && (forall f :: f in all <==> IsTurnFile(f, dir, run, n))
  {
    var c1, c2 := ChannelFiles(dir, run, 1, n), ChannelFiles(dir, run, 2, n);
    var all := c1 + c2;
    assert |c1| == n && |c2| == n;
    forall i | 0 <= i < |all|
      ensures all[i].dir == dir && all[i].run == run
      ensures all[i].idx == if i < n then i else i - n
      ensures all[i].SpeechFile? == ((i < n) == (SpeakerChannel(all[i].idx) == 1))
      ensures all[i].SpeechFile? || all[i].SilenceFile?
    {
      if i >= n {
        assert all[i] == c2[i - n];
      }
    }
    forall f | IsTurnFile(f, dir, run, n) ensures f in all {
      var k := f.idx;
      if f.SpeechFile? == (SpeakerChannel(k) == 1) {
        assert all[k] == f;
      } else {
        assert all[n + k] == f;
      }
    }
  }

  /** The speech and silence files of the first k turns hold the clips `speech[i]` and
      `silence[i]`. */
  ghost predicate HoldsTurnFiles(disk: Disk, speech: seq<Clip>, silence: seq<Clip>, dir: string, run: string, k: nat)
  {
    && k <= |speech| && k <= |silence|
    && (forall i :: 0 <= i < k ==> SpeechFile(dir, run, i) in disk && disk[SpeechFile(dir, run, i)] == Mono([speech[i]]))
    && (forall i :: 0 <= i < k ==> SilenceFile(dir, run, i) in disk && disk[SilenceFile(dir, run, i)] == Mono([silence[i]]))
  }

  /** A channel list after k turns names only files that exist, and concatenating them
      gives that channel's speech clips and silences in turn order. */
  lemma {:induction false} ConcatenateChannel(disk: Disk, speech: seq<Clip>, silence: seq<Clip>,
                                             dir: string, run: string, ch: nat, k: nat)
    requires HoldsTurnFiles(disk, speech, silence, dir, run, k)
    ensures forall f :: f in ChannelFiles(dir, run, ch, k) ==> f in disk && disk[f].Mono?
    ensures Concatenate(disk, ChannelFiles(dir, run, ch, k)) == Alternate(speech, silence, ch, k)
  {
    if k > 0 {
      var last := k - 1;
      var prev := ChannelFiles(dir, run, ch, last);
      var file := if SpeakerChannel(last) == ch then SpeechFile(dir, run, last) else SilenceFile(dir, run, last);
      var c := if SpeakerChannel(last) == ch then speech[last] else silence[last];
      ConcatenateChannel(disk, speech, silence, dir, run, ch, last);
      ChannelFilesStep(dir, run, ch, last);
      assert file in disk && disk[file] == Mono([c]);
      calc {
        Concatenate(disk, ChannelFiles(dir, run, ch, k));
      == { assert ChannelFiles(dir, run, ch, k) == prev + [file]; assert (prev + [file])[..last] == prev; }
        Concatenate(disk, prev) + [c];
      == { assert Alternate(speech, silence, ch, k) == Alternate(speech, silence, ch, last) + [c]; }
        Alternate(speech, silence, ch, k);
      }
    }
  }

  /** One call assembled from its turns. `raw[i]` is the duration the probe reports for
      the speech of turn i; `draws[0]` is the sampler's first call at turn 0 and
      `draws[i + 1]` its call at the end of turn i. The result is the stereo path, or the
      first turn whose channel has no voice; the channel lists are the ones built. */
  method ProcessConversation(turns: seq<Turn>, voiceMap: map<string, string>, language: string,
                             threshold: real, dir: string, run: string,
                             raw: seq<real>, draws: seq<Draw>, disk: Disk)
    returns (r: Result<FilePath>, channel1: seq<FilePath>, channel2: seq<FilePath>, disk': Disk)
    requires |raw| == |turns| < |draws|
    ensures r.Ok? <==> Voiced(turns, voiceMap, |turns|)
    ensures r.Err? ==>
              && r.error.turn < |turns|
              && r.error.channel == turns[r.error.turn].channel
              && r.error.channel !in voiceMap
              && Voiced(turns, voiceMap, r.error.turn)
              && channel1 == ChannelFiles(dir, run, 1, r.error.turn)
              && channel2 == ChannelFiles(dir, run, 2, r.error.turn)
              && disk' == Written(disk, turns, voiceMap, raw, Silences(raw, draws, threshold), dir, run, r.error.turn)
    ensures r.Ok? ==>
              && r.value == StereoFile(run, language)
              && channel1 == ChannelFiles(dir, run, 1, |turns|)
              && channel2 == ChannelFiles(dir, run, 2, |turns|)
              && (forall f :: f in disk' <==> f == r.value || (f in disk && !IsIntermediate(f, dir, run, |turns|)))
              && (forall f :: f in disk' && f != r.value ==> disk'[f] == disk[f])
              && disk'[r.value] == Stereo(Track(turns, voiceMap, raw, draws, threshold, 1),
                                          Track(turns, voiceMap, raw, draws, threshold, 2))
  {
    var k;
    k, channel1, channel2, disk' := ScheduleTurns(turns, voiceMap, threshold, dir, run, raw, draws, disk);
    if k < |turns| {
      r := Err(UnknownChannel(k, turns[k].channel));
    } else {
      ghost var scheduled := disk';
      ScheduledFiles(disk, turns, voiceMap, raw, draws, threshold, dir, run);
      CleanedDisk(disk, scheduled, dir, run, |turns|, language, channel1, channel2);
      var stereoPath;
      stereoPath, disk' := MergeTracks(disk', channel1, channel2, dir, run, language);
      disk' := Cleanup(disk', channel1, channel2, ChannelFile(dir, run, 1), ChannelFile(dir, run, 2));
      r := Ok(stereoPath);
    }
  }

  /** The disk after the merge: the two channel tracks, each the concatenation of its
      list, and the stereo file holding the two tracks side by side. */
  function Merged(disk: Disk, channel1: seq<FilePath>, channel2: seq<FilePath>, dir: string, run: string, language: string): Disk
    requires forall f :: f in channel1 ==> f in disk && disk[f].Mono?
    requires forall f :: f in channel2 ==> f in disk && disk[f].Mono?
  {
    disk[ChannelFile(dir, run, 1) := Mono(Concatenate(disk, channel1))]
        [ChannelFile(dir, run, 2) := Mono(Concatenate(disk, channel2))]
        [StereoFile(run, language) := Stereo(Concatenate(disk, channel1), Concatenate(disk, channel2))]
  }

  /** The merge: each channel list is concatenated, in order, into its channel track
      under the working directory, and the two tracks are merged side by side into the
      stereo file, whose name carries the run and the language. */
  method MergeTracks(disk: Disk, channel1: seq<FilePath>, channel2: seq<FilePath>, dir: string, run: string, language: string)
    returns (stereo: FilePath, disk': Disk)
    requires forall f :: f in channel1 ==> f in disk && disk[f].Mono?
    requires forall f :: f in channel2 ==> f in disk && disk[f].Mono?
    requires ChannelFile(dir, run, 1) !in channel2
    ensures stereo == StereoFile(run, language)
    ensures disk' == Merged(disk, channel1, channel2, dir, run, language)
  {
    var channel1Path := ChannelFile(dir, run, 1);
    disk' := disk[channel1Path := Mono(Concatenate(disk, channel1))];
    ConcatenateFrame(disk, channel2, channel1Path, Mono(Concatenate(disk, channel1)));
    var channel2Path := ChannelFile(dir, run, 2);
    disk' := disk'[channel2Path := Mono(Concatenate(disk', channel2))];
    stereo := StereoFile(run, language);
    disk' := disk'[stereo := Stereo(disk'[channel1Path].clips, disk'[channel2Path].clips)];
  }

  /** Writing a file outside a list does not change what the list concatenates to. */
  lemma {:induction false} ConcatenateFrame(disk: Disk, files: seq<FilePath>, f: FilePath, a: Audio)
    requires forall g :: g in files ==> g in disk && disk[g].Mono?
    requires f !in files
    ensures forall g :: g in files ==> g in disk[f := a] && disk[f := a][g].Mono?
    ensures Concatenate(disk[f := a], files) == Concatenate(disk, files)
  {
    if files != [] {
      ConcatenateFrame(disk, files[..|files| - 1], f, a);
    }
  }

  /** A channel track of the whole call: the speech clips and silences in the order
      the alternation policy places them on channel `ch`. */
  function Track(turns: seq<Turn>, voiceMap: map<string, string>, raw: seq<real>, draws: seq<Draw>,
                 threshold: real, ch: nat): seq<Clip>
    requires |raw| == |turns| < |draws| && Voiced(turns, voiceMap, |turns|)
  {
    Alternate(SpeechClips(turns, voiceMap, raw), Silences(raw, draws, threshold), ch, |turns|)
  }

  /** After the per-turn loop of a call whose every channel has a voice: the disk holds
      the files it held before and the turn files; the two channel lists together name
      each turn file exactly once, and each concatenates to its channel's track. */
  lemma ScheduledFiles(disk: Disk, turns: seq<Turn>, voiceMap: map<string, string>, raw: seq<real>,
                       draws: seq<Draw>, threshold: real, dir: string, run: string)
    requires |raw| == |turns| < |draws| && Voiced(turns, voiceMap, |turns|)
    ensures var n := |turns|;
            var after := Written(disk, turns, voiceMap, raw, Silences(raw, draws, threshold), dir, run, n);
            var ch1, ch2 := ChannelFiles(dir, run, 1, n), ChannelFiles(dir, run, 2, n);
            && (forall f :: f in after <==> f in disk || IsTurnFile(f, dir, run, n))
            && (forall f :: f in disk && !IsTurnFile(f, dir, run, n) ==> after[f] == disk[f])
            && (forall f :: f in ch1 ==> f in after && after[f].Mono?)
            && (forall f :: f in ch2 ==> f in after && after[f].Mono?)
            && Concatenate(after, ch1) == Track(turns, voiceMap, raw, draws, threshold, 1)
            && Concatenate(after, ch2) == Track(turns, voiceMap, raw, draws, threshold, 2)
            && (forall i, j :: 0 <= i < j < |ch1 + ch2| ==> (ch1 + ch2)[i] != (ch1 + ch2)[j])
            && (forall f :: f in ch1 + ch2 <==> IsTurnFile(f, dir, run, n))
  {
    var n := |turns|;
    var silence := Silences(raw, draws, threshold);
    var speech := SpeechClips(turns, voiceMap, raw);
    var after := Written(disk, turns, voiceMap, raw, silence, dir, run, n);
    WrittenFrame(disk, turns, voiceMap, raw, silence, dir, run, n);
    WrittenHolds(disk, turns, voiceMap, raw, silence, dir, run, n);
    assert HoldsTurnFiles(after, speech, silence, dir, run, n);
    ConcatenateChannel(after, speech, silence, dir, run, 1, n);
    ConcatenateChannel(after, speech, silence, dir, run, 2, n);
    ChannelFilesPartition(dir, run, n);
  }

  /** The disk after the cleanup: every file of the two lists and the two channel tracks
      are gone, and every other file is as it was. */
  function Cleaned(mixed: Disk, channel1: seq<FilePath>, channel2: seq<FilePath>, channel1Path: FilePath, channel2Path: FilePath): Disk
  {
    map f | f in mixed && f !in channel1 && f !in channel2 && f != channel1Path && f != channel2Path :: mixed[f]
  }

  /** Merging and then cleaning up the disk left by the per-turn loop leaves the files
      that were there before the run and the stereo file, and every removal the cleanup
      makes finds its file. */
  lemma CleanedDisk(disk: Disk, scheduled: Disk, dir: string, run: string, n: nat, language: string,
                    channel1: seq<FilePath>, channel2: seq<FilePath>)
    requires forall f :: f in scheduled <==> f in disk || IsTurnFile(f, dir, run, n)
    requires forall f :: f in disk && !IsTurnFile(f, dir, run, n) ==> scheduled[f] == disk[f]
    requires forall f :: f in channel1 ==> f in scheduled && scheduled[f].Mono?
    requires forall f :: f in channel2 ==> f in scheduled && scheduled[f].Mono?
    requires forall i, j :: 0 <= i < j < |channel1 + channel2| ==> (channel1 + channel2)[i] != (channel1 + channel2)[j]
    requires forall f :: f in channel1 + channel2 <==> IsTurnFile(f, dir, run, n)
    ensures ChannelFile(dir, run, 1) !in channel2
    ensures var mixed := Merged(scheduled, channel1, channel2, dir, run, language);
            var channel1Path, channel2Path := ChannelFile(dir, run, 1), ChannelFile(dir, run, 2);
            var stereo := StereoFile(run, language);
            var cleaned := Cleaned(mixed, channel1, channel2, channel1Path, channel2Path);
            && (forall f :: f in channel1 + channel2 ==> f in mixed)
            && channel1Path in mixed && channel2Path in mixed && channel1Path != channel2Path
            && channel1Path !in channel1 + channel2 && channel2Path !in channel1 + channel2
            && (forall f :: f in cleaned <==> f == stereo || (f in disk && !IsIntermediate(f, dir, run, n)))
            && (forall f :: f in cleaned && f != stereo ==> cleaned[f] == disk[f])
            && stereo in cleaned
            && cleaned[stereo] == Stereo(Concatenate(scheduled, channel1), Concatenate(scheduled, channel2))
  {
    forall f ensures f in channel1 + channel2 <==> f in channel1 || f in channel2 {
    }
  }

  /** The per-turn loop: for each turn in order, its speech file and the silence file
      opposite it, placed on the two channel lists by the alternation policy, with the
      overlap carried from turn to turn. It stops at the first turn whose channel has no
      voice, before writing that turn's files; k is the number of turns scheduled. */
  method ScheduleTurns(turns: seq<Turn>, voiceMap: map<string, string>, threshold: real,
                       dir: string, run: string, raw: seq<real>, draws: seq<Draw>, disk: Disk)
    returns (k: nat, channel1: seq<FilePath>, channel2: seq<FilePath>, disk': Disk)
    requires |raw| == |turns| < |draws|
    ensures k <= |turns| && Voiced(turns, voiceMap, k)
    ensures k < |turns| ==> turns[k].channel !in voiceMap
    ensures channel1 == ChannelFiles(dir, run, 1, k) && channel2 == ChannelFiles(dir, run, 2, k)
    ensures disk' == Written(disk, turns, voiceMap, raw, Silences(raw, draws, threshold), dir, run, k)
  {
    channel1, channel2 := [], [];
    disk' := disk;
    var overlap, nextOverlap := 0.0, 0.0;
    var idx := 0;
    while idx < |turns| && turns[idx].channel in voiceMap
      invariant 0 <= idx <= |turns|
      invariant channel1 == ChannelFiles(dir, run, 1, idx) && channel2 == ChannelFiles(dir, run, 2, idx)
      invariant 0 < idx < |turns| ==> overlap == Applied(raw, draws, threshold, idx)
      invariant idx < |turns| ==> nextOverlap == Carried(raw, draws, threshold, idx)
      invariant Voiced(turns, voiceMap, idx)
      invariant disk' == Written(disk, turns, voiceMap, raw, Silences(raw, draws, threshold), dir, run, idx)
    {
      VoicedStep(turns, voiceMap, idx);
      var speechFile, silenceFile;
      speechFile, silenceFile, disk', overlap, nextOverlap :=
        ScheduleTurn(turns, voiceMap, threshold, dir, run, raw, draws, disk, idx, disk', overlap, nextOverlap);
      ChannelFilesStep(dir, run, 1, idx);
      ChannelFilesStep(dir, run, 2, idx);
      if SpeakerChannel(idx) == 1 {
        channel1, channel2 := channel1 + [speechFile], channel2 + [silenceFile];
      } else {
        channel1, channel2 := channel1 + [silenceFile], channel2 + [speechFile];
      }
      idx := idx + 1;
    }
    k := idx;
  }

  /** One turn of the loop: the turn's speech file, spoken in its channel's voice; the
      overlap to subtract from it (drawn afresh at the first turn) and the one carried in;
      the next turn's overlap, drawn from this turn's shortened duration; and the silence
      file of that duration. */
  method ScheduleTurn(turns: seq<Turn>, voiceMap: map<string, string>, threshold: real,
                      dir: string, run: string, raw: seq<real>, draws: seq<Draw>, disk: Disk,
                      idx: nat, before: Disk, overlap: real, nextOverlap: real)
    returns (speechFile: FilePath, silenceFile: FilePath, after: Disk, overlap': real, nextOverlap': real)
    requires |raw| == |turns| < |draws| && idx < |turns| && Voiced(turns, voiceMap, idx + 1)
    requires idx > 0 ==> overlap == Applied(raw, draws, threshold, idx)
    requires nextOverlap == Carried(raw, draws, threshold, idx)
    requires before == Written(disk, turns, voiceMap, raw, Silences(raw, draws, threshold), dir, run, idx)
    ensures speechFile == SpeechFile(dir, run, idx) && silenceFile == SilenceFile(dir, run, idx)
    ensures idx + 1 < |turns| ==> overlap' == Applied(raw, draws, threshold, idx + 1)
    ensures idx + 1 < |turns| ==> nextOverlap' == Carried(raw, draws, threshold, idx + 1)
    ensures after == Written(disk, turns, voiceMap, raw, Silences(raw, draws, threshold), dir, run, idx + 1)
  {
    var entry := turns[idx];
    speechFile := SpeechFile(dir, run, idx);
    var speech := Mono([Voice(entry.text, voiceMap[entry.channel], raw[idx])]);
    after := before[speechFile := speech];

    var duration := raw[idx];
    overlap' := overlap;
    if idx == 0 {
      overlap' := SetOverlap(duration, threshold, draws[0]);
    }
    CarryStep(raw, draws, threshold, idx, overlap', nextOverlap);
    duration := duration - overlap' + nextOverlap;
    nextOverlap' := -overlap';
    overlap' := SetOverlap(duration, threshold, draws[idx + 1]);
    silenceFile := SilenceFile(dir, run, idx);
    after := after[silenceFile := Mono([Quiet(duration)])];
    WrittenStep(disk, turns, voiceMap, raw, draws, threshold, dir, run, idx);
  }

  /** Turn k writes its speech clip and then its silence, whose length is the turn's
      effective duration. */
  lemma WrittenStep(disk: Disk, turns: seq<Turn>, voiceMap: map<string, string>, raw: seq<real>,
                    draws: seq<Draw>, threshold: real, dir: string, run: string, k: nat)
    requires |raw| == |turns| < |draws| && k < |turns| && Voiced(turns, voiceMap, k + 1)
    ensures Written(disk, turns, voiceMap, raw, Silences(raw, draws, threshold), dir, run, k + 1)
            == Written(disk, turns, voiceMap, raw, Silences(raw, draws, threshold), dir, run, k)
                 [SpeechFile(dir, run, k) := Mono([Voice(turns[k].text, voiceMap[turns[k].channel], raw[k])])]
                 [SilenceFile(dir, run, k) := Mono([Quiet(Effective(raw, draws, threshold, k))])]
  {
  }

  /** The two values carried between turns are the overlap to subtract now and the
      overlap carried in, so the turn's duration comes out as its effective duration. */
  lemma CarryStep(raw: seq<real>, draws: seq<Draw>, threshold: real, idx: nat, overlap: real, nextOverlap: real)
    requires idx < |raw| < |draws|
    requires idx == 0 ==> overlap == SetOverlap(raw[0], threshold, draws[0])
    requires idx > 0 ==> overlap == Applied(raw, draws, threshold, idx)
    requires nextOverlap == Carried(raw, draws, threshold, idx)
    ensures overlap == Applied(raw, draws, threshold, idx)
    ensures raw[idx] - overlap + nextOverlap == Effective(raw, draws, threshold, idx)
    ensures idx + 1 < |raw| ==> -overlap == Carried(raw, draws, threshold, idx + 1)
    ensures idx + 1 < |raw| ==> SetOverlap(raw[idx] - overlap + nextOverlap, threshold, draws[idx + 1])
                                == Applied(raw, draws, threshold, idx + 1)
  {
  }

  /** The cleanup at the end of a run: the files of the first channel list, then those of
      the second, then the two channel tracks, removed one by one. Each removal needs its
      file to exist, so the lists must not name a file twice. Exactly these files go. */
  method Cleanup(mixed: Disk, channel1: seq<FilePath>, channel2: seq<FilePath>, channel1Path: FilePath, channel2Path: FilePath)
    returns (disk: Disk)
    requires forall i, j :: 0 <= i < j < |channel1 + channel2| ==> (channel1 + channel2)[i] != (channel1 + channel2)[j]
    requires forall f :: f in channel1 + channel2 ==> f in mixed
    requires channel1Path in mixed && channel2Path in mixed && channel1Path != channel2Path
    requires channel1Path !in channel1 + channel2 && channel2Path !in channel1 + channel2
    ensures disk == Cleaned(mixed, channel1, channel2, channel1Path, channel2Path)
  {
    var all := channel1 + channel2;
    assert forall i :: 0 <= i < |channel1| ==> channel1[i] == all[i];
    assert forall i :: 0 <= i < |channel2| ==> channel2[i] == all[|channel1| + i];
    assert forall f :: f in channel2 ==> f !in channel1;
    disk := RemoveAll(mixed, channel1);
    disk := RemoveAll(disk, channel2);
    disk := RemoveFile(disk, channel1Path);
    disk := RemoveFile(disk, channel2Path);
    assert forall f :: f in disk <==> f in Cleaned(mixed, channel1, channel2, channel1Path, channel2Path);
  }

  /** Removing every file of a list, one by one, in order. */
  method RemoveAll(disk: Disk, files: seq<FilePath>) returns (disk': Disk)
    requires forall i, j :: 0 <= i < j < |files| ==> files[i] != files[j]
    requires forall f :: f in files ==> f in disk
    ensures forall f :: f in disk' <==> f in disk && f !in files
    ensures forall f :: f in disk' ==> disk'[f] == disk[f]
  {
    disk' := disk;
    for j := 0 to |files|
      invariant forall f :: f in disk' <==> f in disk && f !in files[..j]
      invariant forall f :: f in disk' ==> disk'[f] == disk[f]
    {
      assert files[j] !in files[..j];
      disk' := RemoveFile(disk', files[j]);
      assert files[..j + 1] == files[..j] + [files[j]];
    }
    assert files[..|files|] == files;
  }
}
