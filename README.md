# Conversation generator: call timeline and voice filter

This project models two things, with proofs about each.

1. How `synthesize_call.py` assembles a two-channel call recording from a scripted
   conversation. Each turn is synthesized in the voice of its channel and its length is
   probed. Opposite each speech clip, a silence is placed on the other channel; its
   length is the turn's effective duration. The overlap sampler shortens silences. Its
   first draw shortens turn 0's silence, so turn 1 starts before turn 0 ends. The draw
   made after turn k shortens turn k + 1's silence, so turn k + 2 starts before turn
   k + 1 ends. The speech and silence files go on the two
   channel lists by strict alternation of the turn index. The lists are concatenated into
   two channel tracks and merged into one stereo file. Finally, every intermediate file
   is removed.
2. How `filter_voices.py` selects the speech service's voices of one language and reports
   four fields of each.

The model has four modules:

- `Overlap`: the sampler `set_overlap`. Its two random draws, uniform and Gaussian, are
  inputs (`Draw(u, g)`).
- `Timeline`: the schedule as specification functions.
  - `SpeakerChannel`: which channel speaks at each turn.
  - `Applied`, `Carried` and `Effective`: mutually recursive functions giving the overlap
    subtracted at each turn, the overlap carried into it, and its effective duration.
  - `Silences`: the silence clips.
  - `Alternate`: the channel lists.
  - `Duration`: lengths of tracks.
- `Conversation`: `process_conversation` as imperative methods over a value-level file
  system, `Disk`, which maps each file to the audio it holds.
  - The per-turn loop (`ScheduleTurns`, with one turn in `ScheduleTurn`) carries
    `overlap` and `next_overlap` just as the source does.
  - `MergeTracks` covers the two concatenations and the stereo merge.
  - `Cleanup` and `RemoveAll` are the removal loops.
  - Each method is proved against the specification functions: `Written` (the disk after
    k turns), `ChannelFiles`, `Merged`, `Cleaned` and `Track`.
- `Voices`: `filter_voices` as a loop proved equal to the function `Filtered`. `Filtered`
  is characterised by the increasing list of kept positions, `KeptIndices`.

What is proved:

- A triggered overlap is exactly `min(2, duration / 2)` whatever the Gaussian draw.
- Effective durations follow the recurrence of the loop.
- The two channel tracks stay aligned turn by turn: after k turns, the channel that spoke
  last is longer than the other by exactly the overlap subtracted at turn k - 1. That
  overlap was drawn one turn earlier (or at the start, for the first turn). The overlap
  drawn at the end of the last turn is never applied. This alignment counts a negative
  silence at its nominal, negative length.
- So the stereo merge receives two tracks of different lengths whenever the overlap
  subtracted at the last turn is not zero. `Timeline.UnequalTracks` shows two clips of
  5.0 seconds where only the draw after the first turn triggers: the first track lasts
  8.0 seconds and the second 10.0.
- With no trigger, each track lasts the sum of the raw durations.
- The channel lists together name every per-turn file exactly once.
- A run whose every channel has a voice ends with a disk that holds the files it held
  before, minus any intermediate names, plus the stereo file. The stereo file holds the
  two tracks side by side.
- A run with a channel missing from the voice map stops at that turn, with the files of
  the earlier turns left on disk.
- The voice filter keeps exactly the voices of the asked-for language, in order, or every
  voice when the code is empty.

The source does not floor the effective duration (`synthesize_call.py:88`). The model
follows the code and does not clamp it either. `Timeline.NegativeSilence` shows three
turns whose third silence is -1.0 seconds. The overlap sampler applied to a negative
duration that triggers returns half that duration, which is negative.

## Model

| member | source | states |
|---|---|---|
| Overlap.MaxOverlap | synthesize_call.py:56 | the cap is at most two seconds and at most half the duration, equals one of the two, and is non-negative for a non-negative duration |
| Overlap.SetOverlap | synthesize_call.py:55-66 | a uniform draw above the threshold gives 0; one at or below it gives exactly the cap, whatever the Gaussian draw; for a non-negative duration the result lies between 0 and the cap, which is at most 2; a triggered call on a negative duration gives half the duration, below zero |
| Overlap.GaussianIgnored | synthesize_call.py:61-63 | two calls that differ only in the Gaussian draw return the same overlap |
| Timeline.SpeakerChannel | synthesize_call.py:102-107 | the speaking channel is always 1 or 2 |
| Timeline.Alternates | synthesize_call.py:102-107 | consecutive turns are spoken on different channels |
| Timeline.Alternate | synthesize_call.py:102-107 | a channel list after k turns has k entries; entry i is turn i's speech item when the channel speaks at turn i and its silence item otherwise |
| Timeline.EffectiveRecurrence | synthesize_call.py:86-93 | turn 0 loses the overlap drawn from its own raw duration; turn k > 0 loses the overlap drawn from turn k - 1's effective duration and regains minus the overlap subtracted at turn k - 1 |
| Timeline.AppliedBounded | synthesize_call.py:86-93 | an overlap drawn from a non-negative duration is between 0 and 2 and at most half that duration |
| Timeline.NoTriggerKeepsRaw | synthesize_call.py:86-93 | with no triggering draw, the applied overlap is 0 and the effective duration equals the raw duration |
| Timeline.ChannelsAligned | synthesize_call.py:86-107 | after k turns the channel that spoke last is longer than the other by exactly the overlap subtracted at turn k - 1 |
| Timeline.NoTriggerTotals | synthesize_call.py:86-107 | with no triggering draw, each channel track lasts exactly the sum of the raw durations |
| Timeline.FourTurnsWithoutOverlap | synthesize_call.py:86-107 | turns of 2.0, 1.5, 3.0 and 1.0 seconds without overlap give two tracks of 7.5 seconds |
| Timeline.TwoTurnTracks | synthesize_call.py:102-107 | after two turns, channel 1 holds the first speech clip and the second silence, channel 2 the first silence and the second speech clip, and each lasts as long as its two clips |
| Timeline.UnequalTracks | synthesize_call.py:86-107 | two 5.0-second clips where only the draw after the first turn triggers give tracks of 8.0 and 10.0 seconds |
| Timeline.NegativeSilence | synthesize_call.py:86-93 | turns of 4.0, 4.0 and 0.5 seconds whose draws all trigger have effective durations 2.0, 1.0 and -1.0 |
| Conversation.ChannelFilesStep | synthesize_call.py:102-107 | each turn appends exactly one file to each channel list: its speech file to the speaking channel, its silence file to the other |
| Conversation.ChannelFilesLayout | synthesize_call.py:102-107 | after k turns both lists have k entries; at an even turn the first list has the speech file and the second the silence file, at an odd turn the reverse |
| Conversation.WrittenFrame | synthesize_call.py:79-98 | after k turns the disk holds the earlier files plus the turn files below k; every other file is unchanged |
| Conversation.WrittenHolds | synthesize_call.py:79-98 | after k turns, each speech file below k holds its turn's clip and each silence file its silence |
| Conversation.WrittenStep | synthesize_call.py:80-98 | turn k adds its speech clip and then a silence whose length is the turn's effective duration |
| Conversation.ChannelFilesPartition | synthesize_call.py:102-107 | the two lists together name no file twice and name exactly the turn files of the run |
| Conversation.ConcatenateChannel | synthesize_call.py:115-123 | every file a channel list names exists and is mono; concatenating them gives that channel's clips in turn order |
| Conversation.ConcatenateFrame | synthesize_call.py:115-123 | writing a file outside a list leaves the list's concatenation unchanged |
| Conversation.RemoveFile | synthesize_call.py:140 | removing an existing file removes it alone, leaving every other file's contents |
| Conversation.CarryStep | synthesize_call.py:86-93 | the two carried values are the overlap applied at this turn and the overlap carried in; the duration computed is the effective duration; the values passed on are those of the next turn |
| Conversation.ScheduleTurn | synthesize_call.py:80-98 | one turn writes its speech file and its silence file, turning the disk after k turns into the disk after k + 1, and passes on the next turn's overlap and carried value |
| Conversation.ScheduleTurns | synthesize_call.py:77-107 | the loop stops at the first turn whose channel has no voice, or after the last turn; the lists are the channel lists of the turns done and the disk is the disk after those turns |
| Conversation.ScheduledFiles | synthesize_call.py:79-123 | after all turns, the disk holds the earlier files plus the turn files; each channel list concatenates to its channel's track; the lists name each turn file exactly once |
| Conversation.MergeTracks | synthesize_call.py:109-133 | the first track holds the first list's clips concatenated, the second track the second list's clips, and the stereo file (named by run and language) holds both tracks side by side |
| Conversation.CleanedDisk | synthesize_call.py:135-154 | every removal of the cleanup finds its file; after merging and cleaning, the disk holds the stereo file and exactly the earlier files that are not intermediate, unchanged |
| Conversation.Cleanup | synthesize_call.py:135-152 | the files of both lists and the two channel tracks are removed, each once, and nothing else changes |
| Conversation.RemoveAll | synthesize_call.py:137-144 | removing a list of distinct files takes away exactly those files and leaves every other file's contents |
| Conversation.ProcessConversation | synthesize_call.py:68-154 | a missing channel stops the run at that turn's lookup, leaving the earlier turns' files; otherwise the result is the stereo file, holding the two channel tracks, and the disk holds exactly the earlier files that are not intermediate, unchanged |
| Voices.LowerChar | filter_voices.py:14 | an ASCII upper-case letter becomes its lower-case letter, any other character is kept; the result is never upper-case |
| Voices.Lower | filter_voices.py:14 | lower-casing keeps the length, maps each character, and leaves no upper-case letter |
| Voices.KeptIndices | filter_voices.py:13-16 | the kept positions are increasing, in range, each of a kept voice, and include every kept voice |
| Voices.FilterVoices | filter_voices.py:8-25 | the loop returns the summaries of the kept voices in list order |
| Voices.FilteredAtKept | filter_voices.py:13-23 | the result has one record per kept position, the summary of the voice there |
| Voices.FilteredLength | filter_voices.py:13-23 | the result is never longer than the voice list |
| Voices.EmptyCodeKeepsAll | filter_voices.py:13-23 | with an empty code, the result has one record per voice, in list order |
| Voices.UpperCaseCodeMatchesNothing | filter_voices.py:14-16 | a code with an upper-case letter matches no voice |
| Voices.EnginesIgnored | filter_voices.py:15-22 | every voice of the asked-for language is reported, whatever its engines, with gender, id, language code in its original case, and engines copied unchanged |

## Left out

- Speech synthesis and the voice listing are calls to a cloud speech service
  (`synthesize_call.py:11-25`, `filter_voices.py:9-10`). The probed duration of each
  turn's speech (`raw`) and the voice list are inputs. A speech clip is recorded by its
  text, voice and duration, not as audio bytes.
- The duration probe and the silence generator are an external media tool
  (`synthesize_call.py:27-53`). What the generator does with a negative length is not
  modelled: the silence clip simply carries that length.
- The synthesis, probe and silence-generator calls are all assumed to succeed. The
  source lets a speech-service error propagate and re-raises the media tool's errors
  (`synthesize_call.py:37`, `synthesize_call.py:53`); the model has no such failure, so
  the only error `ProcessConversation` reports is a channel missing from the voice map.
- The default arguments of `set_overlap` and `process_conversation` (`threshold=0.05`,
  `tmp_dir='./tmp'`, `verbose=False`, `synthesize_call.py:55`, `synthesize_call.py:69`)
  are not modelled: the threshold and the working directory are always explicit
  parameters, and verbose reporting is left out.
- The concatenation and merge are shell commands (`synthesize_call.py:115-133`). They
  are modelled as always succeeding. The source ignores their exit status, so a failed
  merge (for instance with an empty turn list) would make the later removals fail. The
  model does not capture that.
- Playback of the result and the command-line entry points of all three files are not
  modelled.
- Random draws are inputs. The distributions are not modelled, and neither are the mean
  and spread computed for the Gaussian draw (`synthesize_call.py:59-60`), since they
  cannot affect the result. `Draw.u` is any real, not only one in [0, 1).
- The run identifier is an input string. File names are a datatype of their parts (kind,
  directory, run, turn or channel number), not formatted strings. The model therefore
  assumes that distinct parts give distinct paths.
- Creating the working directory and the progress and verbose printing are not modelled.
- Durations are exact reals, not IEEE floating point.
- `Voices.Lower`: folds only the ASCII letters, where Python's `lower()` also folds other
  Unicode letters.
- `Voices.LowerChar`: changes only the ASCII upper-case letters and keeps every other
  character, where Python's `lower()` also folds the other Unicode upper-case letters.
- `generate_conversation.py` (prompt assembly, a call to a language-model service, JSON
  parsing) is not part of this model.
- A turn without a `text` or `channel` key, and a voice record without one of the four
  reported fields, are not modelled: turns and records are datatypes that always have
  them.
- The cleanup-on-failure gap: a run stopped by a missing channel removes nothing. The
  model states this as the disk after the earlier turns, following the code, rather than
  modelling scoped removal on every exit.
