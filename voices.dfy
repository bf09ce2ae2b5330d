/** The voice filter: from the voice records the speech service describes, the ones of
    one language, each cut down to four fields. The service call becomes the input list. */
module Voices {

  /** A voice record as the speech service describes it. */
  datatype VoiceRecord = VoiceRecord(
    gender: string,
    id: string,
    languageCode: string,
    languageName: string,
    name: string,
    supportedEngines: seq<string>,
    additionalLanguageCodes: seq<string>)

  /** The four fields the filter reports for a voice. */
  datatype VoiceSummary = VoiceSummary(gender: string, id: string, languageCode: string, supportedEngines: seq<string>)

  predicate IsUpper(c: char)
  {
    'A' <= c <= 'Z'
  }

  /** Lower-casing of one character, on the ASCII letters. */
  function LowerChar(c: char): (r: char)
    ensures !IsUpper(r)
    ensures !IsUpper(c) ==> r == c
    ensures IsUpper(c) ==> 'a' <= r <= 'z' && r as int - c as int == 'a' as int - 'A' as int
  {
    if IsUpper(c) then (c as int - 'A' as int + 'a' as int) as char else c
  }

  /** Lower-casing of a string, character by character. */
  function Lower(s: string): (r: string)
    ensures |r| == |s|
    ensures forall i :: 0 <= i < |s| ==> r[i] == LowerChar(s[i])
    ensures forall i :: 0 <= i < |r| ==> !IsUpper(r[i])
  {
    seq(|s|, i requires 0 <= i < |s| => LowerChar(s[i]))
  }

  /** A voice is kept when no language is asked for, or when its lower-cased language
      code is the one asked for; the asked-for code itself is not lower-cased. */
  predicate Keeps(langCode: string, v: VoiceRecord)
  {
    langCode == "" || Lower(v.languageCode) == langCode
  }

  /** The projection onto gender, id, language code and engines, copied unchanged. */
  function Summary(v: VoiceRecord): VoiceSummary
  {
    VoiceSummary(v.gender, v.id, v.languageCode, v.supportedEngines)
  }

  /** What the filter returns for a list of voices: the summaries of the kept voices,
      in list order. */
  function Filtered(voices: seq<VoiceRecord>, langCode: string): seq<VoiceSummary>
  {
    if voices == [] then []
    else
      var last := voices[|voices| - 1];
      Filtered(voices[..|voices| - 1], langCode) + if Keeps(langCode, last) then [Summary(last)] else []
  }

  /** The positions of the kept voices, in increasing order: every kept voice's position
      appears, and only those. */
  function KeptIndices(voices: seq<VoiceRecord>, langCode: string): (idx: seq<nat>)
    ensures forall j :: 0 <= j < |idx| ==> idx[j] < |voices| && Keeps(langCode, voices[idx[j]])
    ensures forall j, l :: 0 <= j < l < |idx| ==> idx[j] < idx[l]
    ensures forall i :: 0 <= i < |voices| && Keeps(langCode, voices[i]) ==> i in idx
  {
    if voices == [] then []
    else
      var n := |voices| - 1;
      var prev := KeptIndices(voices[..n], langCode);
      assert forall j :: 0 <= j < |prev| ==> voices[prev[j]] == voices[..n][prev[j]];
      prev + if Keeps(langCode, voices[n]) then [n] else []
  }

  /** The filter's loop: one pass over the voices, appending the summary of each kept
      voice. */
  method FilterVoices(voices: seq<VoiceRecord>, langCode: string) returns (filtered: seq<VoiceSummary>)
    ensures filtered == Filtered(voices, langCode)
  {
    filtered := [];
    for i := 0 to |voices|
      invariant filtered == Filtered(voices[..i], langCode)
    {
      var voice := voices[i];
      var languageCode := Lower(voice.languageCode);
      if langCode == "" || languageCode == langCode {
        filtered := filtered + [Summary(voice)];
      }
      assert voices[..i + 1][..i] == voices[..i];
    }
    assert voices[..|voices|] == voices;
  }

  /** The result holds, position by position, the summaries of the voices at the kept
      positions; so it is exactly the kept voices, in list order. */
  lemma {:induction false} FilteredAtKept(voices: seq<VoiceRecord>, langCode: string)
    ensures |Filtered(voices, langCode)| == |KeptIndices(voices, langCode)|
    ensures forall j :: 0 <= j < |Filtered(voices, langCode)| ==>
              Filtered(voices, langCode)[j] == Summary(voices[KeptIndices(voices, langCode)[j]])
  {
    if voices != [] {
      var n := |voices| - 1;
      var init := voices[..n];
      FilteredAtKept(init, langCode);
      var prev := KeptIndices(init, langCode);
      forall j | 0 <= j < |prev|
        ensures Filtered(voices, langCode)[j] == Summary(voices[KeptIndices(voices, langCode)[j]])
      {
        assert Filtered(voices, langCode)[j] == Filtered(init, langCode)[j];
        assert voices[prev[j]] == init[prev[j]];
      }
    }
  }

  /** The filter never returns more records than it was given. */
  lemma {:induction false} FilteredLength(voices: seq<VoiceRecord>, langCode: string)
    ensures |Filtered(voices, langCode)| <= |voices|
  {
    if voices != [] {
      FilteredLength(voices[..|voices| - 1], langCode);
    }
  }

  /** With no language asked for, every voice is reported, in list order. */
  lemma {:induction false} EmptyCodeKeepsAll(voices: seq<VoiceRecord>)
    ensures |Filtered(voices, "")| == |voices|
    ensures forall i :: 0 <= i < |voices| ==> Filtered(voices, "")[i] == Summary(voices[i])
  {
    if voices != [] {
      var n := |voices| - 1;
      EmptyCodeKeepsAll(voices[..n]);
    }
  }

  /** A language code holding an upper-case letter matches no voice, since every
      lower-cased code is free of upper-case letters. */
  lemma {:induction false} UpperCaseCodeMatchesNothing(voices: seq<VoiceRecord>, langCode: string, k: nat)
    requires k < |langCode| && IsUpper(langCode[k])
    ensures Filtered(voices, langCode) == []
  {
    if voices != [] {
      var last := voices[|voices| - 1];
      UpperCaseCodeMatchesNothing(voices[..|voices| - 1], langCode, k);
      assert Lower(last.languageCode) != langCode by {
        if |Lower(last.languageCode)| == |langCode| {
          assert !IsUpper(Lower(last.languageCode)[k]);
        }
      }
    }
  }

  /** Every voice of the asked-for language is reported, whatever engines it supports,
      with its language code in its original case. */
  lemma EnginesIgnored(voices: seq<VoiceRecord>, langCode: string, i: nat)
    requires i < |voices| && Keeps(langCode, voices[i])
    ensures VoiceSummary(voices[i].gender, voices[i].id, voices[i].languageCode, voices[i].supportedEngines)
            in Filtered(voices, langCode)
  {
    FilteredAtKept(voices, langCode);
    var idx := KeptIndices(voices, langCode);
    var j :| 0 <= j < |idx| && idx[j] == i;
    assert Filtered(voices, langCode)[j] == Summary(voices[i]);
  }
}
