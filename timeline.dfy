/** The schedule of a conversation: which channel speaks at each turn, how long the
    silence opposite each clip lasts, and what each channel track is made of. */
module Timeline {
  import opened Overlap

  /** A piece of a mono track: a synthesized speech clip (its text, the voice that spoke
      it and the duration the probe reports for it) or a generated silence. */
  datatype Clip = Voice(text: string, voice: string, seconds: real) | Quiet(seconds: real)

  /** The channel (1 or 2) that carries the speech of turn k: strict alternation by
      index parity, whatever channel the turn itself names. */
  function SpeakerChannel(k: nat): (c: nat)
    ensures c == 1 || c == 2
  {
    if k % 2 == 0 then 1 else 2
  }

  /** Consecutive turns are spoken on different channels. */
  lemma Alternates(k: nat)
    ensures SpeakerChannel(k) != SpeakerChannel(k + 1)
  {
  }

  /** The first k entries of the list built for channel `ch`: turn i contributes its
      speech item when `ch` speaks at turn i and its silence item otherwise. */
  function Alternate<T>(speech: seq<T>, silence: seq<T>, ch: nat, k: nat): (r: seq<T>)
    requires k <= |speech| && k <= |silence|
    ensures |r| == k
    ensures forall i :: 0 <= i < k ==> r[i] == if SpeakerChannel(i) == ch then speech[i] else silence[i]
  {
    if k == 0 then []
    else Alternate(speech, silence, ch, k - 1) + [if SpeakerChannel(k - 1) == ch then speech[k - 1] else silence[k - 1]]
  }

  /** The overlap subtracted from turn k's duration: drawn from the first clip's raw
      duration at turn 0, and otherwise drawn at the end of turn k - 1 from that turn's
      effective duration. draws[k] is the draw that decides it. */
  function Applied(raw: seq<real>, draws: seq<Draw>, threshold: real, k: nat): real
    requires k < |raw| && k < |draws|
    decreases k, 0
  {
    if k == 0 then SetOverlap(raw[0], threshold, draws[0])
    else SetOverlap(Effective(raw, draws, threshold, k - 1), threshold, draws[k])
  }

  /** The overlap carried into turn k: minus the overlap subtracted at turn k - 1. */
  function Carried(raw: seq<real>, draws: seq<Draw>, threshold: real, k: nat): real
    requires k < |raw| && k < |draws|
    decreases k, 0
  {
    if k == 0 then 0.0 else -Applied(raw, draws, threshold, k - 1)
  }

  /** The effective duration of turn k: the length of the silence placed opposite its
      speech clip. */
  function Effective(raw: seq<real>, draws: seq<Draw>, threshold: real, k: nat): real
    requires k < |raw| && k < |draws|
    decreases k, 1
  {
    raw[k] - Applied(raw, draws, threshold, k) + Carried(raw, draws, threshold, k)
  }

  /** The silence clip of every turn. */
  function Silences(raw: seq<real>, draws: seq<Draw>, threshold: real): seq<Clip>
    requires |raw| < |draws|
  {
    seq(|raw|, i requires 0 <= i < |raw| => Quiet(Effective(raw, draws, threshold, i)))
  }

  /** The speech clips `speech` were measured at the raw durations `raw`. */
  predicate Measured(speech: seq<Clip>, raw: seq<real>)
  {
    |speech| == |raw| && forall i :: 0 <= i < |raw| ==> speech[i].seconds == raw[i]
  }

  /** The total length of a track. */
  function Duration(clips: seq<Clip>): real
  {
    if clips == [] then 0.0 else Duration(clips[..|clips| - 1]) + clips[|clips| - 1].seconds
  }

  /** The sum of a list of durations. */
  function Sum(xs: seq<real>): real
  {
    if xs == [] then 0.0 else Sum(xs[..|xs| - 1]) + xs[|xs| - 1]
  }

  /** No draw of the first n turns triggers an overlap. */
  predicate NoTrigger(draws: seq<Draw>, threshold: real, n: nat)
  {
    forall i :: 0 <= i < n && i < |draws| ==> draws[i].u > threshold
  }

  /** The recurrence of the effective durations, written out: the first turn loses the
      overlap drawn from its own raw duration; every later turn loses the overlap drawn
      from the previous turn's effective duration and the overlap subtracted at the
      previous turn. */
  lemma EffectiveRecurrence(raw: seq<real>, draws: seq<Draw>, threshold: real, k: nat)
    requires k < |raw| && k < |draws|
    ensures k == 0 ==> Effective(raw, draws, threshold, 0) == raw[0] - SetOverlap(raw[0], threshold, draws[0])
    ensures k > 0 ==> Effective(raw, draws, threshold, k)
                      == raw[k] - SetOverlap(Effective(raw, draws, threshold, k - 1), threshold, draws[k])
                         - Applied(raw, draws, threshold, k - 1)
  {
  }

  /** Every overlap drawn from a non-negative duration is between zero and two seconds,
      and at most half of that duration. */
  lemma AppliedBounded(raw: seq<real>, draws: seq<Draw>, threshold: real, k: nat)
    requires k < |raw| && k < |draws|
    requires k == 0 ==> raw[0] >= 0.0
    requires k > 0 ==> Effective(raw, draws, threshold, k - 1) >= 0.0
    ensures 0.0 <= Applied(raw, draws, threshold, k) <= 2.0
    ensures k == 0 ==> Applied(raw, draws, threshold, k) <= raw[0] / 2.0
    ensures k > 0 ==> Applied(raw, draws, threshold, k) <= Effective(raw, draws, threshold, k - 1) / 2.0
  {
  }

  /** When no draw triggers, no overlap is ever applied and every silence lasts exactly
      as long as the speech clip it faces. */
  lemma {:induction false} NoTriggerKeepsRaw(raw: seq<real>, draws: seq<Draw>, threshold: real, k: nat)
    requires k < |raw| && k < |draws|
    requires NoTrigger(draws, threshold, k + 1)
    ensures Applied(raw, draws, threshold, k) == 0.0
    ensures Effective(raw, draws, threshold, k) == raw[k]
  {
    if k > 0 {
      NoTriggerKeepsRaw(raw, draws, threshold, k - 1);
    }
  }

  /** Adding a clip adds its duration. */
  lemma DurationAppend(clips: seq<Clip>, c: Clip)
    ensures Duration(clips + [c]) == Duration(clips) + c.seconds
  {
    assert (clips + [c])[..|clips|] == clips;
  }

  /** The two channel tracks stay aligned: after k turns the channel that spoke last is
      longer than the other by exactly the overlap subtracted at the last turn, which is
      how far the next speaker's clip will reach back into it. */
  lemma {:induction false} ChannelsAligned(speech: seq<Clip>, raw: seq<real>, draws: seq<Draw>, threshold: real, k: nat)
    requires Measured(speech, raw) && |raw| < |draws|
    requires 1 <= k <= |raw|
    ensures var silence := Silences(raw, draws, threshold);
            Duration(Alternate(speech, silence, 1, k)) - Duration(Alternate(speech, silence, 2, k))
            == if SpeakerChannel(k - 1) == 1 then Applied(raw, draws, threshold, k - 1)
               else -Applied(raw, draws, threshold, k - 1)
  {
    var silence := Silences(raw, draws, threshold);
    var last := k - 1;
    var c1 := if SpeakerChannel(last) == 1 then speech[last] else silence[last];
    var c2 := if SpeakerChannel(last) == 2 then speech[last] else silence[last];
    var a1, a2 := Alternate(speech, silence, 1, last), Alternate(speech, silence, 2, last);
    // the clip placed on the speaking channel exceeds the silence opposite it by
    // the overlap applied now and the overlap carried in
    var gap := Applied(raw, draws, threshold, last) - Carried(raw, draws, threshold, last);
    assert speech[last].seconds - silence[last].seconds == gap by {
      assert speech[last].seconds == raw[last];
      assert silence[last] == Quiet(Effective(raw, draws, threshold, last));
    }
    assert Duration(Alternate(speech, silence, 1, k)) - Duration(Alternate(speech, silence, 2, k))
           == Duration(a1) - Duration(a2) + (if SpeakerChannel(last) == 1 then gap else -gap) by {
      assert Alternate(speech, silence, 1, k) == a1 + [c1];
      assert Alternate(speech, silence, 2, k) == a2 + [c2];
      DurationAppend(a1, c1);
      DurationAppend(a2, c2);
    }
    if last > 0 {
      assert Duration(a1) - Duration(a2)
             == if SpeakerChannel(last) == 1 then -Applied(raw, draws, threshold, last - 1)
                else Applied(raw, draws, threshold, last - 1) by {
        ChannelsAligned(speech, raw, draws, threshold, last);
        Alternates(last - 1);
      }
      assert Carried(raw, draws, threshold, last) == -Applied(raw, draws, threshold, last - 1);
    } else {
      assert a1 == [] && a2 == [];
    }
  }

  /** Turn k adds the length of the clip it places on the channel. */
  lemma AlternateDurationStep(speech: seq<Clip>, silence: seq<Clip>, ch: nat, k: nat)
    requires k < |speech| && k < |silence|
    ensures Duration(Alternate(speech, silence, ch, k + 1))
            == Duration(Alternate(speech, silence, ch, k)) + (if SpeakerChannel(k) == ch then speech[k] else silence[k]).seconds
  {
    DurationAppend(Alternate(speech, silence, ch, k), if SpeakerChannel(k) == ch then speech[k] else silence[k]);
  }

  /** Extending a prefix by one clip adds that clip's length. */
  lemma DurationPrefix(clips: seq<Clip>, k: nat)
    requires k < |clips|
    ensures Duration(clips[..k + 1]) == Duration(clips[..k]) + clips[k].seconds
  {
    assert clips[..k + 1] == clips[..k] + [clips[k]];
    DurationAppend(clips[..k], clips[k]);
  }

  /** When silence and speech agree in length turn by turn, a channel track is as long
      as the speech clips together. */
  lemma {:induction false} SameLengthTrack(speech: seq<Clip>, silence: seq<Clip>, ch: nat, k: nat)
    requires k <= |speech| && k <= |silence|
    requires forall i :: 0 <= i < k ==> silence[i].seconds == speech[i].seconds
    ensures Duration(Alternate(speech, silence, ch, k)) == Duration(speech[..k])
  {
    if k > 0 {
      calc {
        Duration(Alternate(speech, silence, ch, k));
      == { AlternateDurationStep(speech, silence, ch, k - 1); assert silence[k - 1].seconds == speech[k - 1].seconds; }
        Duration(Alternate(speech, silence, ch, k - 1)) + speech[k - 1].seconds;
      == { SameLengthTrack(speech, silence, ch, k - 1); }
        Duration(speech[..k - 1]) + speech[k - 1].seconds;
      == { DurationPrefix(speech, k - 1); }
        Duration(speech[..k]);
      }
    }
  }

  /** The speech clips together last as long as the raw durations added up. */
  lemma {:induction false} MeasuredDuration(speech: seq<Clip>, raw: seq<real>)
    requires Measured(speech, raw)
    ensures Duration(speech) == Sum(raw)
  {
    if raw != [] {
      var n := |raw| - 1;
      MeasuredDuration(speech[..n], raw[..n]);
    }
  }

  /** When no draw triggers, each of the two channel tracks lasts exactly the sum of all
      raw clip durations. */
  lemma NoTriggerTotals(speech: seq<Clip>, raw: seq<real>, draws: seq<Draw>, threshold: real)
    requires Measured(speech, raw) && |raw| < |draws|
    requires NoTrigger(draws, threshold, |raw|)
    ensures Duration(Alternate(speech, Silences(raw, draws, threshold), 1, |raw|)) == Sum(raw)
    ensures Duration(Alternate(speech, Silences(raw, draws, threshold), 2, |raw|)) == Sum(raw)
  {
    var silence := Silences(raw, draws, threshold);
    forall i | 0 <= i < |raw| ensures silence[i].seconds == speech[i].seconds {
      NoTriggerKeepsRaw(raw, draws, threshold, i);
    }
    SameLengthTrack(speech, silence, 1, |raw|);
    SameLengthTrack(speech, silence, 2, |raw|);
    assert speech[..|raw|] == speech;
    MeasuredDuration(speech, raw);
  }

  /** Four turns of 2.0, 1.5, 3.0 and 1.0 seconds with overlaps switched off give two
      channel tracks of 7.5 seconds each. */
  lemma FourTurnsWithoutOverlap(speech: seq<Clip>)
    requires Measured(speech, [2.0, 1.5, 3.0, 1.0])
    ensures var raw, draws := [2.0, 1.5, 3.0, 1.0], seq(5, _ => Draw(0.5, 0.0));
            Duration(Alternate(speech, Silences(raw, draws, 0.0), 1, 4)) == 7.5
            && Duration(Alternate(speech, Silences(raw, draws, 0.0), 2, 4)) == 7.5
  {
    var raw, draws := [2.0, 1.5, 3.0, 1.0], seq(5, _ => Draw(0.5, 0.0));
    NoTriggerTotals(speech, raw, draws, 0.0);
    assert raw[..3] == [2.0, 1.5, 3.0] && raw[..3][..2] == [2.0, 1.5] && raw[..3][..2][..1] == [2.0];
    assert Sum([2.0]) == 2.0 by { assert [2.0][..0] == []; }
    assert Sum(raw) == 7.5;
  }

  /** Two turns put the first speech clip and the second silence on channel 1, and the
      first silence and the second speech clip on channel 2. */
  lemma TwoTurnTracks(speech: seq<Clip>, silence: seq<Clip>)
    requires 2 <= |speech| && 2 <= |silence|
    ensures Alternate(speech, silence, 1, 2) == [speech[0], silence[1]]
    ensures Alternate(speech, silence, 2, 2) == [silence[0], speech[1]]
    ensures Duration(Alternate(speech, silence, 1, 2)) == speech[0].seconds + silence[1].seconds
    ensures Duration(Alternate(speech, silence, 2, 2)) == silence[0].seconds + speech[1].seconds
  {
    assert Alternate(speech, silence, 1, 2) == [speech[0]] + [silence[1]];
    assert Alternate(speech, silence, 2, 2) == [silence[0]] + [speech[1]];
    DurationAppend([speech[0]], silence[1]);
    DurationAppend([silence[0]], speech[1]);
    assert [speech[0]] == [] + [speech[0]] && [silence[0]] == [] + [silence[0]];
    DurationAppend([], speech[0]);
    DurationAppend([], silence[0]);
  }

  /** The two tracks need not end together: two clips of 5.0 seconds, where only the draw
      after the first turn triggers, give a 2.0-second overlap at the second turn, so the
      first track lasts 8.0 seconds and the second 10.0. */
  lemma UnequalTracks(speech: seq<Clip>)
    requires Measured(speech, [5.0, 5.0])
    ensures var raw, draws := [5.0, 5.0], [Draw(1.0, 0.0), Draw(0.0, 0.0), Draw(1.0, 0.0)];
            Duration(Alternate(speech, Silences(raw, draws, 0.05), 1, 2)) == 8.0
            && Duration(Alternate(speech, Silences(raw, draws, 0.05), 2, 2)) == 10.0
  {
    var raw, draws := [5.0, 5.0], [Draw(1.0, 0.0), Draw(0.0, 0.0), Draw(1.0, 0.0)];
    var silence := Silences(raw, draws, 0.05);
    calc {
      Effective(raw, draws, 0.05, 1);
    == { assert Effective(raw, draws, 0.05, 0) == 5.0 by { assert Applied(raw, draws, 0.05, 0) == 0.0; } }
      5.0 - SetOverlap(5.0, 0.05, draws[1]) - Applied(raw, draws, 0.05, 0);
    ==
      3.0;
    }
    assert silence[0].seconds == 5.0 && silence[1].seconds == 3.0;
    TwoTurnTracks(speech, silence);
  }

  /** Nothing keeps a silence from going negative: three clips of 4.0, 4.0 and 0.5
      seconds whose draws all trigger give the third turn an effective duration of
      -1.0 seconds. */
  lemma NegativeSilence()
    ensures var raw, draws := [4.0, 4.0, 0.5], seq(4, _ => Draw(0.0, 0.0));
            Effective(raw, draws, 0.05, 0) == 2.0
            && Effective(raw, draws, 0.05, 1) == 1.0
            && Effective(raw, draws, 0.05, 2) == -1.0
  {
    var raw, draws := [4.0, 4.0, 0.5], seq(4, _ => Draw(0.0, 0.0));
    assert Applied(raw, draws, 0.05, 0) == 2.0;
    assert Effective(raw, draws, 0.05, 0) == 2.0;
    assert Applied(raw, draws, 0.05, 1) == 1.0;
    assert Effective(raw, draws, 0.05, 1) == 1.0;
    assert Applied(raw, draws, 0.05, 2) == 0.5;
  }
}
