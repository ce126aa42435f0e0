/**
 * The voice picker of app/components/voice-showcase.tsx: five voices, each
 * with a hidden audio element holding its preview. The `playingPreview`
 * state field names the voice whose preview is playing; the audio elements
 * that are playing are a set of voice ids; the voices handed to
 * `onVoiceSelect` are recorded in order.
 */
module VoiceShowcase {
  import opened Wrappers
  import opened Strings

  /** `Voice` */
  datatype Voice = Voice(id: string, name: string, preview: string, avatar: string, category: string, tags: seq<string>)

  /** `AVAILABLE_VOICES`, without the prose descriptions. */
  const AVAILABLE_VOICES: seq<Voice> := [
    Voice("21m00Tcm4TlvDq8ikWAM", "Rachel", "/voices/rachel-preview.mp3", "/voices/rachel-avatar.jpg", "Professional", ["Clear", "Warm", "Natural"]),
    Voice("AZnzlk1XvdvUeBnXmlld", "Domi", "/voices/domi-preview.mp3", "/voices/domi-avatar.jpg", "Dynamic", ["Energetic", "Expressive", "Young"]),
    Voice("EXAVITQu4vr4xnSDxMaL", "Bella", "/voices/bella-preview.mp3", "/voices/bella-avatar.jpg", "Narrative", ["Smooth", "Sophisticated", "Emotional"]),
    Voice("MF3mGyEYCl7XYWbV9V6O", "Marcus", "/voices/marcus-preview.mp3", "/voices/marcus-avatar.jpg", "Professional", ["Deep", "Authoritative", "Friendly"]),
    Voice("TxGEqnHWrfWFTfGW9XjX", "Sophie", "/voices/sophie-preview.mp3", "/voices/sophie-avatar.jpg", "Narrative", ["Gentle", "Soothing", "Articulate"])
  ]

  /** The ids of the voices, each the id of one audio element `preview-<id>`. */
  predicate IsVoiceId(id: string) {
    exists i :: 0 <= i < |AVAILABLE_VOICES| && AVAILABLE_VOICES[i].id == id
  }

  /** No two voices share an id, so every card, button and audio element belongs to one voice. */
  lemma VoiceIdsDistinct(i: nat, j: nat)
    requires i < |AVAILABLE_VOICES| && j < |AVAILABLE_VOICES| && i != j
    ensures AVAILABLE_VOICES[i].id != AVAILABLE_VOICES[j].id
  {
    assert AVAILABLE_VOICES[i].id[0] != AVAILABLE_VOICES[j].id[0];
  }

  /** The header's count: the number of voices listed. */
  function CountLabel(): (caption: string)
    ensures var n := |caption| - 17;
            n > 0 && caption[n..] == " voices available" && AllDigits(caption[..n]) && DigitsValue(caption[..n]) == |AVAILABLE_VOICES|
  {
    var digits := NatToString(|AVAILABLE_VOICES|);
    NatToStringValue(|AVAILABLE_VOICES|);
    assert (digits + " voices available")[..|digits|] == digits;
    digits + " voices available"
  }

  /** The header says five. */
  lemma CountLabelIsFive()
    ensures CountLabel() == "5 voices available"
  {
    assert NatToString(5) == "5";
  }

  /** The audio elements playing when the state names `current`: its own, or none. */
  function PlayingFor(current: Option<string>): (p: set<string>)
    ensures |p| <= 1
    ensures forall id :: id in p <==> current == Some(id)
  {
    if current.Some? then {current.value} else {}
  }

  class VoiceShowcase {
    var playingPreview: Option<string>
    /** The voices whose audio element is playing. */
    var playing: set<string>
    /** Every voice handed to `onVoiceSelect`, in order. */
    var selections: seq<Voice>

    /** At most one preview plays, and it is the one `playingPreview` names. */
    predicate Valid()
      reads this
    {
      playing == PlayingFor(playingPreview) &&
      (playingPreview.Some? ==> IsVoiceId(playingPreview.value))
    }

    /** Nothing is playing and nothing was selected. */
    constructor ()
      ensures Valid()
      ensures playingPreview == None && playing == {} && selections == []
    {
      playingPreview := None;
      playing := {};
      selections := [];
    }

    /**
     * `handlePreviewPlay(voiceId)`: the playing voice is paused and cleared;
     * any other voice is played, after pausing the one playing, if any.
     */
    method HandlePreviewPlay(voiceId: string)
      requires Valid() && IsVoiceId(voiceId)
      modifies this
      ensures Valid()
      ensures old(playingPreview) == Some(voiceId) ==> playingPreview == None && playing == {}
      ensures old(playingPreview) != Some(voiceId) ==> playingPreview == Some(voiceId) && playing == {voiceId}
      ensures selections == old(selections)
    {
      if playingPreview == Some(voiceId) {
        playing := playing - {voiceId};
        playingPreview := None;
      } else {
        if playingPreview.Some? {
          playing := playing - {playingPreview.value};
        }
        playing := playing + {voiceId};
        playingPreview := Some(voiceId);
      }
    }

    /** A preview's `onEnded`: that audio element stops and the state is cleared. */
    method OnEnded(voiceId: string)
      requires Valid() && voiceId in playing
      modifies this
      ensures Valid()
      ensures playingPreview == None && playing == old(playing) - {voiceId}
      ensures selections == old(selections)
    {
      playing := playing - {voiceId};
      playingPreview := None;
    }

    /** A click on a card: the card's voice is handed to `onVoiceSelect`; the previews are untouched. */
    method ClickCard(voice: Voice)
      modifies this
      ensures selections == old(selections) + [voice]
      ensures playingPreview == old(playingPreview) && playing == old(playing)
    {
      selections := selections + [voice];
    }

    /**
     * A click on a card's preview button: `stopPropagation` keeps it from
     * reaching the card, so it toggles the preview and selects nothing.
     */
    method ClickPreviewButton(voice: Voice)
      requires Valid() && IsVoiceId(voice.id)
      modifies this
      ensures Valid()
      ensures selections == old(selections)
      ensures old(playingPreview) == Some(voice.id) <==> playingPreview == None
      ensures old(playingPreview) == Some(voice.id) ==> playing == {}
      ensures old(playingPreview) != Some(voice.id) ==> playingPreview == Some(voice.id) && playing == {voice.id}
    {
      HandlePreviewPlay(voice.id);
    }
  }

  /** Two previews started one after the other leave only the second playing. */
  method SecondPreviewStopsFirst(v: VoiceShowcase, a: string, b: string)
    requires v.Valid() && IsVoiceId(a) && IsVoiceId(b) && a != b && v.playingPreview == None
    modifies v
    ensures v.Valid() && v.playingPreview == Some(b) && v.playing == {b} && a !in v.playing
  {
    v.HandlePreviewPlay(a);
    v.HandlePreviewPlay(b);
  }
}
