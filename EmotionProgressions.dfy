/**
 * The second copy of the transition table, `src/lib/emotionProgressions.ts`:
 * the same progressions, but a display table that only knows the three
 * fallback emotions. The display record type is the one of `EmotionMap`.
 */
module EmotionProgressions {
  import opened Wrappers
  import opened Text
  import EmotionMap

  type EmotionDisplay = EmotionMap.EmotionDisplay

  const Fallback: seq<string> := ["calm", "peaceful", "content"]

  const Progressions: map<string, seq<string>> := map[
    "anxious" := ["calm", "grounded", "peaceful"],
    "worried" := ["calm", "accepting", "peaceful"],
    "stressed" := ["relaxed", "calm", "peaceful"],
    "angry" := ["calm", "accepting", "peaceful"],
    "frustrated" := ["patient", "calm", "accepting"],
    "irritated" := ["calm", "patient", "accepting"],
    "sad" := ["accepting", "content", "peaceful"],
    "depressed" := ["accepting", "hopeful", "calm"],
    "lonely" := ["connected", "accepting", "peaceful"],
    "bored" := ["curious", "interested", "content"],
    "confused" := ["clear", "focused", "understanding"],
    "tired" := ["rested", "peaceful", "calm"],
    "content" := ["grateful", "joyful", "energized"],
    "calm" := ["peaceful", "grateful", "content"],
    "happy" := ["joyful", "grateful", "energized"]
  ]

  const DisplayTable: map<string, EmotionDisplay> := map[
    "calm" := EmotionMap.EmotionDisplay("Calm", "Peace and serenity", "🌿", "bg-teal-600"),
    "peaceful" := EmotionMap.EmotionDisplay("Peaceful", "Inner stillness", "☮️", "bg-blue-600"),
    "content" := EmotionMap.EmotionDisplay("Content", "Gentle satisfaction", "😊", "bg-orange-600")
  ]

  /** `getTargetEmotions`: a case-insensitive lookup with a fixed fallback. */
  function TargetEmotions(current: Option<string>): (r: seq<string>)
    ensures r == Fallback || r in Progressions.Values
  {
    if current.None? || current.value == "" then Fallback
    else
      var key := ToLower(current.value);
      if key in Progressions then Progressions[key] else Fallback
  }

  /** `getEmotionDisplay`: a case-sensitive lookup with a placeholder fallback. */
  function Display(id: string): (d: EmotionDisplay)
    ensures d in DisplayTable.Values || d == EmotionMap.Placeholder(id)
    ensures d.title == id || id in DisplayTable
  {
    if id in DisplayTable then DisplayTable[id]
    else EmotionMap.EmotionDisplay(id, "Finding balance", "✨", "bg-purple-600")
  }

  /** A missing or empty current emotion yields the fallback targets. */
  lemma TargetsOfMissingInput()
    ensures TargetEmotions(None) == ["calm", "peaceful", "content"]
    ensures TargetEmotions(Some("")) == ["calm", "peaceful", "content"]
  {
  }

  /** Both copies of the progression table are the same, so both lookups agree on every input. */
  lemma TargetsAgreeWithEmotionMap(current: Option<string>)
    ensures Progressions == EmotionMap.Progressions
    ensures TargetEmotions(current) == EmotionMap.TargetEmotions(current)
  {
  }

  /** The display table knows exactly the three fallback emotions. */
  lemma DisplayKeys()
    ensures DisplayTable.Keys == {"calm", "peaceful", "content"}
  {
  }

  /** Every other id gets the placeholder, labelled with the id itself. */
  lemma DisplayOfOtherIds(id: string)
    requires id != "calm" && id != "peaceful" && id != "content"
    ensures Display(id) == EmotionMap.Placeholder(id) && Display(id).title == id
  {
  }

  /** Each fallback target has a real entry, not the placeholder. */
  lemma FallbackTargetsDisplayed()
    ensures forall i :: 0 <= i < |Fallback| ==>
      Fallback[i] in DisplayTable && Display(Fallback[i]).description != "Finding balance"
  {
  }

  /** On its three ids the reduced table shows what `EmotionMap` shows, and an id neither table knows gets the same placeholder from both. */
  lemma DisplayAgreesWithEmotionMap(id: string)
    ensures id in DisplayTable ==> Display(id) == EmotionMap.Display(id)
    ensures id !in EmotionMap.DisplayTable ==> Display(id) == EmotionMap.Display(id)
  {
  }
}
