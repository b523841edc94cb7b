/**
 * The emotion transition table of `src/lib/emotionMap.ts`: each current
 * emotion leads to three ordered target emotions, and every emotion id
 * resolves to display metadata (label, description, emoji, colour class).
 */
module EmotionMap {
  import opened Wrappers
  import opened Text

  /** Display metadata of one emotion (`title` is the source's `label`, a reserved word here). */
  datatype EmotionDisplay = EmotionDisplay(title: string, description: string, emoji: string, color: string)

  /** Targets offered when the current emotion is absent or unknown. */
  const Fallback: seq<string> := ["calm", "peaceful", "content"]

  const Progressions: map<string, seq<string>> := map[
    "anxious" := ["calm", "grounded", "peaceful"],
    "worried" := ["calm", "accepting", "peaceful"],
    "stressed" := ["relaxed", "calm", "peaceful"],
    "angry" := ["calm", "accepting", "peaceful"],
    "frustrated" := ["patient", "calm", "accepting"],
    "irritated" := ["calm", "patient", "accepting"],
    "sad" := ["accepting", "content", "peaceful"],
    "depressed" := ["accepting", "hopeful", "calm"],
    "lonely" := ["connected", "accepting", "peaceful"],
    "bored" := ["curious", "interested", "content"],
    "confused" := ["clear", "focused", "understanding"],
    "tired" := ["rested", "peaceful", "calm"],
    "content" := ["grateful", "joyful", "energized"],
    "calm" := ["peaceful", "grateful", "content"],
    "happy" := ["joyful", "grateful", "energized"]
  ]

  const DisplayTable: map<string, EmotionDisplay> := map[
    "calm" := EmotionDisplay("Calm", "Peace and serenity", "🌿", "bg-teal-600"),
    "peaceful" := EmotionDisplay("Peaceful", "Inner stillness", "☮️", "bg-blue-600"),
    "content" := EmotionDisplay("Content", "Gentle satisfaction", "😊", "bg-orange-600"),
    "accepting" := EmotionDisplay("Accepting", "Allowing what is", "🤲", "bg-amber-600"),
    "patient" := EmotionDisplay("Patient", "Steady and calm", "🐢", "bg-yellow-600"),
    "grounded" := EmotionDisplay("Grounded", "Centered and stable", "🌱", "bg-green-700"),
    "hopeful" := EmotionDisplay("Hopeful", "Looking forward", "🌈", "bg-sky-500"),
    "connected" := EmotionDisplay("Connected", "In touch with others", "🤝", "bg-rose-500"),
    "curious" := EmotionDisplay("Curious", "Open to discovery", "🪶", "bg-indigo-500"),
    "joyful" := EmotionDisplay("Joyful", "Light and radiant", "☀️", "bg-yellow-400"),
    "energized" := EmotionDisplay("Energized", "Alive and vibrant", "⚡", "bg-lime-500"),
    "relaxed" := EmotionDisplay("Relaxed", "Ease and comfort", "😌", "bg-cyan-600")
  ]

  /** The placeholder shown for an emotion id the display table does not know. */
  function Placeholder(id: string): (d: EmotionDisplay)
    ensures d.title == id
  {
    EmotionDisplay(id, "Finding balance", "✨", "bg-purple-600")
  }

  /** `getTargetEmotions`: a case-insensitive lookup with a fixed fallback. */
  function TargetEmotions(current: Option<string>): (r: seq<string>)
    ensures r == Fallback || r in Progressions.Values
  {
    if current.None? || current.value == "" then Fallback
    else
      var key := ToLower(current.value);
      if key in Progressions then Progressions[key] else Fallback
  }

  /** `getEmotionDisplay`: a case-sensitive lookup with a placeholder fallback. */
  function Display(id: string): (d: EmotionDisplay)
    ensures d in DisplayTable.Values || d == Placeholder(id)
    ensures d.title == id || id in DisplayTable
  {
    if id in DisplayTable then DisplayTable[id] else Placeholder(id)
  }

  predicate Distinct3(s: seq<string>) {
    |s| == 3 && s[0] != s[1] && s[0] != s[2] && s[1] != s[2]
  }

  predicate HasNoUpper(s: string) {
    forall i :: 0 <= i < |s| ==> !IsAsciiUpper(s[i])
  }

  lemma LowerOfLowercase(s: string)
    requires HasNoUpper(s)
    ensures ToLower(s) == s
  {
    assert forall i :: 0 <= i < |s| ==> ToLower(s)[i] == s[i];
  }

  /** Every key is lower-case, and every entry lists three distinct targets, none of them its own key. */
  lemma ProgressionsWellFormed()
    ensures forall k :: k in Progressions ==> HasNoUpper(k)
    ensures forall k :: k in Progressions ==> Distinct3(Progressions[k]) && k !in Progressions[k]
  {
    ProgressionKeysLowercase();
    ProgressionEntriesDistinct();
  }

  lemma ProgressionKeysLowercase()
    ensures forall k :: k in Progressions ==> HasNoUpper(k)
  {
  }

  lemma ProgressionEntriesDistinct()
    ensures forall k :: k in Progressions ==> Distinct3(Progressions[k]) && k !in Progressions[k]
  {
  }

  /** A missing or empty current emotion yields the fallback targets. */
  lemma TargetsOfMissingInput()
    ensures TargetEmotions(None) == ["calm", "peaceful", "content"]
    ensures TargetEmotions(Some("")) == ["calm", "peaceful", "content"]
  {
  }

  /** The lookup ignores case: an input and its lower-case form give the same targets. */
  lemma TargetsCaseInsensitive(s: string)
    ensures TargetEmotions(Some(s)) == TargetEmotions(Some(ToLower(s)))
  {
    ToLowerIdempotent(s);
  }

  /** Capitalisation does not matter: "Anxious" leads where "anxious" does. */
  lemma TargetsOfAnxious()
    ensures TargetEmotions(Some("Anxious")) == ["calm", "grounded", "peaceful"]
  {
    LowerOfAnxious();
    TargetsCaseInsensitive("Anxious");
    TargetsOfKey("anxious");
  }

  lemma LowerOfAnxious()
    ensures ToLower("Anxious") == "anxious"
  {
    var lower := ToLower("Anxious");
    assert lower[0] == 'a';
    assert forall i :: 1 <= i < 7 ==> lower[i] == "Anxious"[i];
  }

  /** A table key yields exactly its configured list. */
  lemma TargetsOfKey(k: string)
    requires k in Progressions
    ensures TargetEmotions(Some(k)) == Progressions[k]
  {
    ProgressionsWellFormed();
    LowerOfLowercase(k);
  }

  /** A non-empty input whose lower-case form is not a key yields the fallback. */
  lemma TargetsOfUnknown(s: string)
    requires s != "" && ToLower(s) !in Progressions
    ensures TargetEmotions(Some(s)) == Fallback
  {
  }

  /** Every result holds three pairwise-distinct targets. */
  lemma TargetsAreThreeDistinct(current: Option<string>)
    ensures Distinct3(TargetEmotions(current))
  {
    ProgressionsWellFormed();
  }

  /** A hit returns the table entry; a miss returns the placeholder labelled with the id. */
  lemma DisplayLookup(id: string)
    ensures id in DisplayTable ==> Display(id) == DisplayTable[id]
    ensures id !in DisplayTable ==> Display(id) == EmotionDisplay(id, "Finding balance", "✨", "bg-purple-600")
  {
  }

  /** No table entry is described as "Finding balance", so the placeholder shows exactly on a miss. */
  lemma DisplayIsPlaceholderIffUnknown(id: string)
    ensures Display(id).description == "Finding balance" <==> id !in DisplayTable
  {
  }

  /** The display lookup respects case: "Calm" is not a key and gets the placeholder labelled "Calm". */
  lemma DisplayCaseSensitive()
    ensures Display("Calm") == Placeholder("Calm") && Display("Calm").title == "Calm"
    ensures Display("calm").title == "Calm" && Display("calm").emoji == "🌿"
  {
  }

  /** A lower-case id with its first letter upper-cased, as the table's labels are written. */
  function Capitalized(id: string): (r: string)
    requires id != [] && 'a' <= id[0] <= 'z'
    ensures |r| == |id| && IsAsciiUpper(r[0]) && r[1..] == id[1..]
  {
    [(id[0] as int - 32) as char] + id[1..]
  }

  lemma LowerOfCapitalized(id: string)
    requires id != [] && 'a' <= id[0] <= 'z' && HasNoUpper(id)
    ensures ToLower(Capitalized(id)) == id
  {
    assert forall i :: 0 <= i < |id| ==> ToLower(Capitalized(id))[i] == id[i];
  }

  /** Every display key is a lower-case word. */
  lemma DisplayKeyIsLowercase(k: string)
    requires k in DisplayTable
    ensures k != [] && 'a' <= k[0] <= 'z' && HasNoUpper(k)
  {
  }

  /** Every display label is its key with the first letter upper-cased. */
  lemma DisplayLabelCapitalizesKey(k: string)
    requires k in DisplayTable && k != [] && 'a' <= k[0] <= 'z'
    ensures DisplayTable[k].title == Capitalized(k)
  {
    if k == "calm" || k == "peaceful" || k == "content" || k == "accepting" {
      CapitalizedCalmToAccepting(k);
    } else if k == "patient" || k == "grounded" || k == "hopeful" || k == "connected" {
      CapitalizedPatientToConnected(k);
    } else {
      CapitalizedCuriousToRelaxed(k);
    }
  }

  lemma CapitalizedCalmToAccepting(k: string)
    requires k == "calm" || k == "peaceful" || k == "content" || k == "accepting"
    ensures DisplayTable[k].title == Capitalized(k)
  {
    if k == "calm" {
      assert Capitalized(k) == "Calm";
    } else if k == "peaceful" {
      assert Capitalized(k) == "Peaceful";
    } else if k == "content" {
      assert Capitalized(k) == "Content";
    } else {
      assert Capitalized(k) == "Accepting";
    }
  }

  lemma CapitalizedPatientToConnected(k: string)
    requires k == "patient" || k == "grounded" || k == "hopeful" || k == "connected"
    ensures DisplayTable[k].title == Capitalized(k)
  {
    if k == "patient" {
      assert Capitalized(k) == "Patient";
    } else if k == "grounded" {
      assert Capitalized(k) == "Grounded";
    } else if k == "hopeful" {
      assert Capitalized(k) == "Hopeful";
    } else {
      assert Capitalized(k) == "Connected";
    }
  }

  lemma CapitalizedCuriousToRelaxed(k: string)
    requires k == "curious" || k == "joyful" || k == "energized" || k == "relaxed"
    ensures DisplayTable[k].title == Capitalized(k)
  {
    if k == "curious" {
      assert Capitalized(k) == "Curious";
    } else if k == "joyful" {
      assert Capitalized(k) == "Joyful";
    } else if k == "energized" {
      assert Capitalized(k) == "Energized";
    } else {
      assert Capitalized(k) == "Relaxed";
    }
  }

  /** For a lower-case id the shown label always lower-cases back to the id, table hit or not. */
  lemma DisplayLabelNamesId(id: string)
    requires HasNoUpper(id)
    ensures ToLower(Display(id).title) == id
  {
    if id in DisplayTable {
      DisplayKeyIsLowercase(id);
      DisplayLabelCapitalizesKey(id);
      LowerOfCapitalized(id);
    } else {
      LowerOfLowercase(id);
    }
  }
}
