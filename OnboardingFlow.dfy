/**
 * The two-step check-in of `src/components/meditation/OnboardingFlow.tsx`:
 * pick one of six moods, optionally describe it, and submit one
 * `mood_entries` row.
 */
module OnboardingFlow {
  import opened Wrappers
  import opened Text

  type UserId = string

  /** A mood button (its icon component is presentation only). */
  datatype MoodOption = MoodOption(emoji: string, name: string, color: string, description: string)

  const MoodOptions: seq<MoodOption> := [
    MoodOption("😌", "Calm", "bg-acceptance", "Feeling peaceful and centered"),
    MoodOption("😊", "Happy", "bg-integration", "Joyful and optimistic"),
    MoodOption("😟", "Anxious", "bg-processing", "Worried or restless"),
    MoodOption("😔", "Sad", "bg-awareness", "Feeling down or melancholy"),
    MoodOption("😤", "Frustrated", "bg-reframing", "Annoyed or stressed"),
    MoodOption("🤔", "Confused", "bg-maintenance", "Uncertain or overwhelmed")
  ]

  /** Six options with pairwise-distinct labels (they are the React keys), each with a description. */
  lemma MoodOptionsDistinct()
    ensures |MoodOptions| == 6
    ensures forall i, j :: 0 <= i < j < |MoodOptions| ==> MoodOptions[i].name != MoodOptions[j].name
    ensures forall i :: 0 <= i < |MoodOptions| ==> MoodOptions[i].description != ""
  {
  }

  /** The row inserted into `mood_entries`. */
  datatype MoodEntryInsert = MoodEntryInsert(userId: UserId, moodText: string, moodColor: string, energyLevel: nat)

  /** The insert built by `handleSubmit`: typed text, or else the mood's description; the mood's colour; energy 3. */
  function MoodEntryRow(userId: UserId, moodText: string, mood: MoodOption): (row: MoodEntryInsert)
    ensures row.userId == userId && row.moodColor == mood.color && row.energyLevel == 3
    ensures moodText != "" ==> row.moodText == moodText
    ensures moodText == "" ==> row.moodText == mood.description
  {
    MoodEntryInsert(userId, OrElse(moodText, mood.description), mood.color, 3)
  }

  /** For every offered mood the stored text is never empty. */
  lemma MoodEntryTextNeverEmpty(userId: UserId, moodText: string, i: nat)
    requires i < |MoodOptions|
    ensures MoodEntryRow(userId, moodText, MoodOptions[i]).moodText != ""
  {
    MoodOptionsDistinct();
  }

  /** What `handleSubmit` closed over when it was clicked. */
  datatype PendingSubmit = PendingSubmit(mood: MoodOption, moodText: string)

  datatype SubmitOutcome = Completed | Failed

  class Onboarding {
    var step: nat
    var selectedMood: Option<MoodOption>
    var moodText: string
    var loading: bool

    /** Step 2 is only ever entered by choosing a mood. */
    ghost predicate Valid()
      reads this
    {
      (step == 1 || step == 2) && (step == 2 ==> selectedMood.Some?)
    }

    /** The mood grid shows on step 1. */
    function ShowsMoodGrid(): bool
      reads this
    {
      step == 1
    }

    /** The details card shows on step 2 when a mood is selected. */
    function ShowsDetailsCard(): bool
      reads this
    {
      step == 2 && selectedMood.Some?
    }

    /** In every reachable state exactly one of the two cards shows. */
    lemma OneCardShows()
      requires Valid()
      ensures ShowsMoodGrid() != ShowsDetailsCard()
    {
    }

    constructor ()
      ensures Valid() && step == 1 && selectedMood == None && moodText == "" && !loading
    {
      step, selectedMood, moodText, loading := 1, None, "", false;
    }

    /** `handleMoodSelection`. */
    method SelectMood(mood: MoodOption)
      requires Valid()
      modifies this
      ensures Valid() && selectedMood == Some(mood) && step == 2
      ensures moodText == old(moodText) && loading == old(loading)
      ensures ShowsDetailsCard()
    {
      selectedMood := Some(mood);
      step := 2;
    }

    /** Typing in the text area. */
    method EditText(text: string)
      requires Valid()
      modifies this
      ensures Valid() && moodText == text
      ensures step == old(step) && selectedMood == old(selectedMood) && loading == old(loading)
    {
      moodText := text;
    }

    /** The Back button on step 2: back to the grid, keeping the selected mood. */
    method Back()
      requires Valid()
      modifies this
      ensures Valid() && step == 1 && selectedMood == old(selectedMood)
      ensures moodText == old(moodText) && loading == old(loading)
    {
      step := 1;
    }

    /** The synchronous part of `handleSubmit`: nothing without a mood, else `loading` is set and the inputs are captured. */
    method BeginSubmit() returns (pending: Option<PendingSubmit>)
      requires Valid()
      modifies this
      ensures Valid() && step == old(step) && selectedMood == old(selectedMood) && moodText == old(moodText)
      ensures old(selectedMood).None? ==> pending.None? && loading == old(loading)
      ensures old(selectedMood).Some? ==>
        pending == Some(PendingSubmit(old(selectedMood).value, old(moodText))) && loading
    {
      if selectedMood.None? {
        return None;
      }
      loading := true;
      pending := Some(PendingSubmit(selectedMood.value, moodText));
    }

    /**
     * The rest of `handleSubmit`, given the signed-in user (if any) and
     * whether the store accepted the row: returns the row sent, if one was,
     * and whether `onComplete` is called. `loading` ends false either way.
     */
    method FinishSubmit(pending: PendingSubmit, user: Option<UserId>, insertSucceeded: bool)
      returns (sent: Option<MoodEntryInsert>, outcome: SubmitOutcome)
      requires Valid()
      modifies this
      ensures Valid() && !loading
      ensures step == old(step) && selectedMood == old(selectedMood) && moodText == old(moodText)
      ensures user.None? ==> sent.None? && outcome == Failed
      ensures user.Some? ==> sent == Some(MoodEntryRow(user.value, pending.moodText, pending.mood))
      ensures outcome == Completed <==> user.Some? && insertSucceeded
    {
      if user.None? {
        sent, outcome := None, Failed;
      } else {
        sent := Some(MoodEntryRow(user.value, pending.moodText, pending.mood));
        outcome := if insertSucceeded then Completed else Failed;
      }
      loading := false;
    }
  }
}
