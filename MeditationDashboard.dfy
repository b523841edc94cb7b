/**
 * The dashboard of `src/components/MeditationDashboard.tsx`: it switches
 * between its overview, the player and the profile, and lists the six
 * phases with their lengths in minutes.
 */
module MeditationDashboard {
  import opened Wrappers
  import opened Text
  import MeditationPlayer

  /** A phase as the overview lists it: its length is a label such as "3 min". */
  datatype PhaseCard = PhaseCard(name: string, duration: string, description: string, color: string)

  const PhaseCards: seq<PhaseCard> := [
    PhaseCard("Awareness", "3 min", "Tune into your present moment", "bg-gradient-awareness"),
    PhaseCard("Acceptance", "2 min", "Embrace what you discover", "bg-gradient-acceptance"),
    PhaseCard("Processing", "4 min", "Explore your emotions deeply", "bg-gradient-processing"),
    PhaseCard("Reframing", "3 min", "Transform your perspective", "bg-gradient-reframing"),
    PhaseCard("Integration", "2 min", "Unify your insights", "bg-gradient-integration"),
    PhaseCard("Maintenance", "2 min", "Sustain your peace", "bg-gradient-maintenance")
  ]

  /** The "Total Duration" card. */
  const TotalDurationLabel: string := "16 min"

  function MinutesLabel(seconds: nat): string {
    NatToString(seconds / 60) + " min"
  }

  /**
   * The overview lists the player's phases in the player's order, each
   * labelled with the player's duration in minutes, and the total shown is
   * the player's 960 seconds in minutes.
   */
  lemma PhaseCardsMatchPlayer()
    ensures |PhaseCards| == |MeditationPlayer.Phases|
    ensures forall i :: 0 <= i < |PhaseCards| ==>
      PhaseCards[i].name == MeditationPlayer.Phases[i].name
      && PhaseCards[i].duration == MinutesLabel(MeditationPlayer.Duration(i))
    ensures TotalDurationLabel == MinutesLabel(MeditationPlayer.TotalSeconds())
  {
    MeditationPlayer.PhaseTable();
    assert NatToString(16) == "16" by {
      assert NatToString(1) == "1";
    }
  }

  datatype View = ProfileView | PlayerView | Overview

  /** The profile takes priority over the player, which takes priority over the overview. */
  function SelectView(showPlayer: bool, showProfile: bool): (v: View)
    ensures v == ProfileView <==> showProfile
    ensures v == PlayerView <==> showPlayer && !showProfile
    ensures v == Overview <==> !showPlayer && !showProfile
  {
    if showProfile then ProfileView else if showPlayer then PlayerView else Overview
  }

  class Dashboard {
    var showPlayer: bool
    var showProfile: bool
    /** `mood_text` of the most recent mood entry, once one was fetched (itself possibly null). */
    var recentMood: Option<Option<string>>
    var sessionCount: nat

    function View(): View
      reads this
    {
      SelectView(showPlayer, showProfile)
    }

    constructor ()
      ensures !showPlayer && !showProfile && recentMood == None && sessionCount == 0
      ensures View() == Overview
    {
      showPlayer, showProfile, recentMood, sessionCount := false, false, None, 0;
    }

    /**
     * `fetchUserData` for a signed-in user: a fetched mood entry replaces
     * the recent mood, and a missing count shows as 0.
     */
    method UserDataFetched(moodEntry: Option<Option<string>>, count: Option<nat>)
      modifies this
      ensures showPlayer == old(showPlayer) && showProfile == old(showProfile)
      ensures recentMood == (if moodEntry.Some? then moodEntry else old(recentMood))
      ensures sessionCount == (if count.Some? then count.value else 0)
    {
      if moodEntry.Some? {
        recentMood := moodEntry;
      }
      sessionCount := count.GetOr(0);
    }

    /** `startMeditation`. */
    method StartMeditation()
      modifies this
      ensures showPlayer && showProfile == old(showProfile)
      ensures recentMood == old(recentMood) && sessionCount == old(sessionCount)
      ensures !showProfile ==> View() == PlayerView
    {
      showPlayer := true;
    }

    /** `handleMeditationComplete` (the data refresh it starts arrives as `UserDataFetched`). */
    method MeditationComplete()
      modifies this
      ensures !showPlayer && showProfile == old(showProfile)
      ensures recentMood == old(recentMood) && sessionCount == old(sessionCount)
    {
      showPlayer := false;
    }

    /** The player's back button. */
    method PlayerBack()
      modifies this
      ensures !showPlayer && showProfile == old(showProfile)
      ensures recentMood == old(recentMood) && sessionCount == old(sessionCount)
    {
      showPlayer := false;
    }

    /** The Profile button of the overview. */
    method OpenProfile()
      modifies this
      ensures showProfile && showPlayer == old(showPlayer)
      ensures recentMood == old(recentMood) && sessionCount == old(sessionCount)
      ensures View() == ProfileView
    {
      showProfile := true;
    }

    /** The profile's back button. */
    method ProfileBack()
      modifies this
      ensures !showProfile && showPlayer == old(showPlayer)
      ensures recentMood == old(recentMood) && sessionCount == old(sessionCount)
    {
      showProfile := false;
    }
  }
}
