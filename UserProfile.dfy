/**
 * The profile page of `src/components/UserProfile.tsx`: statistics derived
 * from the fetched sessions, the display-name fallback, and the editable
 * meditation preferences with their save flag.
 */
module UserProfile {
  import opened Wrappers
  import opened Text

  /** A fetched `meditation_sessions` row (the fields the page reads). */
  datatype SessionRow = SessionRow(completed: bool, sessionDuration: Option<int>)

  /** `sessions.filter(s => s.completed)`. */
  function CompletedSessions(sessions: seq<SessionRow>): (r: seq<SessionRow>)
    ensures |r| <= |sessions|
    ensures forall i :: 0 <= i < |r| ==> r[i].completed
    ensures forall i :: 0 <= i < |sessions| && sessions[i].completed ==> sessions[i] in r
    ensures |r| == |sessions| ==> r == sessions
    ensures (forall i :: 0 <= i < |sessions| ==> sessions[i].completed) ==> r == sessions
    ensures (forall i :: 0 <= i < |sessions| ==> !sessions[i].completed) ==> r == []
  {
    if sessions == [] then []
    else if sessions[0].completed then [sessions[0]] + CompletedSessions(sessions[1..])
    else CompletedSessions(sessions[1..])
  }

  /** The "Sessions Complete" figure. */
  function CompletedCount(sessions: seq<SessionRow>): (r: nat)
    ensures r <= |sessions|
  {
    |CompletedSessions(sessions)|
  }

  /** The count is at most the number of sessions; it is all of them exactly when every one is completed, and 0 exactly when none is. */
  lemma CompletedCountBounds(sessions: seq<SessionRow>)
    ensures CompletedCount(sessions) <= |sessions|
    ensures CompletedCount(sessions) == |sessions| <==> forall i :: 0 <= i < |sessions| ==> sessions[i].completed
    ensures CompletedCount(sessions) == 0 <==> forall i :: 0 <= i < |sessions| ==> !sessions[i].completed
  {
    if CompletedCount(sessions) == |sessions| {
      assert CompletedSessions(sessions) == sessions;
    }
    if exists i :: 0 <= i < |sessions| && sessions[i].completed {
      var i :| 0 <= i < |sessions| && sessions[i].completed;
      assert sessions[i] in CompletedSessions(sessions);
    }
  }

  /** The positions of the completed sessions. */
  function CompletedPositions(sessions: seq<SessionRow>): set<nat> {
    set i: nat | i < |sessions| && sessions[i].completed
  }

  /** Filtering distributes over concatenation. */
  lemma {:induction false} CompletedSessionsAppend(a: seq<SessionRow>, b: seq<SessionRow>)
    ensures CompletedSessions(a + b) == CompletedSessions(a) + CompletedSessions(b)
  {
    if a == [] {
      assert a + b == b;
    } else {
      assert (a + b)[1..] == a[1..] + b;
      CompletedSessionsAppend(a[1..], b);
    }
  }

  /** Adding a session at the end adds its position exactly when it is completed. */
  lemma CompletedPositionsSnoc(front: seq<SessionRow>, last: SessionRow)
    ensures |front| !in CompletedPositions(front)
    ensures CompletedPositions(front + [last]) ==
      CompletedPositions(front) + (if last.completed then {|front|} else {})
  {
    var whole := front + [last];
    forall i: nat | i < |front| ensures whole[i] == front[i] {
    }
  }

  /** The figure shown is exactly the number of sessions marked completed. */
  lemma {:induction false} CompletedCountIsNumberCompleted(sessions: seq<SessionRow>)
    ensures CompletedCount(sessions) == |CompletedPositions(sessions)|
  {
    if sessions != [] {
      var n := |sessions| - 1;
      var front, last := sessions[..n], sessions[n];
      assert sessions == front + [last];
      CompletedSessionsAppend(front, [last]);
      CompletedCountIsNumberCompleted(front);
      CompletedPositionsSnoc(front, last);
    }
  }

  /** `sessions.reduce((sum, s) => sum + (s.session_duration || 0), 0)`. */
  function DurationSum(sessions: seq<SessionRow>): (r: int)
    ensures (forall i :: 0 <= i < |sessions| ==> sessions[i].sessionDuration.GetOr(0) >= 0) ==> r >= 0
  {
    if sessions == [] then 0
    else DurationSum(sessions[..|sessions| - 1]) + sessions[|sessions| - 1].sessionDuration.GetOr(0)
  }

  /** `Math.round(sum / 60)`: the nearest whole number of minutes, a half minute rounding up. */
  function TotalMinutes(sessions: seq<SessionRow>): (r: int)
    ensures 60 * r - 30 <= DurationSum(sessions) < 60 * r + 30
    ensures DurationSum(sessions) >= 0 ==> r >= 0
  {
    (DurationSum(sessions) + 30) / 60
  }

  /** Every full 960-second session adds 16 minutes to the sum. */
  lemma {:induction false} FullSessionsSum(sessions: seq<SessionRow>)
    requires forall i :: 0 <= i < |sessions| ==> sessions[i].sessionDuration == Some(960)
    ensures DurationSum(sessions) == 960 * |sessions| && TotalMinutes(sessions) == 16 * |sessions|
  {
    if sessions != [] {
      FullSessionsSum(sessions[..|sessions| - 1]);
    }
  }

  /** `sessions.slice(0, 3)`: the listed recent sessions, at most three, the first ones fetched. */
  function RecentSessions(sessions: seq<SessionRow>): (r: seq<SessionRow>)
    ensures |r| <= 3 && |r| <= |sessions| && r == sessions[..|r|]
    ensures |r| == if |sessions| < 3 then |sessions| else 3
  {
    if |sessions| <= 3 then sessions else sessions[..3]
  }

  /** `profile?.name || user?.email?.split('@')[0] || 'Mindful Soul'`. */
  function DisplayName(profileName: Option<string>, email: Option<string>): (r: string)
    ensures r == profileName.GetOr("") || r == FirstToken(email.GetOr(""), '@') || r == "Mindful Soul"
  {
    OrElse(profileName.GetOr(""), OrElse(FirstToken(email.GetOr(""), '@'), "Mindful Soul"))
  }

  /** The three-step fallback of the heading. */
  lemma DisplayNameFallback(profileName: Option<string>, email: Option<string>)
    ensures profileName.Some? && profileName.value != "" ==> DisplayName(profileName, email) == profileName.value
    ensures (profileName.None? || profileName.value == "") && email.Some? && FirstToken(email.value, '@') != "" ==>
      DisplayName(profileName, email) == FirstToken(email.value, '@')
    ensures (profileName.None? || profileName.value == "") && (email.None? || FirstToken(email.value, '@') == "") ==>
      DisplayName(profileName, email) == "Mindful Soul"
    ensures DisplayName(profileName, email) != ""
  {
  }

  /** A name taken from the e-mail address is the part before the '@'. */
  lemma EmailNameIsLocalPart(local: string, domain: string)
    requires local != "" && forall i :: 0 <= i < |local| ==> local[i] != '@'
    ensures DisplayName(None, Some(local + "@" + domain)) == local
  {
    LocalPartBeforeAt(local, domain);
  }

  lemma {:induction false} LocalPartBeforeAt(local: string, domain: string)
    requires forall i :: 0 <= i < |local| ==> local[i] != '@'
    ensures FirstToken(local + "@" + domain, '@') == local
  {
    if local != [] {
      assert (local + "@" + domain)[1..] == local[1..] + "@" + domain;
      LocalPartBeforeAt(local[1..], domain);
    }
  }

  /** A `meditation_preferences` row (the four fields the page edits and saves). */
  datatype Preferences = Preferences(voiceStyle: Option<string>, colorTone: Option<string>,
                                     musicPreference: Option<string>, meditationType: Option<string>)

  const NoPreferences: Preferences := Preferences(None, None, None, None)

  datatype PreferenceField = VoiceStyle | ColorTone | MeditationType

  function FieldValue(p: Preferences, f: PreferenceField): Option<string> {
    match f
    case VoiceStyle => p.voiceStyle
    case ColorTone => p.colorTone
    case MeditationType => p.meditationType
  }

  /** `setPreferences({ ...preferences, field: value })`: spreading `null` gives an otherwise empty object. */
  function WithPreference(prefs: Option<Preferences>, f: PreferenceField, value: string): (r: Preferences)
    ensures FieldValue(r, f) == Some(value)
    ensures forall g :: g != f ==> FieldValue(r, g) == FieldValue(prefs.GetOr(NoPreferences), g)
    ensures r.musicPreference == prefs.GetOr(NoPreferences).musicPreference
  {
    var p := prefs.GetOr(NoPreferences);
    match f
    case VoiceStyle => p.(voiceStyle := Some(value))
    case ColorTone => p.(colorTone := Some(value))
    case MeditationType => p.(meditationType := Some(value))
  }

  /** The default a select falls back to for each field. */
  function DefaultShown(f: PreferenceField): string {
    match f
    case VoiceStyle => "calm"
    case ColorTone => "balanced"
    case MeditationType => "neutral"
  }

  /** The value a select shows: the stored one, or its default when unset or empty. */
  function ShownValue(prefs: Option<Preferences>, f: PreferenceField): (r: string)
    ensures r != ""
    ensures prefs.Some? && FieldValue(prefs.value, f).GetOr("") != "" ==> r == FieldValue(prefs.value, f).value
    ensures (prefs.None? || FieldValue(prefs.value, f).GetOr("") == "") ==> r == DefaultShown(f)
  {
    var stored := if prefs.Some? then FieldValue(prefs.value, f).GetOr("") else "";
    OrElse(stored, DefaultShown(f))
  }

  /** Unset preferences show as voice "calm", colour "balanced" and style "neutral"; a set one shows itself. */
  lemma ShownDefaults(prefs: Option<Preferences>, f: PreferenceField, value: string)
    ensures ShownValue(None, VoiceStyle) == "calm"
    ensures ShownValue(None, ColorTone) == "balanced"
    ensures ShownValue(None, MeditationType) == "neutral"
    ensures prefs.Some? && FieldValue(prefs.value, f).GetOr("") == "" ==> ShownValue(prefs, f) == DefaultShown(f)
    ensures value == "" ==> ShownValue(Some(WithPreference(prefs, f, value)), f) == DefaultShown(f)
    ensures value != "" ==> ShownValue(Some(WithPreference(prefs, f, value)), f) == value
  {
  }

  /** A signed-in user as the page reads it. */
  datatype ProfileUser = ProfileUser(id: string, email: Option<string>)

  /** The update `handleSavePreferences` sends: the stored fields as they are, for the user's id (none if signed out). */
  datatype SaveRequest = SaveRequest(userId: Option<string>, fields: Preferences)

  datatype SaveOutcome = Saved | SaveFailed

  class Profile {
    var user: Option<ProfileUser>
    var profileName: Option<string>
    var preferences: Option<Preferences>
    var sessions: seq<SessionRow>
    var loading: bool
    var saving: bool

    constructor ()
      ensures user == None && profileName == None && preferences == None && sessions == []
      ensures loading && !saving
    {
      user, profileName, preferences, sessions := None, None, None, [];
      loading, saving := true, false;
    }

    /** `fetchUserData`: without a user nothing is stored; loading ends either way. The session query returns at most the five most recent rows. */
    method UserDataFetched(authUser: Option<ProfileUser>, name: Option<string>, prefs: Option<Preferences>,
                           fetched: Option<seq<SessionRow>>)
      requires fetched.Some? ==> |fetched.value| <= 5
      modifies this
      ensures !loading && saving == old(saving)
      ensures |sessions| <= 5 || sessions == old(sessions)
      ensures authUser.None? ==> user == old(user) && profileName == old(profileName)
                                 && preferences == old(preferences) && sessions == old(sessions)
      ensures authUser.Some? ==> user == authUser && profileName == name && preferences == prefs
                                 && sessions == fetched.GetOr([])
    {
      if authUser.Some? {
        user := authUser;
        profileName := name;
        preferences := prefs;
        sessions := fetched.GetOr([]);
      }
      loading := false;
    }

    /** A select's `onValueChange`: only that field changes. */
    method SelectPreference(f: PreferenceField, value: string)
      modifies this
      ensures preferences == Some(WithPreference(old(preferences), f, value))
      ensures user == old(user) && profileName == old(profileName) && sessions == old(sessions)
      ensures loading == old(loading) && saving == old(saving)
    {
      preferences := Some(WithPreference(preferences, f, value));
    }

    /** The synchronous part of `handleSavePreferences`: nothing without preferences, else `saving` is set. */
    method BeginSave() returns (request: Option<SaveRequest>)
      modifies this
      ensures old(preferences).None? ==> request.None? && saving == old(saving)
      ensures old(preferences).Some? ==>
                saving && request == Some(SaveRequest(if old(user).Some? then Some(old(user).value.id) else None,
                                                      old(preferences).value))
      ensures user == old(user) && preferences == old(preferences) && sessions == old(sessions)
      ensures profileName == old(profileName) && loading == old(loading)
    {
      if preferences.None? {
        return None;
      }
      saving := true;
      request := Some(SaveRequest(if user.Some? then Some(user.value.id) else None, preferences.value));
    }

    /** The rest of `handleSavePreferences`: a signed-out request fails before reaching the store; `saving` ends false. */
    method FinishSave(request: SaveRequest, storeSucceeded: bool) returns (outcome: SaveOutcome)
      modifies this
      ensures !saving
      ensures outcome == Saved <==> request.userId.Some? && storeSucceeded
      ensures user == old(user) && preferences == old(preferences) && sessions == old(sessions)
      ensures profileName == old(profileName) && loading == old(loading)
    {
      outcome := if request.userId.Some? && storeSucceeded then Saved else SaveFailed;
      saving := false;
    }
  }
}
