/**
 * The greeting of `src/components/meditation/WelcomePage.tsx`: the first
 * word of the user's metadata name, or "Friend".
 */
module WelcomePage {
  import opened Wrappers
  import opened Text

  datatype Metadata = Metadata(name: Option<string>)
  datatype WelcomeUser = WelcomeUser(metadata: Option<Metadata>)

  /** The name in `user?.user_metadata?.name`, if every link is present. */
  function NameOf(user: Option<WelcomeUser>): Option<string> {
    if user.Some? && user.value.metadata.Some? then user.value.metadata.value.name else None
  }

  /** `user?.user_metadata?.name?.split(' ')[0] || 'Friend'`. */
  function FirstName(user: Option<WelcomeUser>): (r: string)
    ensures r != ""
  {
    if NameOf(user).None? then "Friend" else OrElse(FirstToken(NameOf(user).value, ' '), "Friend")
  }

  /** A missing user, metadata or name greets "Friend". */
  lemma MissingNameGreetsFriend(user: Option<WelcomeUser>)
    requires user.None? || user.value.metadata.None? || user.value.metadata.value.name.None?
    ensures FirstName(user) == "Friend"
  {
  }

  /** A name that is empty or starts with a space has an empty first word, so it greets "Friend". */
  lemma EmptyFirstWordGreetsFriend(name: string)
    requires name == "" || name[0] == ' '
    ensures FirstName(Some(WelcomeUser(Some(Metadata(Some(name)))))) == "Friend"
  {
  }

  /** A name whose first character is not a space greets with its text up to the first space. */
  lemma FirstWordOfName(name: string)
    requires name != "" && name[0] != ' '
    ensures var r := FirstName(Some(WelcomeUser(Some(Metadata(Some(name))))));
            r != "" && r == name[..|r|] && (|r| == |name| || name[|r|] == ' ')
            && forall i :: 0 <= i < |r| ==> r[i] != ' '
  {
  }

  /** Any greeting other than "Friend" is a space-free prefix of the user's name. */
  lemma GreetingIsPrefixOfName(user: Option<WelcomeUser>)
    ensures FirstName(user) != "Friend" ==>
      NameOf(user).Some? && |FirstName(user)| <= |NameOf(user).value|
      && FirstName(user) == NameOf(user).value[..|FirstName(user)|]
      && forall i :: 0 <= i < |FirstName(user)| ==> FirstName(user)[i] != ' '
  {
  }
}
