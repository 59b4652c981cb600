/** The values the page header derives from the signed-in user: the avatar
    image source, its alternative text, the fallback initial, and the label of
    the account menu. The user is absent until the session has been read. */
module AppHeader {
  import opened Wrappers
  import opened Text
  import opened Entities

  const DefaultInitials: string := "MW"
  const DefaultAlt: string := "Avatar"
  const AvatarSeedPrefix: string := "https://picsum.photos/seed/"
  const AvatarSeedSuffix: string := "/40/40"

  /** How a template literal renders `undefined`. */
  const UndefinedText: string := "undefined"

  /** JavaScript truthiness of an optional string: present and non-empty. */
  predicate Truthy(s: Option<string>) {
    s.Some? && s.value != ""
  }

  function NameOf(user: Option<User>): Option<string> {
    if user.Some? then user.value.name else None
  }

  function EmailOf(user: Option<User>): Option<string> {
    if user.Some? then Some(user.value.email) else None
  }

  /** The avatar's fallback letter: the upper-cased first character of a
      non-empty name, otherwise of a non-empty email, otherwise "MW". */
  function AvatarFallback(user: Option<User>): (r: string)
    ensures Truthy(NameOf(user)) ==> r == [UpperChar(NameOf(user).value[0])]
    ensures !Truthy(NameOf(user)) && Truthy(EmailOf(user)) ==> r == [UpperChar(EmailOf(user).value[0])]
    ensures r == DefaultInitials <==> !Truthy(NameOf(user)) && !Truthy(EmailOf(user))
  {
    var name := NameOf(user);
    var email := EmailOf(user);
    if Truthy(name) then [UpperChar(name.value[0])]
    else if Truthy(email) then [UpperChar(email.value[0])]
    else DefaultInitials
  }

  /** The menu label: the name, or the email when there is no name at all; an
      empty name is kept. */
  function DropdownLabel(user: Option<User>): (r: Option<string>)
    ensures NameOf(user).Some? ==> r == NameOf(user)
    ensures NameOf(user).None? ==> r == EmailOf(user)
    ensures user.None? ==> r.None?
  {
    if NameOf(user).Some? then NameOf(user) else EmailOf(user)
  }

  /** The avatar image: the stored URL, or a placeholder picture seeded with
      the email (the text "undefined" without a user). */
  function AvatarSrc(user: Option<User>): (r: string)
    ensures user.Some? && user.value.avatarUrl.Some? ==> r == user.value.avatarUrl.value
    ensures user.Some? && user.value.avatarUrl.None? ==>
      r == AvatarSeedPrefix + user.value.email + AvatarSeedSuffix
    ensures user.None? ==> r == AvatarSeedPrefix + UndefinedText + AvatarSeedSuffix
  {
    if user.Some? && user.value.avatarUrl.Some? then user.value.avatarUrl.value
    else AvatarSeedPrefix + EmailOf(user).GetOr(UndefinedText) + AvatarSeedSuffix
  }

  /** The avatar's alt text: the name when there is one, otherwise "Avatar". */
  function AvatarAlt(user: Option<User>): (r: string)
    ensures NameOf(user).Some? ==> r == NameOf(user).value
    ensures NameOf(user).None? ==> r == DefaultAlt
  {
    NameOf(user).GetOr(DefaultAlt)
  }

  /** An empty name is kept by the menu label but skipped by the initial, which
      then comes from the email. */
  lemma EmptyNameDiffers(id: int, email: string, avatarUrl: Option<string>)
    requires email != ""
    ensures var user := Some(User(id, email, Some(""), avatarUrl));
      DropdownLabel(user) == Some("")
      && AvatarFallback(user) == [UpperChar(email[0])]
  {
  }

  /** The fallback is always a single character or the default initials. */
  lemma FallbackShape(user: Option<User>)
    ensures |AvatarFallback(user)| == 1 || AvatarFallback(user) == DefaultInitials
  {
  }
}
