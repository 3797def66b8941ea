/**
 * The friend card: the small flag shown next to a language, and the link that
 * opens the chat with the friend.
 */
module FriendCard {
  import opened Js
  import AppRoutes

  const FlagCdn: string := "https://flagcdn.com/24x18/"

  /** The flag image: its address and its alternative text. */
  datatype Flag = Flag(src: string, alt: string)

  /**
   * The flag for a language, looked up by its lower-cased name in the
   * language-to-country-code table; nothing for a missing or empty language,
   * for a language not in the table, or for an empty code.
   */
  function LanguageFlag(language: Option<string>, table: map<string, string>): (r: Option<Flag>)
    ensures r.Some? <==> Truthy(language) && ToLower(language.value) in table && |table[ToLower(language.value)]| > 0
    ensures r.Some? ==>
              var lower := ToLower(language.value);
              r.value == Flag(FlagCdn + table[lower] + ".png", lower + " flag")
  {
    if !Truthy(language) then None
    else
      var lower := ToLower(language.value);
      if lower in table && |table[lower]| > 0 then Some(Flag(FlagCdn + table[lower] + ".png", lower + " flag"))
      else None
  }

  /** Names that differ only in letter case get the same flag. */
  lemma LanguageFlagIgnoresCase(a: string, b: string, table: map<string, string>)
    requires ToLower(a) == ToLower(b)
    ensures LanguageFlag(Some(a), table) == LanguageFlag(Some(b), table)
  {
  }

  /** Lower-casing the language first changes nothing: "English" and "english" give the same flag. */
  lemma LanguageFlagOfLowered(language: string, table: map<string, string>)
    ensures LanguageFlag(Some(ToLower(language)), table) == LanguageFlag(Some(language), table)
  {
    ToLowerIdempotent(language);
  }

  /** The Message button's target. */
  function ChatLink(friendId: string): (path: string)
    ensures |path| == 6 + |friendId| && path[..6] == "/chat/" && path[6..] == friendId
  {
    "/chat/" + friendId
  }

  /** The link opens the chat page for exactly that friend. */
  lemma ChatLinkOpensChat(friendId: string)
    requires AppRoutes.IsSegment(friendId)
    ensures AppRoutes.ParseRoute(ChatLink(friendId)) == AppRoutes.ChatRoute(friendId)
  {
    AppRoutes.ParseRouteLinks(friendId);
  }
}
