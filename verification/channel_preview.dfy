/**
 * One row of the chat list: who the chat is with, the last message cut to 40
 * characters, the unread badge, and where a click leads.
 */
module ChannelPreview {
  import opened Js
  import opened StreamRecords

  const NoMessages: string := "No messages yet"
  const PreviewLimit: nat := 40

  /** The text of the last message, or "No messages yet" when there is none or it has no text. */
  function LastMessageText(messages: Option<seq<Message>>): (t: string)
    ensures (messages.None? || messages.value == []) ==> t == NoMessages
    ensures messages.Some? && messages.value != [] ==>
              var last := messages.value[|messages.value| - 1];
              t == (if Truthy(last.text) then last.text.value else NoMessages)
  {
    if messages.None? || messages.value == [] then NoMessages
    else OrElse(messages.value[|messages.value| - 1].text, NoMessages)
  }

  /** The preview line: unchanged up to 40 characters, otherwise the first 40 and "...". */
  function Truncate(t: string): string {
    if |t| > PreviewLimit then t[..PreviewLimit] + "..." else t
  }

  /** Truncation keeps the first min(|t|, 40) characters, adds "..." only to longer text, and is at most 43 long. */
  lemma TruncateKeepsPrefix(t: string)
    ensures |Truncate(t)| <= PreviewLimit + 3
    ensures |t| <= PreviewLimit ==> Truncate(t) == t
    ensures |t| > PreviewLimit ==> |Truncate(t)| == PreviewLimit + 3 && Truncate(t)[PreviewLimit..] == "..."
    ensures var n := if |t| < PreviewLimit then |t| else PreviewLimit;
            |Truncate(t)| >= n && Truncate(t)[..n] == t[..n]
  {
  }

  /** Truncating an already truncated line changes nothing. */
  lemma TruncateIdempotent(t: string)
    ensures Truncate(Truncate(t)) == Truncate(t)
  {
  }

  /** The channel as the list sees it. */
  datatype ChannelState = ChannelState(members: seq<Member>, messages: Option<seq<Message>>, unread: int)

  datatype PreviewRow = PreviewRow(other: Member, line: string, highlightTime: bool, unreadBadge: Option<int>)

  /** The row, or nothing when the channel has no member other than the signed-in user. */
  function Preview(c: ChannelState, me: Option<string>): (r: Option<PreviewRow>)
    ensures r.None? <==> OtherMember(c.members, me).None?
    ensures r.Some? ==> r.value.other == OtherMember(c.members, me).value
    ensures r.Some? ==> r.value.line == Truncate(LastMessageText(c.messages))
    ensures r.Some? ==> (r.value.highlightTime <==> c.unread > 0) && (r.value.unreadBadge.Some? <==> c.unread > 0)
    ensures r.Some? && c.unread > 0 ==> r.value.unreadBadge == Some(c.unread)
  {
    match OtherMember(c.members, me)
    case None => None
    case Some(m) =>
      Some(PreviewRow(m, Truncate(LastMessageText(c.messages)), c.unread > 0, if c.unread > 0 then Some(c.unread) else None))
  }

  /** A click opens the chat with the other member, when that member has a user with a non-empty id. */
  function ClickTarget(c: ChannelState, me: Option<string>): (path: Option<string>)
    ensures path.Some? <==> (OtherMember(c.members, me).Some? && Truthy(UserIdOf(OtherMember(c.members, me).value)))
    ensures path.Some? ==> path.value == "/chat/" + OtherMember(c.members, me).value.user.value.id
  {
    match OtherMember(c.members, me)
    case None => None
    case Some(m) => if m.user.Some? && |m.user.value.id| > 0 then Some("/chat/" + m.user.value.id) else None
  }
}
