/**
 * The one-to-one chat page: the channel id shared by both users, loading the
 * channel, the video-call link, and building the outgoing message from the quote.
 */
module ChatSetup {
  import opened Js
  import opened StreamRecords

  /** `[a, b].sort()`: the default sort orders strings by their UTF-16 code units and keeps equal ones in place. */
  function SortPair(a: string, b: string): (r: seq<string>)
    ensures |r| == 2 && multiset(r) == multiset{a, b}
    ensures !UnitsLess(Utf16(r[1]), Utf16(r[0]))
  {
    UnitsLessAsymmetric(Utf16(a), Utf16(b));
    if UnitsLess(Utf16(b), Utf16(a)) then [b, a] else [a, b]
  }

  /** The channel id: the two user ids in sorted order joined by "-". */
  function ChannelId(me: string, target: string): string {
    var pair := SortPair(me, target);
    pair[0] + "-" + pair[1]
  }

  /** Either user opening the chat arrives at the same channel. */
  lemma ChannelIdSymmetric(a: string, b: string)
    ensures ChannelId(a, b) == ChannelId(b, a)
  {
    if a != b {
      if Utf16(a) == Utf16(b) { Utf16Injective(a, b); }
      UnitsLessTotal(Utf16(a), Utf16(b));
      UnitsLessAsymmetric(Utf16(a), Utf16(b));
    }
  }

  /** The channel id is one id, a dash, and the other. */
  lemma ChannelIdShape(a: string, b: string)
    ensures ChannelId(a, b) == a + "-" + b || ChannelId(a, b) == b + "-" + a
  {
  }

  /** What the page asks the platform for: a "messaging" channel with exactly the two users. */
  datatype ChannelRequest = ChannelRequest(kind: string, id: string, members: seq<string>)

  /** The opened channel: its id and its members as the platform returns them. */
  datatype Channel = Channel(id: string, members: seq<Member>)

  /** The platform's answer to `watch()`. */
  datatype WatchResult = Watched(members: seq<Member>) | WatchFailed

  /** The message sent through the platform. */
  datatype OutgoingMessage = OutgoingMessage(
    text: string,
    attachments: seq<string>,
    quotedMessageId: Option<string>,
    parentId: Option<string>,
    showInChannel: Option<bool>
  )

  /** The video call: the call page's URL and the message announcing it. */
  datatype CallInvite = CallInvite(url: string, text: string)

  const CallMessagePrefix: string := "\U{1F4DE} Video call started. Join here: "

  /** A call needs an open channel; the link is the call page for the channel's id, and the message ends with it. */
  function VideoCall(channel: Option<Channel>, origin: string): (r: Option<CallInvite>)
    ensures r.None? <==> channel.None?
    ensures r.Some? ==> r.value.url == origin + "/call/" + channel.value.id
    ensures r.Some? ==> |r.value.url| <= |r.value.text| && r.value.text[|r.value.text| - |r.value.url|..] == r.value.url
  {
    match channel
    case None => None
    case Some(c) =>
      var url := origin + "/call/" + c.id;
      Some(CallInvite(url, CallMessagePrefix + url))
  }

  class ChatPage {
    var channel: Option<Channel>
    var loading: bool
    var otherUser: Option<ChatUser>
    var quoted: Option<Message>

    constructor ()
      ensures channel.None? && loading && otherUser.None? && quoted.None?
    {
      channel, loading, otherUser, quoted := None, true, None, None;
    }

    /** The loader covers the page while loading or while no channel is open. */
    predicate ShowsLoader(): (covered: bool)
      reads this
      ensures !covered ==> channel.Some? && !loading
    {
      loading || channel.None?
    }

    /**
     * Opens the channel with `target`. Without a client, a signed-in user or a
     * target nothing is requested and nothing changes. Otherwise the channel is
     * requested with exactly [me, target]; on success it becomes the page's
     * channel and the other user is the first member that is not `me`; loading
     * ends either way.
     */
    method LoadChannel(hasClient: bool, me: Option<string>, target: Option<string>, watched: WatchResult)
      returns (request: Option<ChannelRequest>)
      modifies this
      ensures !(hasClient && me.Some? && Truthy(target)) ==>
                request.None? && channel == old(channel) && loading == old(loading) && otherUser == old(otherUser)
      ensures hasClient && me.Some? && Truthy(target) ==>
                && request == Some(ChannelRequest("messaging", ChannelId(me.value, target.value), [me.value, target.value]))
                && !loading
                && (watched.WatchFailed? ==> channel == old(channel) && otherUser == old(otherUser))
                && (watched.Watched? ==>
                      && channel == Some(Channel(request.value.id, watched.members))
                      && otherUser == (match OtherMember(watched.members, me) case None => None case Some(m) => m.user)
                      && !ShowsLoader())
      ensures quoted == old(quoted)
    {
      request := None;
      if !(hasClient && me.Some? && Truthy(target)) {
        return;
      }
      loading := true;
      var id := ChannelId(me.value, target.value);
      request := Some(ChannelRequest("messaging", id, [me.value, target.value]));
      if watched.Watched? {
        channel := Some(Channel(id, watched.members));
        var other := OtherMember(watched.members, me);
        otherUser := if other.Some? then other.value.user else None;
      }
      loading := false;
    }

    /** Reply in a bubble, or the close button of the quote preview, sets or clears the quote. */
    method SetQuoted(q: Option<Message>)
      modifies this
      ensures quoted == q
      ensures channel == old(channel) && loading == old(loading) && otherUser == old(otherUser)
    {
      quoted := q;
    }

    /**
     * The submit handler: text and attachments go out unchanged; with a quote the
     * message names it as quoted message and parent and is shown in the channel.
     * The quote is cleared only once the send succeeded.
     */
    method Submit(text: string, attachments: seq<string>, sendSucceeds: bool) returns (sent: OutgoingMessage)
      modifies this
      ensures sent.text == text && sent.attachments == attachments
      ensures old(quoted).None? ==> sent.quotedMessageId.None? && sent.parentId.None? && sent.showInChannel.None?
      ensures old(quoted).Some? ==>
                && sent.quotedMessageId == Some(old(quoted).value.id)
                && sent.parentId == Some(old(quoted).value.id)
                && sent.showInChannel == Some(true)
      ensures quoted == (if sendSucceeds then None else old(quoted))
      ensures channel == old(channel) && loading == old(loading) && otherUser == old(otherUser)
    {
      var quotedId := if quoted.Some? then Some(quoted.value.id) else None;
      var messageData := OutgoingMessage(text, attachments, quotedId, None, None);
      if quoted.Some? {
        messageData := messageData.(parentId := Some(quoted.value.id));
        messageData := messageData.(showInChannel := Some(true));
      }
      sent := messageData;
      if sendSucceeds {
        quoted := None;
      }
    }
  }
}
