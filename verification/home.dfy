/** The conversation list: each conversation's display name and avatar, and the list itself in
    store order, or the empty state when there are no conversations. */
module Home {
  import opened Prelude
  import opened Types

  const GroupAvatar := "https://picsum.photos/id/10/200/200"
  const GroupChatName := "Group Chat"
  const UnknownName := "Unknown"

  function MeId(currentUser: Option<User>): Option<string> {
    if currentUser.Some? then Some(currentUser.value.id) else None
  }

  /** The first participant who is not the current user (with nobody signed in, the first). */
  function FirstOther(c: Conversation, currentUser: Option<User>): (r: Option<User>)
    ensures r.None? <==> forall u :: u in c.participants ==> Some(u.id) == MeId(currentUser)
    ensures r.Some? ==> r.value in c.participants && Some(r.value.id) != MeId(currentUser)
    ensures forall i :: 0 <= i < |c.participants| && Some(c.participants[i].id) != MeId(currentUser) ==>
      (forall j :: 0 <= j < i ==> Some(c.participants[j].id) == MeId(currentUser)) ==> r == Some(c.participants[i])
  {
    var p := DiffersFrom(MeId(currentUser));
    assert forall u :: p(u) <==> Some(u.id) != MeId(currentUser);
    Find(c.participants, p)
  }

  /** A group shows its name, or "Group Chat" when it has none (or an empty one); a one-on-one
      shows the other participant's name, or "Unknown" when there is none (or it is empty).
      Either way the name shown is never empty. */
  function ChatName(c: Conversation, currentUser: Option<User>): (r: string)
    ensures c.isGroup && Truthy(c.name) ==> r == c.name.value
    ensures c.isGroup && !Truthy(c.name) ==> r == GroupChatName
    ensures !c.isGroup && FirstOther(c, currentUser).Some? && FirstOther(c, currentUser).value.name != "" ==>
      r == FirstOther(c, currentUser).value.name
    ensures !c.isGroup && (FirstOther(c, currentUser).None? || FirstOther(c, currentUser).value.name == "") ==>
      r == UnknownName
    ensures r != ""
  {
    if c.isGroup then OrElse(c.name, GroupChatName)
    else
      var other := FirstOther(c, currentUser);
      OrElse(if other.Some? then Some(other.value.name) else None, UnknownName)
  }

  /** A group shows the generic group picture; a one-on-one shows the other participant's avatar,
      or nothing when there is no other participant. */
  function ChatAvatar(c: Conversation, currentUser: Option<User>): (r: string)
    ensures c.isGroup ==> r == GroupAvatar
    ensures !c.isGroup && FirstOther(c, currentUser).Some? ==> r == FirstOther(c, currentUser).value.avatar
    ensures !c.isGroup && FirstOther(c, currentUser).None? ==> r == ""
  {
    if c.isGroup then GroupAvatar
    else
      var other := FirstOther(c, currentUser);
      OrElse(if other.Some? then Some(other.value.avatar) else None, "")
  }

  datatype ChatRow = ChatRow(conversationId: string, name: string, avatar: string, preview: string, updatedAt: int)

  datatype HomeScreen = EmptyState | ChatList(rows: seq<ChatRow>)

  /** One entry of the list: the conversation's display name and avatar, its preview and its
      time, as stored; the name shown is never empty. */
  function RowOf(c: Conversation, currentUser: Option<User>): (r: ChatRow)
    ensures r.conversationId == c.id && r.preview == c.lastMessagePreview && r.updatedAt == c.updatedAt
    ensures r.name == ChatName(c, currentUser) && r.avatar == ChatAvatar(c, currentUser)
    ensures r.name != ""
  {
    ChatRow(c.id, ChatName(c, currentUser), ChatAvatar(c, currentUser), c.lastMessagePreview, c.updatedAt)
  }

  /** One row per conversation, in the store's order. */
  function Rows(cs: seq<Conversation>, currentUser: Option<User>): (rows: seq<ChatRow>)
    ensures |rows| == |cs|
    ensures forall i :: 0 <= i < |cs| ==> rows[i] == RowOf(cs[i], currentUser)
    decreases |cs|
  {
    if cs == [] then [] else [RowOf(cs[0], currentUser)] + Rows(cs[1..], currentUser)
  }

  /** The home screen: the empty state exactly when there are no conversations, otherwise the
      rows in store order with no re-sorting. */
  function HomeView(cs: seq<Conversation>, currentUser: Option<User>): (v: HomeScreen)
    ensures v.EmptyState? <==> cs == []
    ensures v.ChatList? ==> |v.rows| == |cs|
    ensures v.ChatList? ==> forall i :: 0 <= i < |cs| ==>
      v.rows[i].conversationId == cs[i].id && v.rows[i] == RowOf(cs[i], currentUser)
  {
    if cs == [] then EmptyState else ChatList(Rows(cs, currentUser))
  }
}
