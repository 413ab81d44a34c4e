/** The process-wide store: the signed-in user, the settings record and the ordered list of
    conversations, each replaced wholesale by the store's update operations. */
module StoreContext {
  import opened Prelude
  import opened Types

  /** A `Partial<AppSettings>`: each field either given or absent. */
  datatype PartialSettings = PartialSettings(
    showOriginal: Option<bool>,
    autoPlayVoice: Option<bool>,
    showCulturalContext: Option<bool>,
    theme: Option<Theme>)

  const NoChanges := PartialSettings(None, None, None, None)

  /** The settings a fresh store starts with: originals shown, no auto-play, cultural notes
      shown, light theme. */
  function DefaultSettings(): (s: AppSettings)
    ensures s.showOriginal && !s.autoPlayVoice && s.showCulturalContext && s.theme == Light
  {
    AppSettings(true, false, true, Light)
  }

  const NewConversationPreview := "New Conversation"

  /** The three counterparts the store knows: Aiko, Elena and Pierre, with distinct ids, pictures
      and pictures taken in order from the avatar table. */
  function MockUsers(): (r: seq<User>)
    ensures |r| == 3
    ensures forall i, j :: 0 <= i < j < |r| ==> r[i].id != r[j].id
    ensures forall i :: 0 <= i < |r| ==> r[i].avatar == Avatars[i + 1]
    ensures r[0].id == "u2" && r[0].name == "Aiko" && r[0].nativeLanguage == "Japanese"
    ensures r[1].id == "u3" && r[1].name == "Elena" && r[1].nativeLanguage == "Spanish"
    ensures r[2].id == "u4" && r[2].name == "Pierre" && r[2].nativeLanguage == "French"
  {
    var users := [
      User("u2", "Aiko", Avatars[1], "Japanese", Teal, None),
      User("u3", "Elena", Avatars[2], "Spanish", Peach, None),
      User("u4", "Pierre", Avatars[3], "French", Lavender, None)
    ];
    users
  }

  /** Every mock user's native language is a supported one, so a flag is shown beside them. */
  lemma MockUsersSpeakSupportedLanguages()
    ensures forall u :: u in MockUsers() ==> FlagOf(u.nativeLanguage).Some?
  {
    var users := MockUsers();
    assert SupportedLanguages[1].name == users[1].nativeLanguage;
    assert SupportedLanguages[2].name == users[2].nativeLanguage;
    assert SupportedLanguages[3].name == users[0].nativeLanguage;
  }

  /** The two conversations the store starts with, dated relative to start-up time `now`: a
      one-on-one with Aiko holding her greeting, and a newer-looking empty one with Elena. */
  function SeedConversations(now: int): (r: seq<Conversation>)
    ensures |r| == 2 && r[0].id == "c1" && r[1].id == "c2"
    ensures r[0].participants == [MockUsers()[0]] && r[1].participants == [MockUsers()[1]]
    ensures forall i :: 0 <= i < |r| ==> !r[i].isGroup && r[i].name.None?
    ensures |r[0].messages| == 1 && r[0].messages[0].senderId == MockUsers()[0].id
    ensures r[0].lastMessagePreview == PreviewOf(r[0].messages[0]) && r[0].updatedAt == r[0].messages[0].timestamp
    ensures r[1].messages == []
    ensures r[0].updatedAt == now - 100000 && r[1].updatedAt == now - 200000
  {
    var users := MockUsers();
    [
      Conversation(
        "c1", [users[0]],
        [Message("m1", "u2", now - 100000, "こんにちは！元気ですか？", "Japanese",
                 Some("Hello! How are you?"), Some("Standard friendly greeting."), None, None)],
        "Hello! How are you?", now - 100000, false, None),
      Conversation("c2", [users[1]], [], "Start a new conversation", now - 200000, false, None)
    ]
  }

  /** `{ ...s, ...p }`: every field given in `p` wins, every other keeps its value in `s`. */
  function MergeSettings(s: AppSettings, p: PartialSettings): (r: AppSettings)
    ensures p.showOriginal.Some? ==> r.showOriginal == p.showOriginal.value
    ensures p.showOriginal.None? ==> r.showOriginal == s.showOriginal
    ensures p.autoPlayVoice.Some? ==> r.autoPlayVoice == p.autoPlayVoice.value
    ensures p.autoPlayVoice.None? ==> r.autoPlayVoice == s.autoPlayVoice
    ensures p.showCulturalContext.Some? ==> r.showCulturalContext == p.showCulturalContext.value
    ensures p.showCulturalContext.None? ==> r.showCulturalContext == s.showCulturalContext
    ensures p.theme.Some? ==> r.theme == p.theme.value
    ensures p.theme.None? ==> r.theme == s.theme
  {
    AppSettings(
      if p.showOriginal.Some? then p.showOriginal.value else s.showOriginal,
      if p.autoPlayVoice.Some? then p.autoPlayVoice.value else s.autoPlayVoice,
      if p.showCulturalContext.Some? then p.showCulturalContext.value else s.showCulturalContext,
      if p.theme.Some? then p.theme.value else s.theme)
  }

  /** The partial that applying `p` and then `q` amounts to: `q`'s fields win. */
  function Overlay(p: PartialSettings, q: PartialSettings): PartialSettings {
    PartialSettings(
      if q.showOriginal.Some? then q.showOriginal else p.showOriginal,
      if q.autoPlayVoice.Some? then q.autoPlayVoice else p.autoPlayVoice,
      if q.showCulturalContext.Some? then q.showCulturalContext else p.showCulturalContext,
      if q.theme.Some? then q.theme else p.theme)
  }

  /** Merging is idempotent, the empty partial changes nothing, and two merges in a row are
      one merge of the overlaid partials. */
  lemma MergeSettingsLaws(s: AppSettings, p: PartialSettings, q: PartialSettings)
    ensures MergeSettings(MergeSettings(s, p), p) == MergeSettings(s, p)
    ensures MergeSettings(s, NoChanges) == s
    ensures MergeSettings(MergeSettings(s, p), q) == MergeSettings(s, Overlay(p, q))
  {
  }

  /** The list preview a message produces: `translatedText || originalText`. */
  function PreviewOf(m: Message): (r: string)
    ensures Truthy(m.translatedText) ==> r == m.translatedText.value
    ensures !Truthy(m.translatedText) ==> r == m.originalText
  {
    OrElse(m.translatedText, m.originalText)
  }

  /** The denormalised preview agrees with the conversation's last message, when it has one. */
  predicate PreviewReflectsLast(c: Conversation) {
    c.messages != [] ==> c.lastMessagePreview == PreviewOf(c.messages[|c.messages| - 1])
  }

  predicate DistinctIds(cs: seq<Conversation>) {
    forall i, j :: 0 <= i < j < |cs| ==> cs[i].id != cs[j].id
  }

  function HasId(id: string): Conversation -> bool {
    (c: Conversation) => c.id == id
  }

  /** The conversation `c` after `m` is appended at time `now`. */
  function Appended(c: Conversation, m: Message, now: int): Conversation {
    c.(messages := c.messages + [m], lastMessagePreview := PreviewOf(m), updatedAt := now)
  }

  /** `prev.map(conv => conv.id === id ? appended : conv)`: same length and order, each
      conversation with the id gets the message, every other is left as it was. */
  function AddMessageTo(cs: seq<Conversation>, id: string, m: Message, now: int): (r: seq<Conversation>)
    ensures |r| == |cs|
    ensures forall i :: 0 <= i < |cs| && cs[i].id != id ==> r[i] == cs[i]
    ensures forall i :: 0 <= i < |cs| && cs[i].id == id ==>
      r[i] == cs[i].(messages := cs[i].messages + [m], lastMessagePreview := PreviewOf(m), updatedAt := now)
    decreases |cs|
  {
    if cs == [] then []
    else [if cs[0].id == id then Appended(cs[0], m, now) else cs[0]] + AddMessageTo(cs[1..], id, m, now)
  }

  /** Appending under an id no conversation has leaves the whole list as it was. */
  lemma AddMessageUnknownId(cs: seq<Conversation>, id: string, m: Message, now: int)
    requires forall c :: c in cs ==> c.id != id
    ensures AddMessageTo(cs, id, m, now) == cs
  {
    var r := AddMessageTo(cs, id, m, now);
    forall i | 0 <= i < |cs| ensures r[i] == cs[i] {
      assert cs[i] in cs;
    }
  }

  /** Appending keeps every conversation id in its place, hence the list's ids stay distinct, and
      every conversation's preview still reflects its last message. */
  lemma AddMessageKeepsInvariant(cs: seq<Conversation>, id: string, m: Message, now: int)
    requires DistinctIds(cs)
    requires forall i :: 0 <= i < |cs| ==> PreviewReflectsLast(cs[i])
    ensures DistinctIds(AddMessageTo(cs, id, m, now))
    ensures forall i :: 0 <= i < |cs| ==> PreviewReflectsLast(AddMessageTo(cs, id, m, now)[i])
  {
  }

  /** Looking the conversation up after the append finds it with the message at the end of its
      messages, every earlier message unchanged. */
  lemma LookupAfterAddMessage(cs: seq<Conversation>, id: string, m: Message, now: int)
    requires Find(cs, HasId(id)).Some?
    ensures Find(AddMessageTo(cs, id, m, now), HasId(id)) == Some(Appended(Find(cs, HasId(id)).value, m, now))
  {
    var r := AddMessageTo(cs, id, m, now);
    var k := FindIndex(cs, HasId(id)).value;
    assert r[k] == Appended(cs[k], m, now);
    assert forall j :: 0 <= j < k ==> r[j] == cs[j];
  }

  /** The conversation `createConversation` prepends: `isGroup` exactly when there is more than
      one participant, and then, and only then, a name joining the participants' names. */
  function NewConversation(participants: seq<User>, id: string, now: int): (c: Conversation)
    ensures c.id == id && c.participants == participants && c.updatedAt == now
    ensures c.messages == [] && c.lastMessagePreview == NewConversationPreview
    ensures c.isGroup <==> |participants| > 1
    ensures c.name.Some? <==> |participants| > 1
    ensures c.name.Some? ==> c.name.value == Join(Names(participants), ", ")
  {
    Conversation(id, participants, [], NewConversationPreview, now, |participants| > 1,
      if |participants| > 1 then Some(Join(Names(participants), ", ")) else None)
  }

  /** After a conversation is prepended, looking up its id finds it, and looking up any other id
      finds what it found before. */
  lemma LookupAfterCreate(cs: seq<Conversation>, participants: seq<User>, id: string, now: int, key: string)
    ensures key == id ==>
      Find([NewConversation(participants, id, now)] + cs, HasId(key)) == Some(NewConversation(participants, id, now))
    ensures key != id ==>
      Find([NewConversation(participants, id, now)] + cs, HasId(key)) == Find(cs, HasId(key))
  {
    var s := [NewConversation(participants, id, now)] + cs;
    if key != id {
      match FindIndex(cs, HasId(key))
      case None =>
        forall j | 0 <= j < |s| ensures !HasId(key)(s[j]) {
          if j > 0 { assert s[j] == cs[j - 1]; }
        }
      case Some(k) =>
        assert s[k + 1] == cs[k];
        forall j | 0 <= j < k + 1 ensures !HasId(key)(s[j]) {
          if j > 0 { assert s[j] == cs[j - 1]; }
        }
    }
  }

  /** A group gaining one more participant is named by the earlier name, ", " and the new
      participant's name. */
  lemma GroupNameGrows(participants: seq<User>, u: User, id: string, now: int)
    requires participants != []
    ensures NewConversation(participants + [u], id, now).name == Some(Join(Names(participants), ", ") + ", " + u.name)
  {
    assert Names(participants + [u]) == Names(participants) + [u.name];
    JoinSnoc(Names(participants), u.name, ", ");
  }

  function Names(users: seq<User>): (r: seq<string>)
    ensures |r| == |users| && forall i :: 0 <= i < |users| ==> r[i] == users[i].name
  {
    seq(|users|, i requires 0 <= i < |users| => users[i].name)
  }

  /** The seed list satisfies the store invariant. */
  lemma SeedsValid(now: int)
    ensures DistinctIds(SeedConversations(now))
    ensures forall i :: 0 <= i < |SeedConversations(now)| ==> PreviewReflectsLast(SeedConversations(now)[i])
  {
  }

  class Store {
    var currentUser: Option<User>
    var settings: AppSettings
    var conversations: seq<Conversation>

    /** Conversation ids are unique and every preview reflects the last message appended. */
    ghost predicate Valid()
      reads this
    {
      && DistinctIds(conversations)
      && forall i :: 0 <= i < |conversations| ==> PreviewReflectsLast(conversations[i])
    }

    /** The store at start-up: nobody signed in, default settings, the two seed conversations. */
    constructor(now: int)
      ensures Valid()
      ensures currentUser == None && settings == DefaultSettings()
      ensures conversations == SeedConversations(now)
    {
      currentUser := None;
      settings := DefaultSettings();
      conversations := SeedConversations(now);
      SeedsValid(now);
    }

    method SetCurrentUser(user: User)
      requires Valid()
      modifies this
      ensures Valid()
      ensures currentUser == Some(user)
      ensures settings == old(settings) && conversations == old(conversations)
    {
      currentUser := Some(user);
    }

    method UpdateSettings(changes: PartialSettings)
      requires Valid()
      modifies this
      ensures Valid()
      ensures settings == MergeSettings(old(settings), changes)
      ensures currentUser == old(currentUser) && conversations == old(conversations)
    {
      settings := MergeSettings(settings, changes);
    }

    /** Appends `message` to the conversation with id `conversationId`, stamping it with the
        append time `now`; a no-op when no conversation has that id. */
    method AddMessage(conversationId: string, message: Message, now: int)
      requires Valid()
      modifies this
      ensures Valid()
      ensures conversations == AddMessageTo(old(conversations), conversationId, message, now)
      ensures currentUser == old(currentUser) && settings == old(settings)
    {
      AddMessageKeepsInvariant(conversations, conversationId, message, now);
      conversations := AddMessageTo(conversations, conversationId, message, now);
    }

    /** Prepends a fresh conversation with the given participants and returns its id. */
    method CreateConversation(participants: seq<User>, newId: string, now: int) returns (id: string)
      requires Valid()
      requires forall c :: c in conversations ==> c.id != newId
      modifies this
      ensures Valid()
      ensures id == newId
      ensures conversations == [NewConversation(participants, newId, now)] + old(conversations)
      ensures currentUser == old(currentUser) && settings == old(settings)
    {
      var c := NewConversation(participants, newId, now);
      ghost var before := conversations;
      conversations := [c] + conversations;
      forall i, j | 0 <= i < j < |conversations| ensures conversations[i].id != conversations[j].id {
        if i == 0 {
          assert conversations[j] == before[j - 1] && before[j - 1] in before;
        } else {
          assert conversations[i] == before[i - 1] && conversations[j] == before[j - 1];
        }
      }
      forall i | 0 <= i < |conversations| ensures PreviewReflectsLast(conversations[i]) {
        if i > 0 { assert conversations[i] == before[i - 1]; }
      }
      id := newId;
    }

    /** The first conversation with the id, or none when no conversation has it. */
    function GetConversation(id: string): (r: Option<Conversation>)
      reads this
      ensures r.None? <==> forall c :: c in conversations ==> c.id != id
      ensures r.Some? ==> r.value in conversations && r.value.id == id
      ensures forall i :: 0 <= i < |conversations| && conversations[i].id == id ==>
        (forall j :: 0 <= j < i ==> conversations[j].id != id) ==> r == Some(conversations[i])
    {
      var p := HasId(id);
      assert forall c :: p(c) <==> c.id == id;
      Find(conversations, p)
    }
  }
}
