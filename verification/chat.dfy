/** The chat page's logic: choosing the counterpart, building the transcript for reply
    generation, the send pipeline that appends the user's echo and then the counterpart's
    translated reply, and the play-audio choice. */
module Chat {
  import opened Prelude
  import opened Types
  import opened LanguageService
  import opened StoreContext

  /** The participant shown in the header and answering: the first whose id is not the current
      user's, else the first participant; none only when there are no participants. */
  function OtherParticipant(participants: seq<User>, me: User): (r: Option<User>)
    ensures r.None? <==> participants == []
    ensures r.Some? ==> r.value in participants
    ensures forall i :: 0 <= i < |participants| && participants[i].id != me.id ==>
      (forall j :: 0 <= j < i ==> participants[j].id == me.id) ==> r == Some(participants[i])
    ensures (forall u :: u in participants ==> u.id == me.id) && participants != [] ==> r == Some(participants[0])
  {
    var p := DiffersFrom(Some(me.id));
    assert forall u :: p(u) <==> u.id != me.id;
    match Find(participants, p)
    case Some(u) => Some(u)
    case None => if participants == [] then None else Some(participants[0])
  }

  function RoleOf(m: Message, meId: string): Role {
    if m.senderId == meId then UserRole else ModelRole
  }

  /** The transcript of the messages already shown: one entry per message, in order, marked
      `user` exactly when the current user sent it, carrying its original text. */
  function Transcript(prior: seq<Message>, meId: string): (h: seq<HistoryEntry>)
    ensures |h| == |prior|
    ensures forall i :: 0 <= i < |prior| ==> h[i] == HistoryEntry(RoleOf(prior[i], meId), prior[i].originalText)
    decreases |prior|
  {
    if prior == [] then []
    else [HistoryEntry(RoleOf(prior[0], meId), prior[0].originalText)] + Transcript(prior[1..], meId)
  }

  /** The history sent for reply generation: the transcript, then the new text as a `user` line. */
  function History(prior: seq<Message>, meId: string, text: string): (h: seq<HistoryEntry>)
    ensures |h| == |prior| + 1
    ensures h[..|prior|] == Transcript(prior, meId)
    ensures h[|prior|] == HistoryEntry(UserRole, text)
  {
    Transcript(prior, meId) + [HistoryEntry(UserRole, text)]
  }

  /** The optimistic echo of the user's own text: no translation is needed for the sender, so the
      translated text is the text itself. */
  function UserEcho(me: User, text: string, id: string, now: int): (m: Message)
    ensures m.senderId == me.id && m.originalLanguage == me.nativeLanguage
    ensures m.originalText == text && m.translatedText == Some(text)
    ensures m.culturalContext.None? && m.audioUrl.None? && m.isVoice.None?
    ensures PreviewOf(m) == text
  {
    Message(id, me.id, now, text, me.nativeLanguage, Some(text), None, None, None)
  }

  /** The audio attached to a reply: synthesised from the translated text only when auto-play is
      on, and kept only when synthesis gave a non-empty URL. */
  function ReplyAudio(autoPlay: bool, synthesize: string -> Option<string>, translated: string): (r: Option<string>)
    ensures r.Some? <==> autoPlay && Truthy(synthesize(translated))
    ensures r.Some? ==> r == synthesize(translated) && r.value != ""
  {
    if autoPlay && Truthy(synthesize(translated)) then synthesize(translated) else None
  }

  /** The counterpart's message: their reply to the history in their language, translated from
      their language into the user's, with the cultural note only as the translation gives it. */
  function CounterpartMessage(o: Oracles, history: seq<HistoryEntry>, me: User, other: User,
                              settings: AppSettings, id: string, now: int): (m: Message)
    ensures m.senderId == other.id && m.originalLanguage == other.nativeLanguage
    ensures m.originalText == o.generateReply(history, other.name, other.nativeLanguage, me.nativeLanguage)
    ensures var t := o.translate(m.originalText, me.nativeLanguage, other.nativeLanguage, settings.showCulturalContext);
      m.translatedText == Some(t.translatedText) && m.culturalContext == t.culturalContext
    ensures m.audioUrl == ReplyAudio(settings.autoPlayVoice, o.synthesize, m.translatedText.value)
    ensures m.isVoice.None?
  {
    var reply := o.generateReply(history, other.name, other.nativeLanguage, me.nativeLanguage);
    var t := o.translate(reply, me.nativeLanguage, other.nativeLanguage, settings.showCulturalContext);
    Message(id, other.id, now, reply, other.nativeLanguage, Some(t.translatedText), t.culturalContext,
            ReplyAudio(settings.autoPlayVoice, o.synthesize, t.translatedText), None)
  }

  /** The identifiers and clock readings a turn consumes, in the order the page takes them. */
  datatype TurnIds = TurnIds(userMessage: string, reply: string)

  datatype TurnClock = TurnClock(userSent: int, userAppended: int, replySent: int, replyAppended: int)

  datatype Turn = Turn(conversationId: string, userMessage: Message, reply: Message)

  /** What one press of send does with the store as it stands: nothing when nobody is signed in,
      the conversation is unknown, it has no participants (the page cannot render it) or the
      input is blank; otherwise the user's echo and the counterpart's reply. */
  function PlanTurn(conversations: seq<Conversation>, currentUser: Option<User>, settings: AppSettings,
                    conversationId: string, text: string, o: Oracles, ids: TurnIds, clock: TurnClock): (r: Option<Turn>)
    ensures r.Some? <==>
      && currentUser.Some?
      && Find(conversations, HasId(conversationId)).Some?
      && Find(conversations, HasId(conversationId)).value.participants != []
      && !IsBlank(text)
    ensures r.Some? ==>
      var conv := Find(conversations, HasId(conversationId)).value;
      var me := currentUser.value;
      var other := OtherParticipant(conv.participants, me).value;
      && r.value.conversationId == conversationId
      && r.value.userMessage == UserEcho(me, text, ids.userMessage, clock.userSent)
      && r.value.reply == CounterpartMessage(o, History(conv.messages, me.id, text), me, other, settings,
                                             ids.reply, clock.replySent)
  {
    TrimEmptyIffBlank(text);
    var conv := Find(conversations, HasId(conversationId));
    if currentUser.None? || conv.None? || Trim(text) == "" then None
    else
      var me := currentUser.value;
      match OtherParticipant(conv.value.participants, me)
      case None => None
      case Some(other) =>
        Some(Turn(conv.value.id,
                  UserEcho(me, text, ids.userMessage, clock.userSent),
                  CounterpartMessage(o, History(conv.value.messages, me.id, text), me, other, settings,
                                     ids.reply, clock.replySent)))
  }

  /** A turn appends exactly two messages, the user's echo and then the reply, to the end of the
      target conversation; the list keeps its length and order, every other conversation is
      untouched, and the preview is the reply's. */
  lemma TurnAppendsTwo(cs: seq<Conversation>, id: string, um: Message, rm: Message, t1: int, t2: int)
    ensures var after := AddMessageTo(AddMessageTo(cs, id, um, t1), id, rm, t2);
      && |after| == |cs|
      && (forall i :: 0 <= i < |cs| && cs[i].id != id ==> after[i] == cs[i])
      && (forall i :: 0 <= i < |cs| && cs[i].id == id ==>
            && after[i].messages == cs[i].messages + [um, rm]
            && after[i].lastMessagePreview == PreviewOf(rm)
            && after[i].updatedAt == t2
            && after[i] == cs[i].(messages := cs[i].messages + [um, rm], lastMessagePreview := PreviewOf(rm), updatedAt := t2))
  {
    var mid := AddMessageTo(cs, id, um, t1);
    var after := AddMessageTo(mid, id, rm, t2);
    forall i | 0 <= i < |cs| && cs[i].id == id
      ensures after[i].messages == cs[i].messages + [um, rm]
    {
      assert mid[i].messages == cs[i].messages + [um];
      assert after[i].messages == mid[i].messages + [rm];
    }
  }

  /** Reply audio exists only with auto-play on: with it off no synthesis result is attached. */
  lemma NoAudioWithoutAutoPlay(o: Oracles, history: seq<HistoryEntry>, me: User, other: User,
                               settings: AppSettings, id: string, now: int)
    requires !settings.autoPlayVoice
    ensures CounterpartMessage(o, history, me, other, settings, id, now).audioUrl == None
  {
  }

  /** With a backend whose calls all fail, a turn still completes: the reply is the placeholder,
      its translation echoes the placeholder with the failure note, and there is no audio. */
  lemma DegradedTurn(history: seq<HistoryEntry>, me: User, other: User, settings: AppSettings, id: string, now: int)
    ensures var rm := CounterpartMessage(Failing(), history, me, other, settings, id, now);
      && rm.originalText == ReplyPlaceholder
      && rm.translatedText == Some(ReplyPlaceholder)
      && rm.culturalContext == Some(TranslationFailedNote)
      && rm.audioUrl == None
  {
  }

  /** With no API key configured, a turn still completes: the reply is the placeholder, its
      translation is the missing-key notice without a cultural note, and there is no audio. */
  lemma UnconfiguredTurn(history: seq<HistoryEntry>, me: User, other: User, settings: AppSettings, id: string, now: int)
    ensures var rm := CounterpartMessage(Unconfigured(), history, me, other, settings, id, now);
      && rm.originalText == ReplyPlaceholder
      && rm.translatedText == Some(MissingKeyTranslation)
      && rm.culturalContext == None
      && rm.audioUrl == None
  {
  }

  /** Alex, an English speaker, writes "How are you?" in the seeded conversation with Aiko: the
      echo shows the text as typed and the reply is Aiko's, in Japanese. */
  lemma SeededScenario(now: int, o: Oracles, ids: TurnIds, clock: TurnClock)
    ensures var alex := User("alex", "Alex", Avatars[0], "English", Teal, None);
      var t := PlanTurn(SeedConversations(now), Some(alex), DefaultSettings(), "c1", "How are you?", o, ids, clock);
      && t.Some?
      && t.value.userMessage.originalText == "How are you?"
      && t.value.userMessage.translatedText == Some("How are you?")
      && t.value.reply.senderId == "u2"
      && t.value.reply.originalLanguage == "Japanese"
      && t.value.reply.audioUrl == None
  {
    var alex := User("alex", "Alex", Avatars[0], "English", Teal, None);
    var cs := SeedConversations(now);
    assert HasId("c1")(cs[0]);
    assert !IsWhitespace("How are you?"[0]);
    assert OtherParticipant(cs[0].participants, alex) == Some(MockUsers()[0]);
  }

  /** The choice made when the play button of a message is pressed: play the stored clip if it
      has one, else synthesise its translated text if it has one, else do nothing. */
  datatype Playback = Playback(synthesisRequest: Option<string>, played: Option<string>)

  function PlayAudio(m: Message, synthesize: string -> Option<string>): (r: Playback)
    ensures Truthy(m.audioUrl) ==> r == Playback(None, m.audioUrl)
    ensures r.synthesisRequest.Some? <==> !Truthy(m.audioUrl) && Truthy(m.translatedText)
    ensures r.synthesisRequest.Some? ==> r.synthesisRequest == m.translatedText
    ensures !Truthy(m.audioUrl) ==> r.played == if Truthy(m.translatedText) && Truthy(synthesize(m.translatedText.value))
                                                then synthesize(m.translatedText.value) else None
    ensures r.played.Some? ==> r.played.value != ""
  {
    if Truthy(m.audioUrl) then Playback(None, m.audioUrl)
    else if Truthy(m.translatedText) then
      var audio := synthesize(m.translatedText.value);
      Playback(m.translatedText, if Truthy(audio) then audio else None)
    else Playback(None, None)
  }

  /** A reply that came with audio is replayed from its stored clip, with no second synthesis. */
  lemma ReplayUsesStoredAudio(o: Oracles, history: seq<HistoryEntry>, me: User, other: User,
                              settings: AppSettings, id: string, now: int, synthesize: string -> Option<string>)
    requires CounterpartMessage(o, history, me, other, settings, id, now).audioUrl.Some?
    ensures var m := CounterpartMessage(o, history, me, other, settings, id, now);
      PlayAudio(m, synthesize) == Playback(None, m.audioUrl)
  {
  }

  /** What the page does during a turn, in order: store appends, the processing indicator going
      on and off, and audio playback. */
  datatype Effect =
    | MessageAppended(conversationId: string, message: Message)
    | ProcessingStarted
    | ProcessingEnded
    | AudioPlayed(url: string)

  /** The echo is appended before the indicator goes on, the reply while it is on, and the clip
      is played, when there is one, only after the indicator is off. */
  function TurnEffects(t: Turn): (r: seq<Effect>)
    ensures |r| == 4 || |r| == 5
    ensures r[0] == MessageAppended(t.conversationId, t.userMessage) && r[1] == ProcessingStarted
    ensures r[2] == MessageAppended(t.conversationId, t.reply) && r[3] == ProcessingEnded
    ensures |r| == 5 <==> t.reply.audioUrl.Some?
    ensures |r| == 5 ==> r[4] == AudioPlayed(t.reply.audioUrl.value)
  {
    [MessageAppended(t.conversationId, t.userMessage), ProcessingStarted,
     MessageAppended(t.conversationId, t.reply), ProcessingEnded]
    + (if t.reply.audioUrl.Some? then [AudioPlayed(t.reply.audioUrl.value)] else [])
  }

  /** The body of the delayed callback up to the second append: the history of the messages shown
      before the echo plus the new text, the counterpart's reply to it, its translation into the
      user's language, and speech for the translation when auto-play is on. */
  method ComposeReply(o: Oracles, prior: seq<Message>, me: User, other: User, settings: AppSettings,
                      textToSend: string, id: string, now: int) returns (botMsg: Message)
    ensures botMsg == CounterpartMessage(o, History(prior, me.id, textToSend), me, other, settings, id, now)
  {
    var history := Transcript(prior, me.id);
    history := history + [HistoryEntry(UserRole, textToSend)];
    var botReply := o.generateReply(history, other.name, other.nativeLanguage, me.nativeLanguage);
    var translation := o.translate(botReply, me.nativeLanguage, other.nativeLanguage, settings.showCulturalContext);
    var audioUrl: Option<string> := None;
    if settings.autoPlayVoice {
      var audio := o.synthesize(translation.translatedText);
      if Truthy(audio) {
        audioUrl := audio;
      }
    }
    botMsg := Message(id, other.id, now, botReply, other.nativeLanguage,
                      Some(translation.translatedText), translation.culturalContext, audioUrl, None);
  }

  /** The chat page for one conversation: the route's id, the input box and the processing flag,
      over the shared store. */
  class ChatScreen {
    const store: Store
    const conversationId: string
    var inputText: string
    var isProcessing: bool

    constructor(store: Store, conversationId: string)
      ensures this.store == store && this.conversationId == conversationId
      ensures inputText == "" && !isProcessing
    {
      this.store := store;
      this.conversationId := conversationId;
      inputText := "";
      isProcessing := false;
    }

    /** The input box's change handler. */
    method SetInputText(text: string)
      modifies this
      ensures inputText == text && isProcessing == old(isProcessing)
    {
      inputText := text;
    }

    /** The send handler. A blank input, or a page with nothing to show, changes nothing and keeps
        the input; otherwise the input is cleared and the turn runs. */
    method HandleSendMessage(o: Oracles, ids: TurnIds, clock: TurnClock) returns (effects: seq<Effect>)
      requires store.Valid()
      modifies this, store
      ensures store.Valid()
      ensures store.currentUser == old(store.currentUser) && store.settings == old(store.settings)
      ensures var plan := PlanTurn(old(store.conversations), old(store.currentUser), old(store.settings),
                                   conversationId, old(inputText), o, ids, clock);
        if plan.None? then
          && effects == []
          && store.conversations == old(store.conversations)
          && inputText == old(inputText) && isProcessing == old(isProcessing)
        else
          && effects == TurnEffects(plan.value)
          && store.conversations == AddMessageTo(AddMessageTo(old(store.conversations), conversationId,
                                      plan.value.userMessage, clock.userAppended),
                                    conversationId, plan.value.reply, clock.replyAppended)
          && inputText == "" && !isProcessing
    {
      effects := [];
      ghost var plan := PlanTurn(store.conversations, store.currentUser, store.settings,
                                 conversationId, inputText, o, ids, clock);
      var conversation := store.GetConversation(conversationId);
      assert conversation == Find(store.conversations, HasId(conversationId));
      var currentUser := store.currentUser;
      TrimEmptyIffBlank(inputText);
      if conversation.None? || currentUser.None? || Trim(inputText) == "" {
        return;
      }
      var otherParticipant := OtherParticipant(conversation.value.participants, currentUser.value);
      if otherParticipant.None? {
        return;
      }
      var textToSend := inputText;
      inputText := "";
      effects := RunTurn(conversation.value, currentUser.value, otherParticipant.value, store.settings,
                         textToSend, o, ids, clock);
    }

    /** One turn, from the optimistic echo to the reply's playback: append the echo, show the
        processing indicator, compose the reply, append it, hide the indicator, play its clip. */
    method RunTurn(conv: Conversation, me: User, other: User, settings: AppSettings, textToSend: string,
                   o: Oracles, ids: TurnIds, clock: TurnClock) returns (effects: seq<Effect>)
      requires store.Valid()
      modifies this, store
      ensures store.Valid()
      ensures store.currentUser == old(store.currentUser) && store.settings == old(store.settings)
      ensures inputText == old(inputText) && !isProcessing
      ensures var t := Turn(conv.id, UserEcho(me, textToSend, ids.userMessage, clock.userSent),
                            CounterpartMessage(o, History(conv.messages, me.id, textToSend), me, other, settings,
                                               ids.reply, clock.replySent));
        && effects == TurnEffects(t)
        && store.conversations == AddMessageTo(AddMessageTo(old(store.conversations), conv.id,
                                    t.userMessage, clock.userAppended), conv.id, t.reply, clock.replyAppended)
    {
      var userMsg := UserEcho(me, textToSend, ids.userMessage, clock.userSent);
      store.AddMessage(conv.id, userMsg, clock.userAppended);
      effects := [MessageAppended(conv.id, userMsg)];
      isProcessing := true;
      effects := effects + [ProcessingStarted];

      var botMsg := ComposeReply(o, conv.messages, me, other, settings, textToSend, ids.reply, clock.replySent);
      store.AddMessage(conv.id, botMsg, clock.replyAppended);
      effects := effects + [MessageAppended(conv.id, botMsg)];
      isProcessing := false;
      effects := effects + [ProcessingEnded];
      if Truthy(botMsg.audioUrl) {
        effects := effects + [AudioPlayed(botMsg.audioUrl.value)];
      }
    }
  }
}
