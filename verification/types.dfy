/** The application's records (users, messages, conversations, settings) and its two constant
    tables: the supported languages and the avatar pictures. */
module Types {
  import opened Prelude

  datatype ThemeColor = Peach | Teal | Lavender

  datatype Presence = Online | Offline

  datatype Theme = Light | Dark

  datatype User = User(
    id: string,
    name: string,
    avatar: string,
    nativeLanguage: string,
    themeColor: ThemeColor,
    status: Option<Presence>)

  /** `p => p.id !== meId`, where `meId` may be undefined (then every participant differs). */
  function DiffersFrom(meId: Option<string>): User -> bool {
    (u: User) => Some(u.id) != meId
  }

  /** A chat message: the text as its sender wrote it, and the optional translation, cultural
      note, synthesised-audio URL and voice flag. */
  datatype Message = Message(
    id: string,
    senderId: string,
    timestamp: int,
    originalText: string,
    originalLanguage: string,
    translatedText: Option<string>,
    culturalContext: Option<string>,
    audioUrl: Option<string>,
    isVoice: Option<bool>)

  datatype Conversation = Conversation(
    id: string,
    participants: seq<User>,
    messages: seq<Message>,
    lastMessagePreview: string,
    updatedAt: int,
    isGroup: bool,
    name: Option<string>)

  datatype AppSettings = AppSettings(
    showOriginal: bool,
    autoPlayVoice: bool,
    showCulturalContext: bool,
    theme: Theme)

  datatype Language = Language(code: string, name: string, flag: string)

  const SupportedLanguages: seq<Language> := [
    Language("en", "English", "\U{1F1FA}\U{1F1F8}"),
    Language("es", "Spanish", "\U{1F1EA}\U{1F1F8}"),
    Language("fr", "French", "\U{1F1EB}\U{1F1F7}"),
    Language("ja", "Japanese", "\U{1F1EF}\U{1F1F5}"),
    Language("de", "German", "\U{1F1E9}\U{1F1EA}"),
    Language("zh", "Chinese", "\U{1F1E8}\U{1F1F3}"),
    Language("ko", "Korean", "\U{1F1F0}\U{1F1F7}"),
    Language("hi", "Hindi", "\U{1F1EE}\U{1F1F3}"),
    Language("it", "Italian", "\U{1F1EE}\U{1F1F9}"),
    Language("ar", "Arabic", "\U{1F1F8}\U{1F1E6}")
  ]

  const Avatars: seq<string> := [
    "https://picsum.photos/id/64/200/200",
    "https://picsum.photos/id/65/200/200",
    "https://picsum.photos/id/91/200/200",
    "https://picsum.photos/id/177/200/200",
    "https://picsum.photos/id/338/200/200",
    "https://picsum.photos/id/349/200/200"
  ]

  /** The language table: ten entries, codes pairwise distinct, names pairwise distinct,
      English first (the language onboarding preselects). */
  lemma SupportedLanguagesWellFormed()
    ensures |SupportedLanguages| == 10
    ensures SupportedLanguages[0].name == "English" && SupportedLanguages[0].code == "en"
    ensures forall i, j :: 0 <= i < j < |SupportedLanguages| ==>
      SupportedLanguages[i].code != SupportedLanguages[j].code &&
      SupportedLanguages[i].name != SupportedLanguages[j].name
  {
  }

  /** The avatar table holds six distinct pictures. */
  lemma AvatarsWellFormed()
    ensures |Avatars| == 6
    ensures forall i, j :: 0 <= i < j < |Avatars| ==> Avatars[i] != Avatars[j]
  {
  }

  function HasLanguageName(name: string): Language -> bool {
    (l: Language) => l.name == name
  }

  /** The flag shown beside a counterpart: the flag of the supported language with that name. */
  function FlagOf(languageName: string): (r: Option<string>)
    ensures r.None? <==> forall l :: l in SupportedLanguages ==> l.name != languageName
    ensures r.Some? ==> exists l :: l in SupportedLanguages && l.name == languageName && l.flag == r.value
  {
    var p := HasLanguageName(languageName);
    assert forall l :: p(l) <==> l.name == languageName;
    match Find(SupportedLanguages, HasLanguageName(languageName))
    case None => None
    case Some(l) => Some(l.flag)
  }

  /** Looking a language up by its display name is unambiguous: it finds that very entry. */
  lemma FlagOfEveryLanguage(i: nat)
    requires i < |SupportedLanguages|
    ensures FlagOf(SupportedLanguages[i].name) == Some(SupportedLanguages[i].flag)
  {
    SupportedLanguagesWellFormed();
    var p := HasLanguageName(SupportedLanguages[i].name);
    assert forall j :: 0 <= j < i ==> !p(SupportedLanguages[j]);
  }
}
