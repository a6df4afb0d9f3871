/**
  The `t` lookup of the app: the selected language's message, falling back to
  English when that entry is missing or empty. Only the messages the resolution
  shows are kept; the rest of the table is presentation text.
 */
module Translations {
  import opened Wrappers

  /** The accepted languages; `Pe` is accepted but has no table. */
  datatype Language = En | Es | Ca | Pe

  /** The message keys the submit handler uses. */
  datatype MessageKey =
    | ErrorInvalidUrl
    | ErrorFetchVideoDetails
    | ErrorFindUploadsPlaylist
    | ErrorVideoNotFoundInUploads
    | ErrorLatestVideo
    | ErrorUnknown

  type Table = map<Language, map<MessageKey, string>>

  /** The English table holds every key, as the lookup's key type demands. */
  ghost predicate HasEnglish(table: Table)
  {
    En in table && forall key: MessageKey :: key in table[En]
  }

  /** The messages of the shipped tables (English, Spanish, Catalan). */
  const Catalog: Table := map[
    En := map[
      ErrorInvalidUrl := "Invalid YouTube URL. Please provide a valid video link.",
      ErrorFetchVideoDetails := "Could not fetch video details.",
      ErrorFindUploadsPlaylist := "Could not find the channel's uploads playlist.",
      ErrorVideoNotFoundInUploads := "Video not found in the channel's public uploads. It might be unlisted or private.",
      ErrorLatestVideo := "This is the latest video from the channel. There is no next video.",
      ErrorUnknown := "An unknown error occurred."],
    Es := map[
      ErrorInvalidUrl := "URL de YouTube no válida. Por favor, proporciona un enlace de vídeo válido.",
      ErrorFetchVideoDetails := "No se pudieron obtener los detalles del vídeo.",
      ErrorFindUploadsPlaylist := "No se pudo encontrar la lista de vídeos subidos del canal.",
      ErrorVideoNotFoundInUploads := "Vídeo no encontrado en las subidas públicas del canal. Podría ser no listado o privado.",
      ErrorLatestVideo := "Este es el último vídeo del canal. No hay un vídeo siguiente.",
      ErrorUnknown := "Ocurrió un error desconocido."],
    Ca := map[
      ErrorInvalidUrl := "URL de YouTube no vàlida. Si us plau, proporciona un enllaç de vídeo vàlid.",
      ErrorFetchVideoDetails := "No s'han pogut obtenir els detalls del vídeo.",
      ErrorFindUploadsPlaylist := "No s'ha pogut trobar la llista de vídeos pujats del canal.",
      ErrorVideoNotFoundInUploads := "Vídeo no trobat a les pujades públiques del canal. Podria ser no llistat o privat.",
      ErrorLatestVideo := "Aquest és l'últim vídeo del canal. No hi ha un vídeo següent.",
      ErrorUnknown := "Ha ocorregut un error desconegut."]
  ]

  /** The shipped catalog has an English entry for every key. */
  lemma CatalogHasEnglish()
    ensures HasEnglish(Catalog)
  {
    forall key: MessageKey ensures key in Catalog[En] {
      match key
      case ErrorInvalidUrl =>
      case ErrorFetchVideoDetails =>
      case ErrorFindUploadsPlaylist =>
      case ErrorVideoNotFoundInUploads =>
      case ErrorLatestVideo =>
      case ErrorUnknown =>
    }
  }

  /**
    `t` as written: `translations[language][key] || translations.en[key]`. None means
    the lookup throws, which it does for a language that has no table, since reading
    a key of `undefined` is a TypeError.
   */
  function LookupAsWritten(table: Table, lang: Language, key: MessageKey): (r: Option<string>)
    requires HasEnglish(table)
    ensures r.None? <==> lang !in table
    ensures lang in table && key in table[lang] && table[lang][key] != "" ==> r == Some(table[lang][key])
    ensures lang in table && (key !in table[lang] || table[lang][key] == "") ==> r == Some(table[En][key])
  {
    if lang !in table then None
    else if key in table[lang] && table[lang][key] != "" then Some(table[lang][key])
    else Some(table[En][key])
  }

  /**
    `t` with the missing table treated like a missing entry: the selected language's
    message when it has a non-empty one, English otherwise.
   */
  function Lookup(table: Table, lang: Language, key: MessageKey): (r: string)
    requires HasEnglish(table)
    ensures lang in table && key in table[lang] && table[lang][key] != "" ==> r == table[lang][key]
    ensures !(lang in table && key in table[lang] && table[lang][key] != "") ==> r == table[En][key]
  {
    if lang in table && key in table[lang] && table[lang][key] != "" then table[lang][key]
    else table[En][key]
  }

  /** Wherever the as-written lookup does not throw, the two lookups agree. */
  lemma LookupAgreesWhereTableExists(table: Table, lang: Language, key: MessageKey)
    requires HasEnglish(table) && lang in table
    ensures LookupAsWritten(table, lang, key) == Some(Lookup(table, lang, key))
  {
  }

  /** With the shipped catalog, the as-written lookup throws for `Pe` whatever the key. */
  lemma PetisoLookupThrows(key: MessageKey)
    ensures HasEnglish(Catalog) && LookupAsWritten(Catalog, Pe, key).None?
  {
    CatalogHasEnglish();
  }

  /**
    With the shipped catalog every language yields a non-empty message: its own for
    the three languages with a table, English for `Pe`.
   */
  lemma CatalogLookup(lang: Language, key: MessageKey)
    ensures HasEnglish(Catalog)
    ensures Lookup(Catalog, lang, key) != ""
    ensures lang != Pe ==> Lookup(Catalog, lang, key) == Catalog[lang][key]
    ensures lang == Pe ==> Lookup(Catalog, lang, key) == Catalog[En][key]
  {
    CatalogHasEnglish();
    match key
    case ErrorInvalidUrl =>
    case ErrorFetchVideoDetails =>
    case ErrorFindUploadsPlaylist =>
    case ErrorVideoNotFoundInUploads =>
    case ErrorLatestVideo =>
    case ErrorUnknown =>
  }
}
