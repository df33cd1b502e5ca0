/** The documents the app keeps in Firestore, and the store itself as three
    collections, each a map from document id to document. A field that a
    document may lack is an `Option`. Instants (`new Date()`,
    `Timestamp.now()`) are integers counting milliseconds. */
module Records {
  import opened Wrappers

  /** Practice counters of a user (`JornadaData`). */
  datatype Journey = Journey(
    diasConsecutivos: int,
    meditacoesMes: int,
    meditacoesAno: int,
    totalMeditacoes: int,
    minutosMeditados: int)

  /** A saved meditation (`Favorito`); `dataSalvo` is the instant it was saved. */
  datatype Favorite = Favorite(id: string, titulo: string, categoria: string, dataSalvo: int)

  /** The four kinds of reminder a user can switch on or off. */
  datatype ReminderTypes = ReminderTypes(
    praticaDiaria: bool,
    novasMediacoes: bool,
    manterSequencia: bool,
    sugestoes: bool)

  /** Reminder settings (`NotificacaoConfig`): reminder times as "HH:MM",
      weekdays as numbers (0 is Sunday), and the lead time in minutes. */
  datatype NotificationConfig = NotificationConfig(
    ativo: bool,
    horarios: seq<string>,
    diasSemana: seq<int>,
    tiposLembrete: ReminderTypes,
    antecedencia: int,
    ultimaNotificacao: Option<string>)

  /** A document of the `users` collection. */
  datatype UserDoc = UserDoc(
    displayName: string,
    email: Option<string>,
    role: Option<string>,
    createdAt: Option<int>,
    favoritos: Option<seq<Favorite>>,
    jornada: Option<Journey>,
    notificacoes: Option<NotificationConfig>)

  /** A document of the `meditacoes` collection. */
  datatype MeditationDoc = MeditationDoc(
    titulo: string,
    categoria: string,
    urlAudio: string,
    texto: Option<string>,
    createdAt: Option<int>)

  /** A document of the `manaDiario` collection; `data` is a "YYYY-MM-DD" day. */
  datatype ManaDoc = ManaDoc(
    data: string,
    textoBiblico: Option<string>,
    comentario: Option<string>,
    referenciaBiblica: Option<string>,
    createdAt: Option<int>)

  /** The signed-in Firebase user, as far as the pages read it. */
  datatype AuthUser = AuthUser(
    uid: string,
    displayName: Option<string>,
    email: Option<string>,
    photoURL: Option<string>)

  /** `listing` is what `getDocs` returns for a whole collection: every
      stored document exactly once, paired with its id. */
  predicate ListingOf<D(==)>(entries: map<string, D>, listing: seq<(string, D)>)
  {
    (forall i :: 0 <= i < |listing| ==> listing[i].0 in entries && entries[listing[i].0] == listing[i].1)
    && (forall i, j :: 0 <= i < j < |listing| ==> listing[i].0 != listing[j].0)
    && (forall k :: k in entries ==> exists i :: 0 <= i < |listing| && listing[i].0 == k)
  }

  /** `deleteDoc` on a collection: only `id` goes; deleting a missing
      document is no error. Both admin pages delete this way. */
  function Deleted<D>(m: map<string, D>, id: string): (r: map<string, D>)
    ensures r.Keys == m.Keys - {id}
    ensures forall k :: k in r ==> r[k] == m[k]
  {
    m - {id}
  }

  /** The document an admin form's submit updates: the entry being edited,
      when it has an id; otherwise the submit adds a new one. */
  function EditTarget<D>(e: Option<(string, D)>): Option<string>
  {
    if e.Some? && e.value.0 != "" then Some(e.value.0) else None
  }

  /** The Firestore database: the three collections the app uses. */
  class Firestore {
    var users: map<string, UserDoc>
    var meditacoes: map<string, MeditationDoc>
    var manaDiario: map<string, ManaDoc>

    constructor(users0: map<string, UserDoc>, meditacoes0: map<string, MeditationDoc>,
                manaDiario0: map<string, ManaDoc>)
      ensures users == users0 && meditacoes == meditacoes0 && manaDiario == manaDiario0
    {
      users := users0;
      meditacoes := meditacoes0;
      manaDiario := manaDiario0;
    }
  }
}
