/** The reminder-settings page: the default settings, the edits a user makes
    to them (each builds a new settings record from the old one), and the
    loading and saving of the settings in the user's document. */
module Notifications {
  import opened Wrappers
  import opened Text
  import opened Sorting
  import opened Records

  /** `configPadrao` */
  const ConfigPadrao := NotificationConfig(
    true, ["07:00", "19:30"], [0, 1, 2, 3, 4, 5, 6],
    ReminderTypes(true, true, true, false), 15, Some(""))

  const SaveErrorMessage := "Não foi possível salvar as configurações. Tente novamente."

  /** The draft reminder time the add form starts with. */
  const DefaultDraft := "08:00"

  // ---------------------------------------------------------------------------
  // On/off switches
  // ---------------------------------------------------------------------------

  /** `toggleAtivo`: flips `ativo` and nothing else. */
  function ToggleAtivo(c: NotificationConfig): (r: NotificationConfig)
    ensures r.ativo == !c.ativo
    ensures r == c.(ativo := r.ativo)
  {
    c.(ativo := !c.ativo)
  }

  /** The keys of `tiposLembrete`. */
  datatype ReminderType = PraticaDiaria | NovasMediacoes | ManterSequencia | Sugestoes

  function ReminderOn(t: ReminderTypes, k: ReminderType): bool
  {
    match k
    case PraticaDiaria => t.praticaDiaria
    case NovasMediacoes => t.novasMediacoes
    case ManterSequencia => t.manterSequencia
    case Sugestoes => t.sugestoes
  }

  /** `toggleTipoLembrete(k)`: flips reminder kind `k` and nothing else. */
  function ToggleTipoLembrete(c: NotificationConfig, k: ReminderType): (r: NotificationConfig)
    ensures ReminderOn(r.tiposLembrete, k) == !ReminderOn(c.tiposLembrete, k)
    ensures forall k' :: k' != k ==> ReminderOn(r.tiposLembrete, k') == ReminderOn(c.tiposLembrete, k')
    ensures r == c.(tiposLembrete := r.tiposLembrete)
  {
    var t := c.tiposLembrete;
    var t' := match k
      case PraticaDiaria => t.(praticaDiaria := !t.praticaDiaria)
      case NovasMediacoes => t.(novasMediacoes := !t.novasMediacoes)
      case ManterSequencia => t.(manterSequencia := !t.manterSequencia)
      case Sugestoes => t.(sugestoes := !t.sugestoes);
    c.(tiposLembrete := t')
  }

  lemma ToggleTwiceRestores(c: NotificationConfig, k: ReminderType)
    ensures ToggleAtivo(ToggleAtivo(c)) == c
    ensures ToggleTipoLembrete(ToggleTipoLembrete(c, k), k) == c
  {
  }

  // ---------------------------------------------------------------------------
  // Weekdays
  // ---------------------------------------------------------------------------

  /** `days.filter(d => d !== day)`. */
  function RemoveAll(days: seq<int>, day: int): (r: seq<int>)
    ensures forall e :: e in r <==> e in days && e != day
    ensures |r| <= |days|
    decreases |days|
  {
    if days == [] then []
    else if days[0] != day then [days[0]] + RemoveAll(days[1..], day)
    else RemoveAll(days[1..], day)
  }

  lemma {:induction false} RemoveAllKeepsSorted(days: seq<int>, day: int)
    requires SortedBy(days, IntToString)
    ensures SortedBy(RemoveAll(days, day), IntToString)
    decreases |days|
  {
    if days != [] {
      assert SortedBy(days[1..], IntToString) by {
        forall i, j | 0 <= i < j < |days[1..]|
          ensures LexLe(IntToString(days[1..][i]), IntToString(days[1..][j]))
        {
          assert days[1..][i] == days[i + 1] && days[1..][j] == days[j + 1];
        }
      }
      RemoveAllKeepsSorted(days[1..], day);
      if days[0] != day {
        var t := RemoveAll(days[1..], day);
        var r := [days[0]] + t;
        forall i, j | 0 <= i < j < |r|
          ensures LexLe(IntToString(r[i]), IntToString(r[j]))
        {
          if i == 0 {
            assert r[j] == t[j - 1] && t[j - 1] in t;
            var m :| 0 <= m < |days[1..]| && days[1..][m] == t[j - 1];
            assert days[m + 1] == r[j];
          } else {
            assert r[i] == t[i - 1] && r[j] == t[j - 1];
          }
        }
      }
    }
  }

  /** The weekday list after `toggleDiaSemana(day)`: every occurrence of a
      selected day is removed; an unselected day is appended and the list is
      re-sorted with the default (string) sort. */
  function ToggleDay(days: seq<int>, day: int): (r: seq<int>)
    ensures day in r <==> day !in days
    ensures forall e :: e != day ==> (e in r <==> e in days)
    ensures day !in days ==> multiset(r) == multiset(days) + multiset{day}
    ensures day !in days ==> SortedBy(r, IntToString)
  {
    if day in days then RemoveAll(days, day)
    else
      SortByMembers(days + [day], IntToString);
      SortBy(days + [day], IntToString)
  }

  /** `toggleDiaSemana(day)` on the whole settings: only the weekdays change. */
  function ToggleDiaSemana(c: NotificationConfig, day: int): (r: NotificationConfig)
    ensures r == c.(diasSemana := r.diasSemana)
    ensures day in r.diasSemana <==> day !in c.diasSemana
  {
    c.(diasSemana := ToggleDay(c.diasSemana, day))
  }

  /** A sorted weekday list stays sorted. */
  lemma ToggleDayKeepsSorted(days: seq<int>, day: int)
    requires SortedBy(days, IntToString)
    ensures SortedBy(ToggleDay(days, day), IntToString)
  {
    if day in days {
      RemoveAllKeepsSorted(days, day);
    }
  }

  /** For the one-digit weekdays the string comparison of the default sort
      is the comparison of the numbers. */
  lemma SingleDigitKeyOrder(x: int, y: int)
    requires 0 <= x <= 9 && 0 <= y <= 9
    ensures LexLe(IntToString(x), IntToString(y)) <==> x <= y
  {
    var a, b := DigitChar(x), DigitChar(y);
    assert IntToString(x) == [a] && IntToString(y) == [b];
    assert [a][1..] == [] && [b][1..] == [];
    assert LexLess([a], [b]) <==> a < b;
  }

  predicate AllWeekdays(days: seq<int>)
  {
    forall i :: 0 <= i < |days| ==> 0 <= days[i] <= 6
  }

  predicate NumericallySorted(days: seq<int>)
  {
    forall i, j :: 0 <= i < j < |days| ==> days[i] <= days[j]
  }

  lemma WeekdaysSortedAsNumbers(days: seq<int>)
    requires AllWeekdays(days)
    ensures SortedBy(days, IntToString) <==> NumericallySorted(days)
  {
    forall i, j | 0 <= i < j < |days|
      ensures LexLe(IntToString(days[i]), IntToString(days[j])) <==> days[i] <= days[j]
    {
      SingleDigitKeyOrder(days[i], days[j]);
    }
  }

  /** Toggling a weekday 0-6 in a numerically ordered list of weekdays
      gives a numerically ordered list of weekdays, without repetitions if
      there were none. */
  lemma ToggleWeekdayNumericOrder(days: seq<int>, day: int)
    requires AllWeekdays(days) && NumericallySorted(days) && 0 <= day <= 6
    ensures AllWeekdays(ToggleDay(days, day)) && NumericallySorted(ToggleDay(days, day))
    ensures Distinct(days) ==> Distinct(ToggleDay(days, day))
  {
    var r := ToggleDay(days, day);
    WeekdaysSortedAsNumbers(days);
    ToggleDayKeepsSorted(days, day);
    assert AllWeekdays(r) by {
      forall i | 0 <= i < |r|
        ensures 0 <= r[i] <= 6
      {
        assert r[i] in r;
        if r[i] != day {
          var k :| 0 <= k < |days| && days[k] == r[i];
        }
      }
    }
    WeekdaysSortedAsNumbers(r);
    if Distinct(days) {
      if day in days {
        RemoveAllDistinct(days, day);
      } else {
        DistinctPermutation(days + [day], r);
      }
    }
  }

  lemma {:induction false} RemoveAllDistinct(days: seq<int>, day: int)
    requires Distinct(days)
    ensures Distinct(RemoveAll(days, day))
    decreases |days|
  {
    if days != [] {
      assert Distinct(days[1..]) by {
        forall p, q | 0 <= p < q < |days[1..]|
          ensures days[1..][p] != days[1..][q]
        {
          assert days[1..][p] == days[p + 1] && days[1..][q] == days[q + 1];
        }
      }
      RemoveAllDistinct(days[1..], day);
      if days[0] != day {
        var t := RemoveAll(days[1..], day);
        assert days[0] !in days[1..] by {
          forall k | 0 <= k < |days[1..]|
            ensures days[1..][k] != days[0]
          {
            assert days[1..][k] == days[k + 1];
          }
        }
        var r := [days[0]] + t;
        forall p, q | 0 <= p < q < |r|
          ensures r[p] != r[q]
        {
          if p == 0 {
            assert r[q] == t[q - 1] && t[q - 1] in t;
          } else {
            assert r[p] == t[p - 1] && r[q] == t[q - 1];
          }
        }
      }
    }
  }

  // ---------------------------------------------------------------------------
  // Reminder times
  // ---------------------------------------------------------------------------

  /** The string form of a string: the key of the default sort. */
  function Id(s: string): string { s }

  /** `adicionarHorario` accepts a draft that is non-empty and not yet listed. */
  predicate CanAddTime(horarios: seq<string>, draft: string)
  {
    draft != "" && draft !in horarios
  }

  /** `[...horarios, draft].sort()` */
  function WithTimeAdded(horarios: seq<string>, draft: string): (r: seq<string>)
    ensures |r| == |horarios| + 1
    ensures multiset(r) == multiset(horarios) + multiset{draft}
    ensures draft in r
    ensures SortedBy(r, Id)
  {
    SortByMembers(horarios + [draft], Id);
    SortBy(horarios + [draft], Id)
  }

  /** The settings after `adicionarHorario` with the given draft: the draft
      joins the sorted times when it is accepted, and nothing changes otherwise. */
  function WithDraftAdded(c: NotificationConfig, draft: string): (r: NotificationConfig)
    ensures CanAddTime(c.horarios, draft) ==> r.horarios == WithTimeAdded(c.horarios, draft)
    ensures !CanAddTime(c.horarios, draft) ==> r == c
    ensures r.(horarios := c.horarios) == c
  {
    if CanAddTime(c.horarios, draft) then c.(horarios := WithTimeAdded(c.horarios, draft)) else c
  }

  /** Adding an accepted time introduces no repetition. */
  lemma WithTimeAddedDistinct(horarios: seq<string>, draft: string)
    requires Distinct(horarios) && CanAddTime(horarios, draft)
    ensures Distinct(WithTimeAdded(horarios, draft))
  {
    var s := horarios + [draft];
    forall i, j | 0 <= i < j < |s|
      ensures s[i] != s[j]
    {
      if j == |horarios| {
        assert s[i] == horarios[i];
      } else {
        assert s[i] == horarios[i] && s[j] == horarios[j];
      }
    }
    DistinctPermutation(s, WithTimeAdded(horarios, draft));
  }

  /** `atualizarHorario(i, v)`: position `i` takes `v`; the list is neither
      re-sorted nor checked for repetitions. */
  function UpdateTime(horarios: seq<string>, i: nat, v: string): (r: seq<string>)
    requires i < |horarios|
    ensures |r| == |horarios| && r[i] == v
    ensures forall k :: 0 <= k < |r| && k != i ==> r[k] == horarios[k]
  {
    horarios[i := v]
  }

  /** Editing a time can leave the list out of order or with a repetition. */
  lemma UpdateTimeKeepsNeitherOrderNorUniqueness()
    ensures UpdateTime(["07:00", "19:30"], 0, "20:00") == ["20:00", "19:30"]
    ensures !SortedBy(UpdateTime(["07:00", "19:30"], 0, "20:00"), Id)
    ensures !Distinct(UpdateTime(["07:00", "19:30"], 0, "19:30"))
  {
    var r := UpdateTime(["07:00", "19:30"], 0, "20:00");
    assert r[0] == "20:00" && r[1] == "19:30";
    assert LexLess(r[1], r[0]);
    LexLessAsymmetric(r[1], r[0]);
    LexLessIrreflexive(r[0]);
  }

  /** `horarios.splice(i, 1)`: JavaScript counts a negative start from the end
      and ignores a start past the end. */
  function RemoveTime(horarios: seq<string>, i: int): (r: seq<string>)
    ensures 0 <= i < |horarios| ==>
      (|r| == |horarios| - 1
       && (forall k :: 0 <= k < i ==> r[k] == horarios[k])
       && (forall k :: i <= k < |r| ==> r[k] == horarios[k + 1]))
    ensures i >= |horarios| ==> r == horarios
    ensures -|horarios| <= i < 0 ==> r == horarios[..|horarios| + i] + horarios[|horarios| + i + 1..]
    ensures i < -|horarios| && horarios != [] ==> r == horarios[1..]
  {
    var n := |horarios|;
    var start := if i < 0 then (if n + i < 0 then 0 else n + i) else (if i > n then n else i);
    if start < n then horarios[..start] + horarios[start + 1..] else horarios
  }

  /** Removing a time keeps the others in their order, so it keeps the list
      sorted and free of repetitions. */
  lemma RemoveTimeKeepsOrder(horarios: seq<string>, i: nat)
    requires i < |horarios|
    ensures SortedBy(horarios, Id) ==> SortedBy(RemoveTime(horarios, i), Id)
    ensures Distinct(horarios) ==> Distinct(RemoveTime(horarios, i))
    ensures multiset(RemoveTime(horarios, i)) + multiset{horarios[i]} == multiset(horarios)
  {
    var r := RemoveTime(horarios, i);
    assert horarios == horarios[..i] + [horarios[i]] + horarios[i + 1..];
    assert r == horarios[..i] + horarios[i + 1..];
    var pos := (k: int) => if k < i then k else k + 1;
    assert forall k :: 0 <= k < |r| ==> r[k] == horarios[pos(k)];
  }

  // ---------------------------------------------------------------------------
  // Lead time
  // ---------------------------------------------------------------------------

  /** `atualizarAntecedencia(valor)`: the lead time changes only to a
      parsed, non-negative integer. */
  function UpdateLeadTime(c: NotificationConfig, valor: string): (r: NotificationConfig)
    ensures r == c.(antecedencia := r.antecedencia)
    ensures r != c ==> JsParseInt(valor) == Some(r.antecedencia) && r.antecedencia >= 0
    ensures (JsParseInt(valor).Some? && JsParseInt(valor).value >= 0) ==>
      r.antecedencia == JsParseInt(valor).value
    ensures (JsParseInt(valor).None? || JsParseInt(valor).value < 0) ==> r == c
  {
    match JsParseInt(valor)
    case Some(n) => if n >= 0 then c.(antecedencia := n) else c
    case None => c
  }

  /** The input's bounds 0-60 are not enforced by the handler: "90" is stored. */
  lemma LeadTimeAboveInputMaximum(c: NotificationConfig)
    ensures UpdateLeadTime(c, "90").antecedencia == 90
  {
    assert NatToString(90) + [] == "90";
    ParseIntReadsNumeral(90, []);
  }

  /** A negative number is ignored. */
  lemma LeadTimeNegativeIgnored(c: NotificationConfig)
    ensures UpdateLeadTime(c, "-5") == c
  {
    assert "-" + NatToString(5) == "-5";
    ParseIntReadsNegativeNumeral(5);
  }

  /** An empty field is ignored (parseInt gives NaN). */
  lemma LeadTimeEmptyIgnored(c: NotificationConfig)
    ensures UpdateLeadTime(c, "") == c
  {
  }

  /** A fraction is cut at the decimal point. */
  lemma LeadTimeFractionTruncated(c: NotificationConfig)
    ensures UpdateLeadTime(c, "7.5").antecedencia == 7
  {
    assert NatToString(7) + ".5" == "7.5";
    ParseIntReadsNumeral(7, ".5");
  }

  // ---------------------------------------------------------------------------
  // Loading and saving
  // ---------------------------------------------------------------------------

  /** The settings shown after loading: the stored ones, or `configPadrao`
      when the document or its `notificacoes` field is missing. */
  function LoadedConfig(users: map<string, UserDoc>, uid: string): (c: NotificationConfig)
    ensures uid in users && users[uid].notificacoes.Some? ==> c == users[uid].notificacoes.value
    ensures uid !in users || users[uid].notificacoes.None? ==> c == ConfigPadrao
  {
    if uid in users && users[uid].notificacoes.Some? then users[uid].notificacoes.value else ConfigPadrao
  }

  /** The users collection after saving `c` for `user` at instant `now`: the
      field is replaced in an existing document; a missing document is
      created with role "user". */
  function UsersAfterSave(users: map<string, UserDoc>, user: AuthUser, c: NotificationConfig, now: int)
    : (r: map<string, UserDoc>)
    ensures r.Keys == users.Keys + {user.uid}
    ensures forall k :: k in users && k != user.uid ==> r[k] == users[k]
    ensures r[user.uid].notificacoes == Some(c)
    ensures user.uid in users ==> r[user.uid] == users[user.uid].(notificacoes := Some(c))
    ensures user.uid !in users ==>
      r[user.uid] == UserDoc(user.displayName.GetOr(""), user.email, Some("user"), Some(now), None, None, Some(c))
  {
    if user.uid in users then users[user.uid := users[user.uid].(notificacoes := Some(c))]
    else users[user.uid := UserDoc(user.displayName.GetOr(""), user.email, Some("user"), Some(now), None, None, Some(c))]
  }

  /** Saving and loading again gives back the saved settings. */
  lemma SaveThenLoad(users: map<string, UserDoc>, user: AuthUser, c: NotificationConfig, now: int)
    ensures LoadedConfig(UsersAfterSave(users, user, c, now), user.uid) == c
  {
  }

  /** The state of the reminder-settings page. */
  class NotificationsPage {
    var config: NotificationConfig
    var loading: bool
    var saving: bool
    var saveSuccess: bool
    var saveError: string
    var novoHorario: string
    var showAddHorario: bool

    constructor()
      ensures config == ConfigPadrao && loading && !saving && !saveSuccess && saveError == ""
      ensures novoHorario == DefaultDraft && !showAddHorario
    {
      config := ConfigPadrao;
      loading := true;
      saving := false;
      saveSuccess := false;
      saveError := "";
      novoHorario := DefaultDraft;
      showAddHorario := false;
    }

    /** `carregarConfiguracoes`; `readOk` says whether `getDoc` succeeds. */
    method Carregar(db: Firestore, user: Option<AuthUser>, readOk: bool)
      modifies this
      ensures user.None? ==> config == old(config) && loading == old(loading)
      ensures user.Some? ==> !loading
      ensures user.Some? && readOk ==> config == LoadedConfig(db.users, user.value.uid)
      ensures user.Some? && !readOk ==> config == old(config)
      ensures saving == old(saving) && saveSuccess == old(saveSuccess) && saveError == old(saveError)
      ensures novoHorario == old(novoHorario) && showAddHorario == old(showAddHorario)
    {
      if user.None? {
        return;
      }
      loading := true;
      if readOk {
        var uid := user.value.uid;
        if uid in db.users && db.users[uid].notificacoes.Some? {
          config := db.users[uid].notificacoes.value;
        } else {
          config := ConfigPadrao;
        }
      }
      loading := false;
    }

    /** `salvarConfiguracoes`; `storeOk` says whether the read and the write
        succeed, `now` is the current instant. */
    method Salvar(db: Firestore, user: Option<AuthUser>, storeOk: bool, now: int)
      modifies this, db
      ensures user.None? ==> (db.users == old(db.users) && saveSuccess == old(saveSuccess)
        && saveError == old(saveError) && saving == old(saving))
      ensures user.Some? && storeOk ==>
        (db.users == UsersAfterSave(old(db.users), user.value, config, now) && saveSuccess && saveError == "")
      ensures user.Some? && !storeOk ==>
        (db.users == old(db.users) && !saveSuccess && saveError == SaveErrorMessage)
      ensures user.Some? ==> !saving
      ensures db.meditacoes == old(db.meditacoes) && db.manaDiario == old(db.manaDiario)
      ensures config == old(config) && loading == old(loading)
      ensures novoHorario == old(novoHorario) && showAddHorario == old(showAddHorario)
    {
      if user.None? {
        return;
      }
      saving := true;
      saveSuccess := false;
      saveError := "";
      if storeOk {
        var u := user.value;
        if u.uid in db.users {
          db.users := db.users[u.uid := db.users[u.uid].(notificacoes := Some(config))];
        } else {
          db.users := db.users[u.uid := UserDoc(u.displayName.GetOr(""), u.email, Some("user"), Some(now), None, None, Some(config))];
        }
        saveSuccess := true;
      } else {
        saveError := SaveErrorMessage;
      }
      saving := false;
    }

    method HandleToggleAtivo()
      modifies this
      ensures config == ToggleAtivo(old(config))
      ensures loading == old(loading) && saving == old(saving) && saveSuccess == old(saveSuccess)
      ensures saveError == old(saveError) && novoHorario == old(novoHorario) && showAddHorario == old(showAddHorario)
    {
      config := config.(ativo := !config.ativo);
    }

    method HandleToggleDiaSemana(day: int)
      modifies this
      ensures config == ToggleDiaSemana(old(config), day)
      ensures loading == old(loading) && saving == old(saving) && saveSuccess == old(saveSuccess)
      ensures saveError == old(saveError) && novoHorario == old(novoHorario) && showAddHorario == old(showAddHorario)
    {
      var novosDias := config.diasSemana;
      if day in novosDias {
        config := config.(diasSemana := RemoveAll(novosDias, day));
      } else {
        config := config.(diasSemana := SortBy(novosDias + [day], IntToString));
      }
    }

    method HandleToggleTipoLembrete(k: ReminderType)
      modifies this
      ensures config == ToggleTipoLembrete(old(config), k)
      ensures loading == old(loading) && saving == old(saving) && saveSuccess == old(saveSuccess)
      ensures saveError == old(saveError) && novoHorario == old(novoHorario) && showAddHorario == old(showAddHorario)
    {
      config := ToggleTipoLembrete(config, k);
    }

    /** `atualizarHorario(index, valor)`; the page calls it for listed times only. */
    method AtualizarHorario(index: nat, valor: string)
      requires index < |config.horarios|
      modifies this
      ensures config == old(config).(horarios := UpdateTime(old(config.horarios), index, valor))
      ensures loading == old(loading) && saving == old(saving) && saveSuccess == old(saveSuccess)
      ensures saveError == old(saveError) && novoHorario == old(novoHorario) && showAddHorario == old(showAddHorario)
    {
      var novosHorarios := config.horarios;
      novosHorarios := novosHorarios[index := valor];
      config := config.(horarios := novosHorarios);
    }

    /** `removerHorario(index)` */
    method RemoverHorario(index: int)
      modifies this
      ensures config == old(config).(horarios := RemoveTime(old(config.horarios), index))
      ensures loading == old(loading) && saving == old(saving) && saveSuccess == old(saveSuccess)
      ensures saveError == old(saveError) && novoHorario == old(novoHorario) && showAddHorario == old(showAddHorario)
    {
      config := config.(horarios := RemoveTime(config.horarios, index));
    }

    /** `adicionarHorario`: an accepted draft is added in order, the draft is
        reset and the form closed; otherwise nothing changes. */
    method AdicionarHorario()
      modifies this
      ensures config == WithDraftAdded(old(config), old(novoHorario))
      ensures loading == old(loading) && saving == old(saving) && saveSuccess == old(saveSuccess)
      ensures saveError == old(saveError)
      ensures novoHorario == if CanAddTime(old(config.horarios), old(novoHorario)) then DefaultDraft else old(novoHorario)
      ensures showAddHorario == (old(showAddHorario) && !CanAddTime(old(config.horarios), old(novoHorario)))
    {
      var draft := novoHorario;
      if CanAddTime(config.horarios, draft) {
        novoHorario := DefaultDraft;
        showAddHorario := false;
      }
      config := WithDraftAdded(config, draft);
    }

    /** `atualizarAntecedencia(valor)` */
    method AtualizarAntecedencia(valor: string)
      modifies this
      ensures config == UpdateLeadTime(old(config), valor)
      ensures loading == old(loading) && saving == old(saving) && saveSuccess == old(saveSuccess)
      ensures saveError == old(saveError) && novoHorario == old(novoHorario) && showAddHorario == old(showAddHorario)
    {
      var numero := JsParseInt(valor);
      if numero.Some? && numero.value >= 0 {
        config := config.(antecedencia := numero.value);
      }
    }

    /** Typing a draft time, and opening or closing the add form. */
    method SetNovoHorario(valor: string)
      modifies this
      ensures novoHorario == valor && config == old(config) && showAddHorario == old(showAddHorario)
      ensures loading == old(loading) && saving == old(saving) && saveSuccess == old(saveSuccess)
      ensures saveError == old(saveError)
    {
      novoHorario := valor;
    }

    method SetShowAddHorario(show: bool)
      modifies this
      ensures showAddHorario == show && config == old(config) && novoHorario == old(novoHorario)
      ensures loading == old(loading) && saving == old(saving) && saveSuccess == old(saveSuccess)
      ensures saveError == old(saveError)
    {
      showAddHorario := show;
    }
  }
}
