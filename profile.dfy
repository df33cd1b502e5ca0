/** The profile page: the achievement catalogue and the rule that splits it
    into unlocked and upcoming achievements, the choice of profile icon, and
    the loading of the user's practice counters. */
module Profile {
  import opened Wrappers
  import opened Records
  import opened Sorting

  // ---------------------------------------------------------------------------
  // Achievements
  // ---------------------------------------------------------------------------

  /** The counter an achievement looks at. */
  datatype Metric = TotalMeditacoes | DiasConsecutivos | MinutosMeditados

  datatype Tier = Bronze | Prata | Ouro

  /** An achievement (`Conquista`). Every criterion of the catalogue has the
      form "counter >= threshold", so it is kept as the pair. */
  datatype Achievement = Achievement(
    id: string,
    titulo: string,
    descricao: string,
    metric: Metric,
    threshold: int,
    nivel: Tier)

  function Counter(j: Journey, m: Metric): int
  {
    match m
    case TotalMeditacoes => j.totalMeditacoes
    case DiasConsecutivos => j.diasConsecutivos
    case MinutosMeditados => j.minutosMeditados
  }

  /** `conquista.criterio(j)` */
  predicate Criterion(a: Achievement, j: Journey)
  {
    Counter(j, a.metric) >= a.threshold
  }

  const PrimeiraMeditacao := Achievement("primeira-meditacao", "Primeiro Passo",
    "Completou sua primeira meditação", TotalMeditacoes, 1, Bronze)
  const TresDias := Achievement("tres-dias", "Consistência Inicial",
    "Meditou por 3 dias consecutivos", DiasConsecutivos, 3, Bronze)
  const DezMeditacoes := Achievement("dez-meditacoes", "Dedicação Crescente",
    "Completou 10 meditações", TotalMeditacoes, 10, Bronze)
  const HoraMeditada := Achievement("hora-meditada", "Uma Hora de Paz",
    "Acumulou 60 minutos de meditação", MinutosMeditados, 60, Bronze)
  const SeteDias := Achievement("sete-dias", "Uma Semana Zen",
    "Meditou por 7 dias consecutivos", DiasConsecutivos, 7, Prata)
  const TrintaMeditacoes := Achievement("trinta-meditacoes", "Praticante Regular",
    "Completou 30 meditações", TotalMeditacoes, 30, Prata)
  const CincoHoras := Achievement("cinco-horas", "Imersão Profunda",
    "Acumulou 5 horas de meditação", MinutosMeditados, 300, Prata)
  const TrintaDias := Achievement("trinta-dias", "Mestre da Constância",
    "Meditou por 30 dias consecutivos", DiasConsecutivos, 30, Ouro)
  const CemMeditacoes := Achievement("cem-meditacoes", "Centenário da Paz",
    "Completou 100 meditações", TotalMeditacoes, 100, Ouro)
  const VinteHoras := Achievement("vinte-horas", "Iluminação Interior",
    "Acumulou 20 horas de meditação", MinutosMeditados, 1200, Ouro)

  /** `todasConquistas`, in display order. */
  const Catalogue: seq<Achievement> := [
    PrimeiraMeditacao, TresDias, DezMeditacoes, HoraMeditada,
    SeteDias, TrintaMeditacoes, CincoHoras,
    TrintaDias, CemMeditacoes, VinteHoras]

  /** `s.filter(a => a.criterio(j) == met)`. */
  function Select(s: seq<Achievement>, j: Journey, met: bool): (r: seq<Achievement>)
    ensures forall a :: a in r <==> a in s && Criterion(a, j) == met
    ensures IsSubsequence(r, s)
    decreases |s|
  {
    if s == [] then []
    else if Criterion(s[0], j) == met then [s[0]] + Select(s[1..], j, met)
    else Select(s[1..], j, met)
  }

  /** The unlocked achievements (`desbloqueadas`). */
  function Unlocked(j: Journey): (r: seq<Achievement>)
    ensures forall a :: a in r <==> a in Catalogue && Criterion(a, j)
    ensures IsSubsequence(r, Catalogue)
  {
    Select(Catalogue, j, true)
  }

  /** All achievements not yet unlocked, in catalogue order. */
  function Locked(j: Journey): (r: seq<Achievement>)
    ensures forall a :: a in r <==> a in Catalogue && !Criterion(a, j)
    ensures IsSubsequence(r, Catalogue)
  {
    Select(Catalogue, j, false)
  }

  /** The upcoming achievements (`proximas`): at most three locked ones. */
  function Upcoming(j: Journey): (r: seq<Achievement>)
    ensures |r| <= 3 && |r| <= |Locked(j)|
    ensures r == Locked(j)[..|r|]
  {
    var l := Locked(j);
    if |l| <= 3 then l else l[..3]
  }

  lemma {:induction false} SelectSplits(s: seq<Achievement>, j: Journey)
    ensures |Select(s, j, true)| + |Select(s, j, false)| == |s|
    decreases |s|
  {
    if s != [] {
      SelectSplits(s[1..], j);
    }
  }

  /** Every achievement of the catalogue is unlocked or upcoming-or-later,
      never both, and the two lists together have all ten. */
  lemma UnlockedLockedPartition(j: Journey)
    ensures forall a :: a in Catalogue ==> (a in Unlocked(j) <==> a !in Locked(j))
    ensures |Unlocked(j)| + |Locked(j)| == |Catalogue| == 10
    ensures IsSubsequence(Unlocked(j), Catalogue) && IsSubsequence(Locked(j), Catalogue)
  {
    SelectSplits(Catalogue, j);
  }

  /** The upcoming list has min(3, number locked) entries, and it is empty
      exactly when every achievement is unlocked. */
  lemma UpcomingSize(j: Journey)
    ensures |Upcoming(j)| == if 10 - |Unlocked(j)| < 3 then 10 - |Unlocked(j)| else 3
    ensures Upcoming(j) == [] <==> |Unlocked(j)| == 10
    ensures Upcoming(j) == [] <==> forall a :: a in Catalogue ==> Criterion(a, j)
  {
    SelectSplits(Catalogue, j);
    var l := Locked(j);
    if l != [] {
      assert l[0] in l;
    }
  }

  /** Journey `j2` has at least the counters of `j1`. */
  predicate Dominates(j1: Journey, j2: Journey)
  {
    j1.totalMeditacoes <= j2.totalMeditacoes
    && j1.diasConsecutivos <= j2.diasConsecutivos
    && j1.minutosMeditados <= j2.minutosMeditados
  }

  lemma {:induction false} SelectMonotone(s: seq<Achievement>, j1: Journey, j2: Journey)
    requires Dominates(j1, j2)
    ensures IsSubsequence(Select(s, j1, true), Select(s, j2, true))
    decreases |s|
  {
    if s != [] {
      SelectMonotone(s[1..], j1, j2);
      var r1, r2 := Select(s[1..], j1, true), Select(s[1..], j2, true);
      if Criterion(s[0], j1) {
        assert ([s[0]] + r1)[1..] == r1 && ([s[0]] + r2)[1..] == r2;
      } else if Criterion(s[0], j2) {
        assert ([s[0]] + r2)[1..] == r2;
        assert IsSubsequence(r1, [s[0]] + r2);
      }
    }
  }

  /** More practice never locks an achievement again: the unlocked list of
      `j1` is a sub-list of that of `j2`. */
  lemma UnlockedMonotone(j1: Journey, j2: Journey)
    requires Dominates(j1, j2)
    ensures IsSubsequence(Unlocked(j1), Unlocked(j2))
    ensures forall a :: a in Unlocked(j1) ==> a in Unlocked(j2)
  {
    SelectMonotone(Catalogue, j1, j2);
  }

  /** Within each counter, a higher threshold implies the lower ones: the
      meditation count, the streak of days and the minutes. */
  lemma MeditationCountChain(j: Journey)
    ensures CemMeditacoes in Unlocked(j) ==> TrintaMeditacoes in Unlocked(j)
    ensures TrintaMeditacoes in Unlocked(j) ==> DezMeditacoes in Unlocked(j)
    ensures DezMeditacoes in Unlocked(j) ==> PrimeiraMeditacao in Unlocked(j)
  {
    assert Catalogue[0] == PrimeiraMeditacao && Catalogue[2] == DezMeditacoes;
    assert Catalogue[5] == TrintaMeditacoes && Catalogue[8] == CemMeditacoes;
  }

  lemma StreakChain(j: Journey)
    ensures TrintaDias in Unlocked(j) ==> SeteDias in Unlocked(j)
    ensures SeteDias in Unlocked(j) ==> TresDias in Unlocked(j)
  {
    assert Catalogue[1] == TresDias && Catalogue[4] == SeteDias && Catalogue[7] == TrintaDias;
  }

  lemma MinutesChain(j: Journey)
    ensures VinteHoras in Unlocked(j) ==> CincoHoras in Unlocked(j)
    ensures CincoHoras in Unlocked(j) ==> HoraMeditada in Unlocked(j)
  {
    assert Catalogue[3] == HoraMeditada && Catalogue[6] == CincoHoras && Catalogue[9] == VinteHoras;
  }

  lemma {:induction false} SelectNoneMet(s: seq<Achievement>, j: Journey, met: bool)
    requires forall i :: 0 <= i < |s| ==> Criterion(s[i], j) != met
    ensures Select(s, j, met) == [] && Select(s, j, !met) == s
    decreases |s|
  {
    if s != [] {
      assert forall k :: 0 <= k < |s[1..]| ==> s[1..][k] == s[k + 1];
      SelectNoneMet(s[1..], j, met);
      assert s == [s[0]] + s[1..];
    }
  }

  /** Every threshold of the catalogue is at least 1. */
  lemma CatalogueThresholdsPositive()
    ensures forall i :: 0 <= i < |Catalogue| ==> Catalogue[i].threshold >= 1
  {
  }

  const ZeroJourney := Journey(0, 0, 0, 0, 0)

  /** The all-zero journey unlocks nothing, and its upcoming list is the first
      three achievements of the catalogue. */
  lemma ZeroJourneyAchievements()
    ensures Unlocked(ZeroJourney) == []
    ensures Upcoming(ZeroJourney) == [PrimeiraMeditacao, TresDias, DezMeditacoes]
  {
    CatalogueThresholdsPositive();
    SelectNoneMet(Catalogue, ZeroJourney, true);
    assert Locked(ZeroJourney) == Catalogue;
    assert Catalogue[..3] == [PrimeiraMeditacao, TresDias, DezMeditacoes];
  }

  /** Three days in a row, one meditation and ten minutes unlock "Primeiro
      Passo" and "Consistência Inicial" but not "Uma Hora de Paz". */
  lemma ExampleJourney()
    ensures var j := Journey(3, 0, 0, 1, 10);
      PrimeiraMeditacao in Unlocked(j) && TresDias in Unlocked(j) && HoraMeditada !in Unlocked(j)
  {
  }

  // ---------------------------------------------------------------------------
  // Profile icon
  // ---------------------------------------------------------------------------

  /** `profileIcons`, the icons the user can pick. */
  const ProfileIcons: seq<string> := [
    "/profile-icons/icon_nature_leaf.png",
    "/profile-icons/icon_wave_calm.png",
    "/profile-icons/icon_mountain_peak.png",
    "/profile-icons/icon_sun_horizon.png",
    "/profile-icons/icon_starry_sky.png",
    "/profile-icons/icon_abstract_lines.png"]

  const Placeholder := "/user-placeholder.svg"

  /** The icon shown after reading the stored choice `saved`: it is taken only
      when it is one of `ProfileIcons`; otherwise `current` stays. */
  function AdoptSavedIcon(current: string, saved: Option<string>): (icon: string)
    ensures icon == current || (saved.Some? && icon == saved.value && icon in ProfileIcons)
    ensures saved.Some? && saved.value in ProfileIcons ==> icon == saved.value
  {
    if saved.Some? && saved.value != "" && saved.value in ProfileIcons then saved.value else current
  }

  /** On a fresh page, a stored path is shown exactly when it is one of the
      six icons (or is the placeholder itself). */
  lemma SavedIconAllowList(p: string)
    ensures AdoptSavedIcon(Placeholder, Some(p)) == p <==> p in ProfileIcons || p == Placeholder
    ensures AdoptSavedIcon(Placeholder, None) == Placeholder
  {
  }

  // ---------------------------------------------------------------------------
  // Loading the journey
  // ---------------------------------------------------------------------------

  /** The journey shown after reading the user's document: the stored one,
      or all counters zero when the document or its `jornada` is missing. */
  function LoadedJourney(users: map<string, UserDoc>, uid: string): (j: Journey)
    ensures uid in users && users[uid].jornada.Some? ==> j == users[uid].jornada.value
    ensures uid !in users || users[uid].jornada.None? ==>
      j.diasConsecutivos == 0 && j.meditacoesMes == 0 && j.meditacoesAno == 0
      && j.totalMeditacoes == 0 && j.minutosMeditados == 0
  {
    if uid in users && users[uid].jornada.Some? then users[uid].jornada.value else ZeroJourney
  }

  /** The users collection after loading: an existing document without a
      journey gets the all-zero one; nothing else changes. */
  function UsersAfterLoad(users: map<string, UserDoc>, uid: string): (r: map<string, UserDoc>)
    ensures r.Keys == users.Keys
    ensures forall k :: k in users && k != uid ==> r[k] == users[k]
    ensures uid in users ==> r[uid].jornada == Some(LoadedJourney(users, uid))
    ensures uid in users ==> r[uid] == users[uid].(jornada := r[uid].jornada)
  {
    if uid in users && users[uid].jornada.None? then
      users[uid := users[uid].(jornada := Some(ZeroJourney))]
    else users
  }

  /** The state of the profile page that the modelled handlers touch. */
  class ProfilePage {
    var selectedIcon: string
    /** The browser's stored `userProfileIcon` entry. */
    var storedIcon: Option<string>
    var showIconPopup: bool
    var jornada: Journey
    var carregandoJornada: bool
    var conquistasDesbloqueadas: seq<Achievement>
    var proximasConquistas: seq<Achievement>

    constructor(stored: Option<string>)
      ensures selectedIcon == Placeholder && storedIcon == stored && !showIconPopup
      ensures jornada == ZeroJourney && carregandoJornada
      ensures conquistasDesbloqueadas == [] && proximasConquistas == []
    {
      selectedIcon := Placeholder;
      storedIcon := stored;
      showIconPopup := false;
      jornada := ZeroJourney;
      carregandoJornada := true;
      conquistasDesbloqueadas := [];
      proximasConquistas := [];
    }

    /** The mount effect's reading of the stored icon. */
    method LoadSavedIcon()
      modifies this
      ensures selectedIcon == AdoptSavedIcon(old(selectedIcon), storedIcon)
      ensures storedIcon == old(storedIcon) && jornada == old(jornada)
      ensures carregandoJornada == old(carregandoJornada) && showIconPopup == old(showIconPopup)
      ensures conquistasDesbloqueadas == old(conquistasDesbloqueadas)
      ensures proximasConquistas == old(proximasConquistas)
    {
      var saved := storedIcon;
      if saved.Some? && saved.value != "" && saved.value in ProfileIcons {
        selectedIcon := saved.value;
      }
    }

    /** `handleIconSelect`: show the icon, store it, close the picker. */
    method HandleIconSelect(iconPath: string)
      modifies this
      ensures selectedIcon == iconPath && storedIcon == Some(iconPath) && !showIconPopup
      ensures jornada == old(jornada) && carregandoJornada == old(carregandoJornada)
      ensures conquistasDesbloqueadas == old(conquistasDesbloqueadas)
      ensures proximasConquistas == old(proximasConquistas)
    {
      selectedIcon := iconPath;
      storedIcon := Some(iconPath);
      showIconPopup := false;
    }

    /** `calcularConquistas` applied to the journey `j`. */
    method CalcularConquistas(j: Journey)
      modifies this
      ensures conquistasDesbloqueadas == Unlocked(j) && proximasConquistas == Upcoming(j)
      ensures selectedIcon == old(selectedIcon) && storedIcon == old(storedIcon)
      ensures showIconPopup == old(showIconPopup) && jornada == old(jornada)
      ensures carregandoJornada == old(carregandoJornada)
    {
      conquistasDesbloqueadas := Unlocked(j);
      proximasConquistas := Upcoming(j);
    }

    /** The journey part of `carregarDadosJornada`, shared by both versions:
        `readOk` and `writeOk` say whether `getDoc` and `updateDoc` succeed. */
    method LoadJourney(db: Firestore, uid: string, readOk: bool, writeOk: bool)
      modifies this, db
      ensures jornada == (if readOk then LoadedJourney(old(db.users), uid) else old(jornada))
      ensures db.users == (if readOk && writeOk then UsersAfterLoad(old(db.users), uid) else old(db.users))
      ensures db.meditacoes == old(db.meditacoes) && db.manaDiario == old(db.manaDiario)
      ensures !carregandoJornada
      ensures selectedIcon == old(selectedIcon) && storedIcon == old(storedIcon)
      ensures showIconPopup == old(showIconPopup)
      ensures conquistasDesbloqueadas == old(conquistasDesbloqueadas)
      ensures proximasConquistas == old(proximasConquistas)
    {
      carregandoJornada := true;
      if readOk {
        if uid in db.users && db.users[uid].jornada.Some? {
          jornada := db.users[uid].jornada.value;
        } else {
          jornada := ZeroJourney;
          if uid in db.users && writeOk {
            db.users := db.users[uid := db.users[uid].(jornada := Some(ZeroJourney))];
          }
        }
      }
      carregandoJornada := false;
    }

    /** `carregarDadosJornada` as the page behaves: the achievements are
        computed from the journey the page held before loading. */
    method CarregarDadosJornadaAsWritten(db: Firestore, user: Option<AuthUser>, readOk: bool, writeOk: bool)
      modifies this, db
      ensures user.None? ==> (jornada == old(jornada) && db.users == old(db.users)
        && carregandoJornada == old(carregandoJornada)
        && conquistasDesbloqueadas == old(conquistasDesbloqueadas)
        && proximasConquistas == old(proximasConquistas))
      ensures user.Some? ==> (!carregandoJornada
        && jornada == (if readOk then LoadedJourney(old(db.users), user.value.uid) else old(jornada))
        && db.users == (if readOk && writeOk then UsersAfterLoad(old(db.users), user.value.uid) else old(db.users))
        && conquistasDesbloqueadas == Unlocked(old(jornada))
        && proximasConquistas == Upcoming(old(jornada)))
      ensures selectedIcon == old(selectedIcon) && storedIcon == old(storedIcon)
      ensures showIconPopup == old(showIconPopup)
      ensures db.meditacoes == old(db.meditacoes) && db.manaDiario == old(db.manaDiario)
    {
      if user.Some? {
        var before := jornada;
        LoadJourney(db, user.value.uid, readOk, writeOk);
        CalcularConquistas(before);
      }
    }

    /** `carregarDadosJornada` computing the achievements from the journey it
        has just loaded. */
    method CarregarDadosJornada(db: Firestore, user: Option<AuthUser>, readOk: bool, writeOk: bool)
      modifies this, db
      ensures user.None? ==> (jornada == old(jornada) && db.users == old(db.users)
        && carregandoJornada == old(carregandoJornada)
        && conquistasDesbloqueadas == old(conquistasDesbloqueadas)
        && proximasConquistas == old(proximasConquistas))
      ensures user.Some? ==> (!carregandoJornada
        && jornada == (if readOk then LoadedJourney(old(db.users), user.value.uid) else old(jornada))
        && db.users == (if readOk && writeOk then UsersAfterLoad(old(db.users), user.value.uid) else old(db.users))
        && conquistasDesbloqueadas == Unlocked(jornada)
        && proximasConquistas == Upcoming(jornada))
      ensures selectedIcon == old(selectedIcon) && storedIcon == old(storedIcon)
      ensures showIconPopup == old(showIconPopup)
      ensures db.meditacoes == old(db.meditacoes) && db.manaDiario == old(db.manaDiario)
    {
      if user.Some? {
        LoadJourney(db, user.value.uid, readOk, writeOk);
        CalcularConquistas(jornada);
      }
    }
  }

  /** A user whose stored journey has one meditation opens the profile: as
      written, the page lists no unlocked achievement, although the journey
      it has just shown unlocks "Primeiro Passo". */
  method StaleAchievementsExample() returns (shown: seq<Achievement>, deserved: seq<Achievement>)
    ensures shown == [] && PrimeiraMeditacao in deserved
  {
    var stored := UserDoc("Ana", None, Some("user"), None, None, Some(Journey(0, 1, 1, 1, 5)), None);
    var db := new Firestore(map["u1" := stored], map[], map[]);
    var page := new ProfilePage(None);
    var user := AuthUser("u1", None, None, None);
    page.CarregarDadosJornadaAsWritten(db, Some(user), true, true);
    ZeroJourneyAchievements();
    shown := page.conquistasDesbloqueadas;
    deserved := Unlocked(page.jornada);
  }
}
