/** The home page (Maná Diário): today's date as YYYY-MM-DD, the daily
    manna entry for that date, and the buttons leading to the categories. */
module Home {
  import opened Wrappers
  import opened Text
  import opened Records
  import opened Routes
  import SavedMeditations

  // ---------------------------------------------------------------------------
  // getFormattedDate
  // ---------------------------------------------------------------------------

  /** The local calendar fields of a `Date`: `getFullYear()`, the zero-based
      `getMonth()` and `getDate()`. */
  datatype LocalDate = LocalDate(year: int, month: int, day: int)

  predicate ValidLocalDate(d: LocalDate)
  {
    0 <= d.month <= 11 && 1 <= d.day <= 31
  }

  /** `${year}-${pad2(month + 1)}-${pad2(day)}`; the year is not padded. */
  function GetFormattedDate(d: LocalDate): (r: string)
    requires ValidLocalDate(d)
    ensures r == IntToString(d.year) + "-" + Pad2(d.month + 1) + "-" + Pad2(d.day)
  {
    IntToString(d.year) + "-" + Pad2(d.month + 1) + "-" + Pad2(d.day)
  }

  /** The month and day fields are two digits whatever the year, and the
      year field is the plain decimal year. */
  lemma FormattedDateFields(d: LocalDate)
    requires ValidLocalDate(d)
    ensures var r := GetFormattedDate(d);
      var n := |r|;
      n >= 7 && r[n - 6] == '-' && r[n - 3] == '-'
      && AllDigits(r[n - 5..n - 3]) && DecimalValue(r[n - 5..n - 3]) == d.month + 1
      && AllDigits(r[n - 2..]) && DecimalValue(r[n - 2..]) == d.day
      && r[..n - 6] == IntToString(d.year)
  {
    Pad2Digits(d.month + 1);
    Pad2Digits(d.day);
    var y := IntToString(d.year);
    var r := GetFormattedDate(d);
    assert |y| >= 1;
    assert r[|r| - 5..|r| - 3] == Pad2(d.month + 1);
    assert r[|r| - 2..] == Pad2(d.day);
    assert r[..|r| - 6] == y;
  }

  /** With a four-digit year the result is a full-date of RFC 3339, section
      5.6, whose fields are the date's. */
  lemma FormattedDateIsFullDate(d: LocalDate)
    requires ValidLocalDate(d) && 1000 <= d.year <= 9999
    ensures var r := GetFormattedDate(d);
      IsFullDate(r) && FullDateYear(r) == d.year && FullDateMonth(r) == d.month + 1
      && FullDateDay(r) == d.day
  {
    assert IntToString(d.year) == NatToString(d.year);
    FormattedDateFields(d);
    NatToStringLength(d.year);
    DecimalValueOfNatToString(d.year);
    var r := GetFormattedDate(d);
    assert |IntToString(d.year)| == 4;
    assert r[..4] == NatToString(d.year);
  }

  /** Two dates with four-digit years give the same string exactly when they
      are the same date, and the strings sort in calendar order. */
  lemma FormattedDateOrder(d: LocalDate, e: LocalDate)
    requires ValidLocalDate(d) && 1000 <= d.year <= 9999
    requires ValidLocalDate(e) && 1000 <= e.year <= 9999
    ensures GetFormattedDate(d) == GetFormattedDate(e) <==> d == e
    ensures LexLess(GetFormattedDate(d), GetFormattedDate(e)) <==>
      DayBefore(d.year, d.month, d.day, e.year, e.month, e.day)
  {
    FormattedDateIsFullDate(d);
    FormattedDateIsFullDate(e);
    FullDateOrderIsChronological(GetFormattedDate(d), GetFormattedDate(e));
  }

  /** Years below 1000 give a string shorter than a full-date. */
  lemma ShortYearExample()
    ensures GetFormattedDate(LocalDate(999, 0, 1)) == "999-01-01"
  {
    assert NatToString(999) == "999" by {
      assert NatToString(99) == "99" by { assert NatToString(9) == "9"; }
    }
    assert Pad2(1) == "01" by { assert NatToString(1) == "1"; }
  }

  // ---------------------------------------------------------------------------
  // fetchManaDoDia
  // ---------------------------------------------------------------------------

  /** What the reference pattern finds at the end of a Bible text: the
      reference, and the text with the matched part removed. */
  datatype Extraction = Extraction(reference: string, remainder: string)

  /** The manna shown on the page. */
  datatype ManaDoDia = ManaDoDia(textoBiblico: string, referenciaBiblica: string, comentario: string)

  /** The fields shown for a stored entry. `extract` is the pattern match on the
      Bible text; a stored reference wins over an extracted one. */
  function ResolveMana(doc: ManaDoc, extract: string -> Option<Extraction>): (m: ManaDoDia)
    ensures var texto := OrElse(doc.textoBiblico, "");
      m.textoBiblico == (if extract(texto).Some? && extract(texto).value.reference != ""
        then extract(texto).value.remainder else texto)
    ensures doc.referenciaBiblica.Some? && doc.referenciaBiblica.value != "" ==>
      m.referenciaBiblica == doc.referenciaBiblica.value
    ensures m.comentario == OrElse(doc.comentario, "")
  {
    var texto := OrElse(doc.textoBiblico, "");
    var found := extract(texto);
    var matched := found.Some? && found.value.reference != "";
    var referencia := if matched then found.value.reference else "";
    ManaDoDia(
      if matched then found.value.remainder else texto,
      OrElse(doc.referenciaBiblica, OrElse(Some(referencia), "")),
      OrElse(doc.comentario, ""))
  }

  /** The reference is the stored field, else the extracted one, else empty. */
  lemma ReferencePrecedence(doc: ManaDoc, extract: string -> Option<Extraction>)
    ensures var texto := OrElse(doc.textoBiblico, "");
      var m := ResolveMana(doc, extract);
      (doc.referenciaBiblica.Some? && doc.referenciaBiblica.value != "" ==>
        m.referenciaBiblica == doc.referenciaBiblica.value)
      && (doc.referenciaBiblica.None? || doc.referenciaBiblica.value == "" ==>
        m.referenciaBiblica == if extract(texto).Some? then extract(texto).value.reference else "")
  {
  }

  /** A stored reference makes the shown reference and commentary independent
      of what the pattern would find. */
  lemma StoredReferenceIgnoresExtraction(doc: ManaDoc, e1: string -> Option<Extraction>,
                                         e2: string -> Option<Extraction>)
    requires doc.referenciaBiblica.Some? && doc.referenciaBiblica.value != ""
    ensures ResolveMana(doc, e1).referenciaBiblica == ResolveMana(doc, e2).referenciaBiblica
    ensures ResolveMana(doc, e1).comentario == ResolveMana(doc, e2).comentario
  {
  }

  /** `snapshot` is the answer to `where("data", "==", hoje)`: stored entries
      of that day, and all of them. */
  predicate QueryAnswers(entries: map<string, ManaDoc>, hoje: string, snapshot: seq<ManaDoc>)
  {
    (forall i :: 0 <= i < |snapshot| ==> snapshot[i] in entries.Values && snapshot[i].data == hoje)
    && forall k :: k in entries && entries[k].data == hoje ==> entries[k] in snapshot
  }

  predicate HasEntryFor(entries: map<string, ManaDoc>, hoje: string)
  {
    exists k :: k in entries && entries[k].data == hoje
  }

  lemma QueryEmptyIffNoEntry(entries: map<string, ManaDoc>, hoje: string, snapshot: seq<ManaDoc>)
    requires QueryAnswers(entries, hoje, snapshot)
    ensures snapshot != [] <==> HasEntryFor(entries, hoje)
  {
    if HasEntryFor(entries, hoje) {
      var k :| k in entries && entries[k].data == hoje;
      assert entries[k] in snapshot;
    }
    if snapshot != [] {
      assert snapshot[0] in entries.Values;
      var k :| k in entries && entries[k] == snapshot[0];
    }
  }

  class HomePage {
    var manaDoDia: Option<ManaDoDia>
    var loadingMana: bool

    constructor()
      ensures manaDoDia == None && loadingMana
    {
      manaDoDia := None;
      loadingMana := true;
    }

    /** `fetchManaDoDia`. `db` is `None` when Firestore is not initialised;
        `today` is `new Date()`; `snapshot` is what the query returns and
        `storeOk` whether it succeeded. */
    method FetchManaDoDia(db: Option<Firestore>, today: LocalDate, snapshot: seq<ManaDoc>,
                          storeOk: bool, extract: string -> Option<Extraction>)
      requires ValidLocalDate(today)
      requires db.Some? ==> QueryAnswers(db.value.manaDiario, GetFormattedDate(today), snapshot)
      modifies this
      ensures !loadingMana
      ensures db.None? ==> manaDoDia == old(manaDoDia)
      ensures db.Some? && storeOk && snapshot != [] ==> manaDoDia == Some(ResolveMana(snapshot[0], extract))
      ensures db.Some? && storeOk ==>
        (manaDoDia.Some? <==> HasEntryFor(db.value.manaDiario, GetFormattedDate(today)))
      ensures db.Some? && !storeOk ==> manaDoDia == None
    {
      if db.None? {
        loadingMana := false;
        return;
      }
      loadingMana := true;
      var hoje := GetFormattedDate(today);
      QueryEmptyIffNoEntry(db.value.manaDiario, hoje, snapshot);
      if storeOk && |snapshot| > 0 {
        var docData := snapshot[0];
        manaDoDia := Some(ResolveMana(docData, extract));
      } else {
        manaDoDia := None;
      }
      loadingMana := false;
    }
  }

  // ---------------------------------------------------------------------------
  // Category buttons
  // ---------------------------------------------------------------------------

  /** The category names on the buttons, in display order. */
  const Categorias: seq<string> := ["Ansiedade", "Agradecer", "Paz", "Sabedoria", "Sono", "Foco"]

  /** The route segment each button leads to. */
  const CategorySlugs: seq<string> := ["ansiedade", "agradecer", "paz", "sabedoria", "sono", "foco"]

  /** Lower-casing a capitalised word changes only its first letter. */
  lemma LowerCapitalised(s: string)
    requires |s| >= 1 && 'A' <= s[0] <= 'Z'
    requires forall k :: 1 <= k < |s| ==> !('A' <= s[k] <= 'Z')
    ensures ToLowerAscii(s) == [(s[0] as int + 32) as char] + s[1..]
  {
  }

  /** A button's route, once its name is known in lower case. */
  lemma ButtonRoute(nome: string, slug: string)
    requires |nome| >= 1 && |slug| == |nome| && slug[1..] == nome[1..]
    requires 'A' <= nome[0] <= 'Z' && (nome[0] as int + 32) as char == slug[0]
    requires forall k :: 1 <= k < |nome| ==> !('A' <= nome[k] <= 'Z')
    ensures CategoryRoute(nome) == "/meditacoes/" + slug
  {
    LowerCapitalised(nome);
    assert [slug[0]] + slug[1..] == slug;
  }

  /** Each button leads to its lower-cased name, and each of those slugs has a
      label on the saved-meditations page. */
  lemma CategoryButtonRoutes()
    ensures |CategorySlugs| == |Categorias|
    ensures forall i :: 0 <= i < |Categorias| ==>
      CategoryRoute(Categorias[i]) == "/meditacoes/" + CategorySlugs[i]
      && CategorySlugs[i] in SavedMeditations.CategoryNames
  {
    forall i | 0 <= i < |Categorias|
      ensures CategoryRoute(Categorias[i]) == "/meditacoes/" + CategorySlugs[i]
    {
      ButtonRoute(Categorias[i], CategorySlugs[i]);
    }
  }
}
