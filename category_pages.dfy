/** The four category pages (ansiedade, sono, foco, paz). They differ only in
    their constants: each starts with a built-in list of four meditations and
    replaces it with the stored meditations of its category when there are
    any. */
module CategoryPages {
  import opened Wrappers
  import opened Records
  import opened Sorting
  import opened Routes

  datatype Category = Ansiedade | Sono | Foco | Paz

  /** The lower-case category used in the links. */
  function Slug(c: Category): string
  {
    match c
    case Ansiedade => "ansiedade"
    case Sono => "sono"
    case Foco => "foco"
    case Paz => "paz"
  }

  /** The `categoria` value the page queries for. */
  function QueryValue(c: Category): string
  {
    match c
    case Ansiedade => "Ansiedade"
    case Sono => "Sono"
    case Foco => "Foco"
    case Paz => "Paz"
  }

  /** A listed meditation (`Meditacao`). */
  datatype Item = Item(id: string, titulo: string, descricao: Option<string>, texto: Option<string>, categoria: string)

  /** The title of the `i`-th built-in meditation, counting from 0. */
  function StaticTitle(c: Category, i: nat): string
    requires i < 4
  {
    match c
    case Ansiedade =>
      if i == 0 then "Respiração Consciente para Acalmar"
      else if i == 1 then "Liberando a Tensão Corporal"
      else if i == 2 then "Visualização de um Lugar Seguro"
      else "Aceitando o Momento Presente"
    case Sono =>
      if i == 0 then "Relaxamento Profundo para Dormir"
      else if i == 1 then "Contagem Regressiva para o Sono"
      else if i == 2 then "Visualização para um Sono Tranquilo"
      else "Sons da Natureza para Dormir"
    case Foco =>
      if i == 0 then "Meditação para Aumentar o Foco"
      else if i == 1 then "Atenção Plena no Trabalho ou Estudos"
      else if i == 2 then "Eliminando Distrações Mentais"
      else "Foco na Respiração para Concentração"
    case Paz =>
      if i == 0 then "Encontrando a Paz Interior"
      else if i == 1 then "Meditação da Montanha"
      else if i == 2 then "Soltando Preocupações e Medos"
      else "O Som do Silêncio"
  }

  /** The description of the `i`-th built-in meditation. */
  function StaticDescription(c: Category, i: nat): string
    requires i < 4
  {
    match c
    case Ansiedade =>
      if i == 0 then "Uma prática guiada para focar na sua respiração e encontrar calma."
      else if i == 1 then "Solte as tensões acumuladas no corpo e relaxe profundamente."
      else if i == 2 then "Crie um refúgio mental para momentos de ansiedade."
      else "Aprenda a acolher suas emoções sem julgamento."
    case Sono =>
      if i == 0 then "Prepare seu corpo e mente para uma noite de sono restauradora."
      else if i == 1 then "Uma técnica simples para acalmar a mente antes de dormir."
      else if i == 2 then "Imagine um ambiente sereno e adormeça pacificamente."
      else "Deixe-se levar por sons relaxantes e adormeça com mais facilidade."
    case Foco =>
      if i == 0 then "Treine sua mente para manter a concentração e a clareza."
      else if i == 1 then "Melhore sua produtividade e presença em suas tarefas."
      else if i == 2 then "Aprenda a lidar com pensamentos que desviam seu foco."
      else "Utilize a respiração como âncora para sua atenção."
    case Paz =>
      if i == 0 then "Uma jornada guiada para acalmar a mente e encontrar serenidade."
      else if i == 1 then "Sinta a estabilidade e a tranquilidade de uma montanha."
      else if i == 2 then "Libere os pensamentos que perturbam sua paz."
      else "Conecte-se com a quietude interna e a paz que ela traz."
  }

  /** The id of the `i`-th built-in meditation, counting from 0: "ansiedade001"… */
  function StaticId(c: Category, i: nat): string
    requires i < 4
  {
    Slug(c) + "00" + [(('1' as int) + i) as char]
  }

  /** The built-in list each page starts with. */
  function StaticList(c: Category): (r: seq<Item>)
    ensures |r| == 4
    ensures forall i :: 0 <= i < 4 ==>
      r[i] == Item(StaticId(c, i), StaticTitle(c, i), Some(StaticDescription(c, i)), None, Slug(c))
  {
    seq(4, i requires 0 <= i < 4 =>
      Item(StaticId(c, i), StaticTitle(c, i), Some(StaticDescription(c, i)), None, Slug(c)))
  }

  /** The built-in ids are distinct and start with the page's category. */
  lemma StaticIdsDistinct(c: Category)
    ensures forall i, j :: 0 <= i < j < 4 ==> StaticId(c, i) != StaticId(c, j)
    ensures forall i :: 0 <= i < 4 ==> StaticId(c, i)[..|Slug(c)|] == Slug(c)
  {
    forall i, j | 0 <= i < j < 4
      ensures StaticId(c, i) != StaticId(c, j)
    {
      var a := StaticId(c, i);
      var b := StaticId(c, j);
      assert a[|a| - 1] == (('1' as int) + i) as char;
      assert b[|b| - 1] == (('1' as int) + j) as char;
    }
  }

  // ---------------------------------------------------------------------------
  // Descriptions
  // ---------------------------------------------------------------------------

  const NoDescription := "Sem descrição disponível"
  const LocalDataMessage := "Não foi possível carregar as meditações. Usando dados locais."

  /** `s.substring(0, n)`. */
  function Prefix(s: string, n: nat): (r: string)
    ensures |r| == if |s| < n then |s| else n
    ensures r == s[..|r|]
  {
    if |s| < n then s else s[..n]
  }

  /** `data.texto?.substring(0, 100) + "..." || "Sem descrição disponível"` as
      it evaluates: a missing text becomes the string "undefined" before the
      concatenation, and the concatenation is never empty. */
  function DescriptionAsWritten(texto: Option<string>): (r: string)
    ensures texto.Some? ==> r == Prefix(texto.value, 100) + "..."
    ensures texto.None? ==> r == "undefined..."
  {
    var head := if texto.Some? then Prefix(texto.value, 100) else "undefined";
    var joined := head + "...";
    if joined != "" then joined else NoDescription
  }

  /** The fallback text is never chosen, and a meditation without a text is
      described as "undefined...". */
  lemma DescriptionFallbackUnreachable(texto: Option<string>)
    ensures DescriptionAsWritten(texto) != NoDescription
    ensures texto.None? ==> DescriptionAsWritten(texto) == "undefined..."
  {
    var d := DescriptionAsWritten(texto);
    assert d[|d| - 3..] == "...";
    assert NoDescription[|NoDescription| - 3..] == "vel";
  }

  /** The description meant: the first 100 characters of the text and an
      ellipsis, or the fallback when there is no text. */
  function Description(texto: Option<string>): (r: string)
    ensures texto.None? || texto.value == "" ==> r == NoDescription
    ensures texto.Some? && texto.value != "" ==>
      r == Prefix(texto.value, 100) + "..." && |r| <= 103 && r != NoDescription
  {
    if texto.Some? && texto.value != "" then
      var d := Prefix(texto.value, 100) + "...";
      assert d[|d| - 3..] == "...";
      assert NoDescription[|NoDescription| - 3..] == "vel";
      d
    else NoDescription
  }

  /** The two agree exactly on meditations that have a text. */
  lemma DescriptionAgreesWhenTextPresent(texto: Option<string>)
    ensures DescriptionAsWritten(texto) == Description(texto) <==> texto.Some? && texto.value != ""
  {
    DescriptionFallbackUnreachable(texto);
    if texto.Some? && texto.value == "" {
      assert DescriptionAsWritten(texto) == "...";
    }
  }

  // ---------------------------------------------------------------------------
  // The page
  // ---------------------------------------------------------------------------

  /** The list the page builds from the query result, with the description
      as line 72 evaluates it. */
  function ItemsOf(c: Category, snapshot: seq<(string, MeditationDoc)>): (r: seq<Item>)
    ensures |r| == |snapshot|
    ensures forall i :: 0 <= i < |r| ==>
      r[i].id == snapshot[i].0 && r[i].titulo == snapshot[i].1.titulo && r[i].categoria == Slug(c)
      && r[i].texto == snapshot[i].1.texto && r[i].descricao == Some(DescriptionAsWritten(snapshot[i].1.texto))
  {
    seq(|snapshot|, i requires 0 <= i < |snapshot| =>
      Item(snapshot[i].0, snapshot[i].1.titulo, Some(DescriptionAsWritten(snapshot[i].1.texto)), snapshot[i].1.texto, Slug(c)))
  }

  /** The list as meant: the same items, described with `Description`. */
  function ItemsOfCorrected(c: Category, snapshot: seq<(string, MeditationDoc)>): (r: seq<Item>)
    ensures |r| == |snapshot|
    ensures forall i :: 0 <= i < |r| ==> r[i] == ItemsOf(c, snapshot)[i].(descricao := Some(Description(snapshot[i].1.texto)))
  {
    seq(|snapshot|, i requires 0 <= i < |snapshot| =>
      Item(snapshot[i].0, snapshot[i].1.titulo, Some(Description(snapshot[i].1.texto)), snapshot[i].1.texto, Slug(c)))
  }

  /** On the page as written a fetched meditation without a text reads
      "undefined...", and one with an empty text reads "..."; the corrected
      list shows the fallback for both, and the two lists agree on every
      meditation that has a text. */
  lemma FetchedDescriptions(c: Category, snapshot: seq<(string, MeditationDoc)>, i: int)
    requires 0 <= i < |snapshot|
    ensures snapshot[i].1.texto.None? ==> ItemsOf(c, snapshot)[i].descricao == Some("undefined...")
    ensures snapshot[i].1.texto == Some("") ==> ItemsOf(c, snapshot)[i].descricao == Some("...")
    ensures snapshot[i].1.texto.None? || snapshot[i].1.texto == Some("") ==>
      ItemsOfCorrected(c, snapshot)[i].descricao == Some(NoDescription)
    ensures ItemsOf(c, snapshot)[i] == ItemsOfCorrected(c, snapshot)[i] <==>
      snapshot[i].1.texto.Some? && snapshot[i].1.texto.value != ""
  {
    DescriptionAgreesWhenTextPresent(snapshot[i].1.texto);
    if snapshot[i].1.texto == Some("") {
      assert Prefix("", 100) == "";
      assert DescriptionAsWritten(snapshot[i].1.texto) == "...";
      assert ItemsOf(c, snapshot)[i].descricao == Some(DescriptionAsWritten(snapshot[i].1.texto));
    }
  }

  function TitleOf(e: (string, MeditationDoc)): string { e.1.titulo }

  /** `snapshot` answers `where("categoria", "==", value)` with `orderBy("titulo")`:
      the stored meditations of that category, each once, by title. */
  predicate QueryAnswers(entries: map<string, MeditationDoc>, value: string, snapshot: seq<(string, MeditationDoc)>)
  {
    (forall i :: 0 <= i < |snapshot| ==>
      snapshot[i].0 in entries && entries[snapshot[i].0] == snapshot[i].1 && snapshot[i].1.categoria == value)
    && (forall i, j :: 0 <= i < j < |snapshot| ==> snapshot[i].0 != snapshot[j].0)
    && (forall k :: k in entries && entries[k].categoria == value ==>
          exists i :: 0 <= i < |snapshot| && snapshot[i].0 == k)
    && SortedBy(snapshot, TitleOf)
  }

  /** Every fetched item links into its page's category. */
  lemma FetchedLinksStayInCategory(c: Category, snapshot: seq<(string, MeditationDoc)>, i: int)
    requires 0 <= i < |snapshot| && '/' !in snapshot[i].0
    ensures Segments(MeditationLink(ItemsOf(c, snapshot)[i].categoria, ItemsOf(c, snapshot)[i].id)) == ["", "meditacoes", Slug(c), snapshot[i].0]
  {
    var s := Slug(c);
    assert '/' !in s by {
      match c
      case Ansiedade => assert s == "ansiedade";
      case Sono => assert s == "sono";
      case Foco => assert s == "foco";
      case Paz => assert s == "paz";
    }
  }

  /** What the list area shows. */
  datatype ListView = EmptyNotice | Items(items: seq<Item>)

  function View(loading: bool, meditacoes: seq<Item>): (v: ListView)
    ensures v.EmptyNotice? <==> !loading && meditacoes == []
  {
    if !loading && meditacoes == [] then EmptyNotice else Items(meditacoes)
  }

  class CategoryPage {
    const categoria: Category
    var meditacoes: seq<Item>
    var loading: bool
    var error: Option<string>

    /** The list is never empty. */
    predicate Valid()
      reads this
    {
      meditacoes != []
    }

    constructor(c: Category)
      ensures categoria == c && meditacoes == StaticList(c) && loading && error == None
      ensures Valid()
    {
      categoria := c;
      meditacoes := StaticList(c);
      loading := true;
      error := None;
    }

    /** `fetchMeditacoes`. `dbAvailable` is false when Firestore is not
        initialised; `snapshot` is the query's answer and `storeOk` whether
        the read succeeded. */
    method FetchMeditacoes(dbAvailable: bool, db: Firestore, snapshot: seq<(string, MeditationDoc)>, storeOk: bool)
      requires Valid()
      requires dbAvailable && storeOk ==> QueryAnswers(db.meditacoes, QueryValue(categoria), snapshot)
      modifies this
      ensures Valid()
      ensures !dbAvailable ==> meditacoes == old(meditacoes) && loading == old(loading) && error == old(error)
      ensures dbAvailable ==> !loading
      ensures dbAvailable && storeOk && snapshot != [] ==>
        meditacoes == ItemsOf(categoria, snapshot) && error == old(error)
      ensures dbAvailable && storeOk && snapshot == [] ==> meditacoes == old(meditacoes) && error == old(error)
      ensures dbAvailable && !storeOk ==> meditacoes == old(meditacoes) && error == Some(LocalDataMessage)
    {
      if !dbAvailable {
        return;
      }
      if storeOk {
        if |snapshot| > 0 {
          meditacoes := ItemsOf(categoria, snapshot);
        }
      } else {
        error := Some(LocalDataMessage);
      }
      loading := false;
    }

    /** The "no meditation found" notice never shows. */
    lemma NeverShowsEmptyNotice()
      requires Valid()
      ensures View(loading, meditacoes).Items?
    {
    }
  }

  /** A fetched list is in title order and holds every stored meditation of the
      category exactly once: none is lost, none comes from another category. */
  lemma FetchedListIsTheCategory(c: Category, entries: map<string, MeditationDoc>,
                                 snapshot: seq<(string, MeditationDoc)>)
    requires QueryAnswers(entries, QueryValue(c), snapshot)
    ensures var r := ItemsOf(c, snapshot);
      (forall i, j :: 0 <= i < j < |r| ==> Text.LexLe(r[i].titulo, r[j].titulo))
      && (forall k :: k in entries && entries[k].categoria == QueryValue(c) ==>
            exists i :: 0 <= i < |r| && r[i].id == k && r[i].titulo == entries[k].titulo)
      && (forall i :: 0 <= i < |r| ==>
            r[i].id in entries && entries[r[i].id].categoria == QueryValue(c)
            && entries[r[i].id].titulo == r[i].titulo)
      && (forall i, j :: 0 <= i < j < |r| ==> r[i].id != r[j].id)
  {
    var r := ItemsOf(c, snapshot);
    forall i, j | 0 <= i < j < |r|
      ensures Text.LexLe(r[i].titulo, r[j].titulo)
    {
      assert Text.LexLe(TitleOf(snapshot[i]), TitleOf(snapshot[j]));
    }
    forall k | k in entries && entries[k].categoria == QueryValue(c)
      ensures exists i :: 0 <= i < |r| && r[i].id == k && r[i].titulo == entries[k].titulo
    {
      var i :| 0 <= i < |snapshot| && snapshot[i].0 == k;
      assert r[i].id == k && r[i].titulo == entries[k].titulo;
    }
  }
}
