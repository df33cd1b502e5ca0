/** The "Meditações Salvas" page: the signed-in user's saved meditations,
    newest first, each labelled with a friendly category name and linked to
    its meditation page. */
module SavedMeditations {
  import opened Wrappers
  import opened Records
  import opened Favorites
  import opened Routes

  // ---------------------------------------------------------------------------
  // Newest first
  // ---------------------------------------------------------------------------

  /** Every saved meditation was saved no earlier than the ones after it. */
  predicate NewestFirstOrder(s: seq<Favorite>)
  {
    forall i, j :: 0 <= i < j < |s| ==> s[i].dataSalvo >= s[j].dataSalvo
  }

  /** Puts `x` in front of the first element saved no later than `x`. */
  function InsertNewest(x: Favorite, s: seq<Favorite>): (r: seq<Favorite>)
    ensures |r| == |s| + 1
    ensures multiset(r) == multiset(s) + multiset{x}
  {
    if s == [] then [x]
    else if s[0].dataSalvo <= x.dataSalvo then [x] + s
    else
      assert s == [s[0]] + s[1..];
      [s[0]] + InsertNewest(x, s[1..])
  }

  lemma {:induction false} InsertNewestOrdered(x: Favorite, s: seq<Favorite>)
    requires NewestFirstOrder(s)
    ensures NewestFirstOrder(InsertNewest(x, s))
    decreases |s|
  {
    if s != [] && s[0].dataSalvo > x.dataSalvo {
      var t := InsertNewest(x, s[1..]);
      InsertNewestOrdered(x, s[1..]);
      forall j | 0 <= j < |t|
        ensures s[0].dataSalvo >= t[j].dataSalvo
      {
        assert t[j] in multiset(t);
        if t[j] != x {
          assert t[j] in multiset(s[1..]);
          var m :| 0 <= m < |s[1..]| && s[1..][m] == t[j];
          assert s[m + 1] == t[j];
        }
      }
      var r := [s[0]] + t;
      forall i, j | 0 <= i < j < |r|
        ensures r[i].dataSalvo >= r[j].dataSalvo
      {
        assert r[j] == t[j - 1];
        if i > 0 { assert r[i] == t[i - 1]; }
      }
    }
  }

  /** `favoritos.sort((a, b) => dataSalvo(b) - dataSalvo(a))`: a stable sort
      putting the most recently saved meditation first. */
  function NewestFirst(s: seq<Favorite>): (r: seq<Favorite>)
    ensures |r| == |s|
    ensures multiset(r) == multiset(s)
    ensures NewestFirstOrder(r)
    decreases |s|
  {
    if s == [] then []
    else
      var t := NewestFirst(s[1..]);
      InsertNewestOrdered(s[0], t);
      assert s == [s[0]] + s[1..];
      InsertNewest(s[0], t)
  }

  /** A list already in newest-first order is left as it is, ties included:
      the sort is stable. */
  lemma {:induction false} NewestFirstKeepsOrderedList(s: seq<Favorite>)
    requires NewestFirstOrder(s)
    ensures NewestFirst(s) == s
    decreases |s|
  {
    if s != [] {
      assert NewestFirstOrder(s[1..]) by {
        forall i, j | 0 <= i < j < |s[1..]|
          ensures s[1..][i].dataSalvo >= s[1..][j].dataSalvo
        {
          assert s[1..][i] == s[i + 1] && s[1..][j] == s[j + 1];
        }
      }
      NewestFirstKeepsOrderedList(s[1..]);
      assert s[1..] == [] || s[1..][0].dataSalvo <= s[0].dataSalvo by {
        if s[1..] != [] { assert s[1..][0] == s[1]; }
      }
      assert NewestFirst(s) == InsertNewest(s[0], s[1..]) == [s[0]] + s[1..];
      assert s == [s[0]] + s[1..];
    }
  }

  /** Sorting twice gives the same list as sorting once. */
  lemma NewestFirstIdempotent(s: seq<Favorite>)
    ensures NewestFirst(NewestFirst(s)) == NewestFirst(s)
  {
    NewestFirstKeepsOrderedList(NewestFirst(s));
  }

  /** The sort shows exactly the saved meditations. */
  lemma NewestFirstMembers(s: seq<Favorite>)
    ensures forall f :: f in NewestFirst(s) <==> f in s
  {
    var r := NewestFirst(s);
    assert forall f :: f in r <==> f in multiset(r);
    assert forall f :: f in s <==> f in multiset(s);
  }

  // ---------------------------------------------------------------------------
  // Labels and links
  // ---------------------------------------------------------------------------

  /** `categoriaNomes`: category slugs and the names shown for them. */
  const CategoryNames: map<string, string> := map[
    "agradecer" := "Gratidão",
    "ansiedade" := "Ansiedade",
    "foco" := "Foco",
    "paz" := "Paz",
    "sabedoria" := "Sabedoria",
    "sono" := "Sono"]

  /** `categoriaNomes[categoria] || categoria`. */
  function CategoryLabel(categoria: string): (r: string)
    ensures categoria in CategoryNames ==> r == CategoryNames[categoria]
    ensures categoria !in CategoryNames ==> r == categoria
  {
    if categoria in CategoryNames && CategoryNames[categoria] != "" then CategoryNames[categoria]
    else categoria
  }

  /** Every known slug gets a name different from the slug itself, so a slug
      shown as is means the category is not one of the six. */
  lemma CategoryLabelTellsKnownSlugs(categoria: string)
    ensures categoria in CategoryNames <==> CategoryLabel(categoria) != categoria
  {
    if categoria in CategoryNames {
      assert categoria == "agradecer" || categoria == "ansiedade" || categoria == "foco"
        || categoria == "paz" || categoria == "sabedoria" || categoria == "sono";
    }
  }

  // ---------------------------------------------------------------------------
  // The page
  // ---------------------------------------------------------------------------

  const LoadErrorMessage := "Não foi possível carregar suas meditações salvas. Tente novamente mais tarde."

  /** What the main area shows. */
  datatype SavedView = Spinner | ErrorNotice(message: string) | SavedList(items: seq<Favorite>) | EmptyNotice

  /** The render branches, in the order the page tests them. */
  function View(carregando: bool, erro: Option<string>, favoritos: seq<Favorite>): (v: SavedView)
    ensures v.Spinner? <==> carregando
    ensures v.ErrorNotice? <==> !carregando && erro.Some? && erro.value != ""
    ensures v.SavedList? ==> v.items == favoritos && |favoritos| > 0
    ensures v.EmptyNotice? ==> favoritos == []
  {
    if carregando then Spinner
    else if erro.Some? && erro.value != "" then ErrorNotice(erro.value)
    else if |favoritos| > 0 then SavedList(favoritos)
    else EmptyNotice
  }

  /** What a load leaves in the list: the stored favourites, newest first. */
  function LoadedFavorites(users: map<string, UserDoc>, user: Option<AuthUser>, storeOk: bool): (r: seq<Favorite>)
    ensures user.Some? && storeOk && user.value.uid in users ==>
      multiset(r) == multiset(StoredFavorites(users[user.value.uid]))
    ensures NewestFirstOrder(r)
    ensures !(user.Some? && storeOk && user.value.uid in users) ==> r == []
  {
    if user.Some? && storeOk && user.value.uid in users then NewestFirst(StoredFavorites(users[user.value.uid]))
    else []
  }

  class SavedPage {
    var favoritos: seq<Favorite>
    var carregando: bool
    var erro: Option<string>

    constructor()
      ensures favoritos == [] && carregando && erro == None
    {
      favoritos := [];
      carregando := true;
      erro := None;
    }

    /** `carregarFavoritos`. Without a user only the spinner stops. Otherwise the
        favourites are read and sorted newest first. `buscarFavoritos` answers
        a failed read with an empty list instead of throwing, so the error
        message is never set. */
    method CarregarFavoritos(db: Firestore, user: Option<AuthUser>, storeOk: bool)
      modifies this
      ensures !carregando
      ensures user.None? ==> favoritos == old(favoritos) && erro == old(erro)
      ensures user.Some? ==> favoritos == LoadedFavorites(db.users, user, storeOk) && erro == None
    {
      if user.None? {
        carregando := false;
        return;
      }
      carregando := true;
      var favoritosUsuario := BuscarFavoritos(db, user.value.uid, storeOk);
      favoritos := NewestFirst(favoritosUsuario);
      erro := None;
      carregando := false;
    }
  }

  /** After a load for a signed-in user the page never shows the error notice:
      it lists the saved meditations newest first, or says there are none. */
  lemma LoadedView(users: map<string, UserDoc>, user: AuthUser, storeOk: bool)
    ensures var favs := LoadedFavorites(users, Some(user), storeOk);
      var v := View(false, None, favs);
      (v.SavedList? <==> storeOk && user.uid in users && StoredFavorites(users[user.uid]) != [])
      && (v.SavedList? ==>
            (NewestFirstOrder(v.items) && forall f :: f in v.items <==> f in StoredFavorites(users[user.uid])))
  {
    if storeOk && user.uid in users {
      NewestFirstMembers(StoredFavorites(users[user.uid]));
    }
  }
}
