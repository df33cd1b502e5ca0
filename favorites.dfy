/** The favourites helpers: a user's saved meditations live in the
    `favoritos` array of the user's document, read and rewritten whole. Each
    helper catches store errors and answers false or an empty list; `storeOk`
    says whether the store calls succeed. */
module Favorites {
  import opened Wrappers
  import opened Sorting
  import opened Records

  /** The meditation a page asks to save. */
  datatype MeditationRef = MeditationRef(id: string, titulo: string, categoria: string)

  /** `userData.favoritos || []` */
  function StoredFavorites(d: UserDoc): seq<Favorite>
  {
    d.favoritos.GetOr([])
  }

  /** `favoritos.some(fav => fav.id === id)` */
  predicate HasId(favs: seq<Favorite>, id: string)
  {
    exists k :: 0 <= k < |favs| && favs[k].id == id
  }

  /** Whether the stored document of `uid` lists meditation `id`. */
  predicate IsFavorite(users: map<string, UserDoc>, uid: string, id: string)
  {
    uid in users && HasId(StoredFavorites(users[uid]), id)
  }

  /** `arrayUnion(x)` on an array: `x` is appended unless an equal element
      (all fields equal) is already there. */
  function ArrayUnion(favs: seq<Favorite>, x: Favorite): (r: seq<Favorite>)
    ensures x in r
    ensures forall f :: f in favs ==> f in r
    ensures forall f :: f in r ==> f in favs || f == x
    ensures |r| == if x in favs then |favs| else |favs| + 1
  {
    if x in favs then favs else favs + [x]
  }

  /** `favoritos.filter(fav => fav.id !== id)` */
  function Without(favs: seq<Favorite>, id: string): (r: seq<Favorite>)
    ensures forall f :: f in r <==> f in favs && f.id != id
    ensures IsSubsequence(r, favs)
    decreases |favs|
  {
    if favs == [] then []
    else if favs[0].id != id then [favs[0]] + Without(favs[1..], id)
    else Without(favs[1..], id)
  }

  /** A favourite created at instant `now` (`novoFavorito`). */
  function NewFavorite(m: MeditationRef, now: int): Favorite
  {
    Favorite(m.id, m.titulo, m.categoria, now)
  }

  /** The document `adicionarFavorito` creates for a user who has none. */
  function CreatedDoc(fav: Favorite, now: int): (d: UserDoc)
    ensures StoredFavorites(d) == [fav] && d.role == Some("user") && d.createdAt == Some(now)
    ensures d.jornada.None? && d.notificacoes.None?
  {
    UserDoc("", Some(""), Some("user"), Some(now), Some([fav]), None, None)
  }

  /** The users collection after a successful `adicionarFavorito`. */
  function UsersAfterAdd(users: map<string, UserDoc>, uid: string, fav: Favorite, now: int)
    : (r: map<string, UserDoc>)
    ensures r.Keys == users.Keys + {uid}
    ensures forall k :: k in users && k != uid ==> r[k] == users[k]
    ensures uid in users ==>
      r[uid] == users[uid].(favoritos := Some(ArrayUnion(StoredFavorites(users[uid]), fav)))
    ensures uid !in users ==> r[uid] == CreatedDoc(fav, now)
  {
    if uid in users then
      users[uid := users[uid].(favoritos := Some(ArrayUnion(StoredFavorites(users[uid]), fav)))]
    else users[uid := CreatedDoc(fav, now)]
  }

  /** The users collection after a successful `removerFavorito` (the
      document exists). */
  function UsersAfterRemove(users: map<string, UserDoc>, uid: string, id: string): (r: map<string, UserDoc>)
    requires uid in users
    ensures r.Keys == users.Keys
    ensures forall k :: k in users && k != uid ==> r[k] == users[k]
    ensures r[uid] == users[uid].(favoritos := Some(Without(StoredFavorites(users[uid]), id)))
  {
    users[uid := users[uid].(favoritos := Some(Without(StoredFavorites(users[uid]), id)))]
  }

  /** `verificarFavorito(userId, meditacaoId)` */
  method VerificarFavorito(db: Firestore, userId: string, meditacaoId: string, storeOk: bool)
    returns (found: bool)
    ensures found <==> storeOk && IsFavorite(db.users, userId, meditacaoId)
  {
    if !storeOk {
      return false;
    }
    if userId in db.users {
      var favoritos := StoredFavorites(db.users[userId]);
      found := exists k :: 0 <= k < |favoritos| && favoritos[k].id == meditacaoId;
    } else {
      found := false;
    }
  }

  /** `buscarFavoritos(userId)`: the stored list as it is, or [] when the
      document or the field is missing or the read fails. */
  method BuscarFavoritos(db: Firestore, userId: string, storeOk: bool) returns (favs: seq<Favorite>)
    ensures storeOk && userId in db.users ==> favs == StoredFavorites(db.users[userId])
    ensures storeOk && userId in db.users && db.users[userId].favoritos.Some? ==>
      favs == db.users[userId].favoritos.value
    ensures !storeOk || userId !in db.users || db.users[userId].favoritos.None? ==> favs == []
  {
    if storeOk && userId in db.users {
      favs := db.users[userId].favoritos.GetOr([]);
    } else {
      favs := [];
    }
  }

  /** `adicionarFavorito(userId, meditacao)` at instant `now`. */
  method AdicionarFavorito(db: Firestore, userId: string, meditacao: MeditationRef, storeOk: bool, now: int)
    returns (ok: bool)
    modifies db
    ensures ok == storeOk
    ensures ok ==> db.users == UsersAfterAdd(old(db.users), userId, NewFavorite(meditacao, now), now)
    ensures !ok ==> db.users == old(db.users)
    ensures db.meditacoes == old(db.meditacoes) && db.manaDiario == old(db.manaDiario)
  {
    if !storeOk {
      return false;
    }
    var novo := Favorite(meditacao.id, meditacao.titulo, meditacao.categoria, now);
    if userId in db.users {
      var doc := db.users[userId];
      db.users := db.users[userId := doc.(favoritos := Some(ArrayUnion(doc.favoritos.GetOr([]), novo)))];
    } else {
      db.users := db.users[userId := UserDoc("", Some(""), Some("user"), Some(now), Some([novo]), None, None)];
    }
    ok := true;
  }

  /** `removerFavorito(userId, meditacaoId)` */
  method RemoverFavorito(db: Firestore, userId: string, meditacaoId: string, storeOk: bool)
    returns (ok: bool)
    modifies db
    ensures ok <==> storeOk && userId in old(db.users)
    ensures ok ==> db.users == UsersAfterRemove(old(db.users), userId, meditacaoId)
    ensures !ok ==> db.users == old(db.users)
    ensures db.meditacoes == old(db.meditacoes) && db.manaDiario == old(db.manaDiario)
  {
    if !storeOk || userId !in db.users {
      return false;
    }
    var doc := db.users[userId];
    var novos := Without(doc.favoritos.GetOr([]), meditacaoId);
    db.users := db.users[userId := doc.(favoritos := Some(novos))];
    ok := true;
  }

  // ---------------------------------------------------------------------------
  // Properties relating the helpers
  // ---------------------------------------------------------------------------

  /** After adding a meditation it is a favourite, and every favourite the
      user had is still there. */
  lemma AddThenVerify(users: map<string, UserDoc>, uid: string, m: MeditationRef, now: int)
    ensures IsFavorite(UsersAfterAdd(users, uid, NewFavorite(m, now), now), uid, m.id)
    ensures uid in users ==> forall f :: f in StoredFavorites(users[uid]) ==>
      f in StoredFavorites(UsersAfterAdd(users, uid, NewFavorite(m, now), now)[uid])
    ensures forall id :: IsFavorite(users, uid, id) ==> IsFavorite(UsersAfterAdd(users, uid, NewFavorite(m, now), now), uid, id)
  {
    var fav := NewFavorite(m, now);
    var r := UsersAfterAdd(users, uid, fav, now);
    var favs := StoredFavorites(r[uid]);
    assert fav in favs;
    var k :| 0 <= k < |favs| && favs[k] == fav;
    forall id | IsFavorite(users, uid, id)
      ensures IsFavorite(r, uid, id)
    {
      var old_favs := StoredFavorites(users[uid]);
      var j :| 0 <= j < |old_favs| && old_favs[j].id == id;
      assert old_favs[j] in favs;
      var q :| 0 <= q < |favs| && favs[q] == old_favs[j];
    }
  }

  /** Nothing checks ids: saving the same meditation again at another
      instant leaves two entries with its id. */
  lemma SecondAddDuplicatesId()
    ensures var users := map["u" := CreatedDoc(Favorite("paz001", "Encontrando a Paz Interior", "paz", 1), 1)];
      var r := UsersAfterAdd(users, "u", Favorite("paz001", "Encontrando a Paz Interior", "paz", 2), 2);
      StoredFavorites(r["u"]) == [Favorite("paz001", "Encontrando a Paz Interior", "paz", 1),
                                  Favorite("paz001", "Encontrando a Paz Interior", "paz", 2)]
  {
  }

  /** After removing, the meditation is no longer a favourite, and every
      other favourite is kept in its order. */
  lemma RemoveThenVerify(users: map<string, UserDoc>, uid: string, id: string)
    requires uid in users
    ensures !IsFavorite(UsersAfterRemove(users, uid, id), uid, id)
    ensures var favs := StoredFavorites(users[uid]);
      var r := StoredFavorites(UsersAfterRemove(users, uid, id)[uid]);
      IsSubsequence(r, favs) && forall f :: f in favs && f.id != id ==> f in r
  {
  }

  lemma {:induction false} WithoutIdempotent(favs: seq<Favorite>, id: string)
    ensures Without(Without(favs, id), id) == Without(favs, id)
    decreases |favs|
  {
    if favs != [] {
      WithoutIdempotent(favs[1..], id);
      if favs[0].id != id {
        assert ([favs[0]] + Without(favs[1..], id))[1..] == Without(favs[1..], id);
      }
    }
  }

  /** A second removal of the same id writes the same list again. */
  lemma RemoveIdempotent(users: map<string, UserDoc>, uid: string, id: string)
    requires uid in users
    ensures UsersAfterRemove(UsersAfterRemove(users, uid, id), uid, id) == UsersAfterRemove(users, uid, id)
  {
    WithoutIdempotent(StoredFavorites(users[uid]), id);
  }
}
