/** The admin page for meditations: a form that adds a meditation or, in
    edit mode, updates one, the list of stored meditations, and deletion. */
module AdminMeditations {
  import opened Wrappers
  import opened Records
  import opened Sorting

  /** `CATEGORIAS_MEDITACAO`, the options of the category select. */
  const Categorias: seq<string> := ["Ansiedade", "Gratidão", "Foco", "Paz", "Sono", "Sabedoria"]

  const RequiredMessage := "Todos os campos são obrigatórios."
  const UpdatedMessage := "Meditação atualizada com sucesso!"
  const AddedMessage := "Nova meditação adicionada com sucesso!"
  const SaveFailedMessage := "Falha ao salvar a meditação."
  const DeletedMessage := "Meditação excluída com sucesso!"
  const DeleteFailedMessage := "Falha ao excluir a meditação."
  const LoadFailedMessage := "Falha ao carregar as meditações."

  /** The four form fields. */
  datatype MeditationForm = MeditationForm(titulo: string, categoria: string, urlAudio: string, texto: string)

  /** The form in add mode: empty fields and the first category. */
  const EmptyForm := MeditationForm("", Categorias[0], "", "")

  /** The select offers six distinct categories, the empty form shows the first. */
  lemma CategoriasAreSix()
    ensures |Categorias| == 6 && Distinct(Categorias)
    ensures EmptyForm.categoria == "Ansiedade" && EmptyForm.categoria in Categorias
  {
  }

  /** A required field is empty. */
  predicate MissingField(f: MeditationForm)
  {
    f.titulo == "" || f.categoria == "" || f.urlAudio == "" || f.texto == ""
  }

  /** The form `handleEdit` fills from a stored meditation; a missing text
      shows as empty. */
  function FormOf(d: MeditationDoc): (f: MeditationForm)
    ensures f.titulo == d.titulo && f.categoria == d.categoria && f.urlAudio == d.urlAudio
    ensures d.texto.Some? ==> f.texto == d.texto.value
    ensures d.texto.None? ==> MissingField(f)
  {
    MeditationForm(d.titulo, d.categoria, d.urlAudio, d.texto.GetOr(""))
  }

  /** `updateDoc` with the four fields: the entry keeps its `createdAt`, no
      other entry changes. */
  function Updated(m: map<string, MeditationDoc>, id: string, f: MeditationForm): (r: map<string, MeditationDoc>)
    requires id in m
    ensures r.Keys == m.Keys
    ensures forall k :: k in m && k != id ==> r[k] == m[k]
    ensures FormOf(r[id]) == f && r[id].texto.Some?
    ensures r[id].createdAt == m[id].createdAt
  {
    m[id := m[id].(titulo := f.titulo, categoria := f.categoria, urlAudio := f.urlAudio, texto := Some(f.texto))]
  }

  /** `addDoc` under a fresh id, stamped with `createdAt`. */
  function Added(m: map<string, MeditationDoc>, newId: string, f: MeditationForm, now: int): (r: map<string, MeditationDoc>)
    requires newId !in m
    ensures r.Keys == m.Keys + {newId} && |r| == |m| + 1
    ensures forall k :: k in m ==> r[k] == m[k]
    ensures FormOf(r[newId]) == f && r[newId].createdAt == Some(now)
  {
    m[newId := MeditationDoc(f.titulo, f.categoria, f.urlAudio, Some(f.texto), Some(now))]
  }

  /** Saving an edit without changing any field writes the entry back as it was. */
  lemma EditUnchangedIsIdentity(m: map<string, MeditationDoc>, id: string)
    requires id in m && m[id].texto.Some?
    ensures Updated(m, id, FormOf(m[id])) == m
  {
    var r := Updated(m, id, FormOf(m[id]));
    assert r[id] == m[id];
  }

  /** Deleting twice is deleting once. */
  lemma DeleteIdempotent(m: map<string, MeditationDoc>, id: string)
    ensures Deleted(Deleted(m, id), id) == Deleted(m, id)
  {
  }

  /** Adding then deleting the new entry restores the collection. */
  lemma AddThenDelete(m: map<string, MeditationDoc>, newId: string, f: MeditationForm, now: int)
    requires newId !in m
    ensures Deleted(Added(m, newId, f, now), newId) == m
  {
  }

  /** A submit writes when the store accepts it and an edited entry still exists. */
  predicate SubmitSucceeds(e: Option<(string, MeditationDoc)>, m: map<string, MeditationDoc>, storeOk: bool)
  {
    storeOk && (EditTarget(e).Some? ==> EditTarget(e).value in m)
  }

  class AdminMeditationsPage {
    var meditacoes: seq<(string, MeditationDoc)>
    var form: MeditationForm
    var loading: bool
    var error: Option<string>
    var successMessage: Option<string>
    var editingEntry: Option<(string, MeditationDoc)>

    constructor()
      ensures meditacoes == [] && form == EmptyForm && !loading
      ensures error == None && successMessage == None && editingEntry == None
    {
      meditacoes := [];
      form := EmptyForm;
      loading := false;
      error := None;
      successMessage := None;
      editingEntry := None;
    }

    /** Typing into the inputs. */
    method SetForm(f: MeditationForm)
      modifies this
      ensures form == f
      ensures meditacoes == old(meditacoes) && loading == old(loading) && error == old(error)
      ensures successMessage == old(successMessage) && editingEntry == old(editingEntry)
    {
      form := f;
    }

    /** `fetchMeditacoes`: `snapshot` is the whole collection, in the order the
        query returns it. A failed read keeps the old list. */
    method FetchMeditacoes(db: Firestore, snapshot: seq<(string, MeditationDoc)>, storeOk: bool)
      requires storeOk ==> ListingOf(db.meditacoes, snapshot)
      modifies this
      ensures !loading
      ensures storeOk ==> meditacoes == snapshot && error == old(error)
      ensures !storeOk ==> meditacoes == old(meditacoes) && error == Some(LoadFailedMessage)
      ensures form == old(form) && successMessage == old(successMessage) && editingEntry == old(editingEntry)
    {
      loading := true;
      if storeOk {
        meditacoes := snapshot;
      } else {
        error := Some(LoadFailedMessage);
      }
      loading := false;
    }

    /** `handleSubmit`. `newId` is the id `addDoc` would generate and `now`
        the client instant; `storeOk` whether the write succeeds. Updating an
        entry that no longer exists fails as a write error does. */
    method HandleSubmit(db: Firestore, newId: string, now: int, storeOk: bool)
      requires newId !in db.meditacoes
      modifies this, db
      ensures MissingField(old(form)) ==>
        error == Some(RequiredMessage) && form == old(form) && editingEntry == old(editingEntry)
        && loading == old(loading) && successMessage == old(successMessage)
        && db.meditacoes == old(db.meditacoes)
      ensures !MissingField(old(form)) ==> !loading
      ensures !MissingField(old(form)) && SubmitSucceeds(old(editingEntry), old(db.meditacoes), storeOk) ==>
        form == EmptyForm && editingEntry == None && error == None
      ensures (!MissingField(old(form)) && SubmitSucceeds(old(editingEntry), old(db.meditacoes), storeOk)
        && EditTarget(old(editingEntry)).Some?) ==>
        db.meditacoes == Updated(old(db.meditacoes), EditTarget(old(editingEntry)).value, old(form))
        && successMessage == Some(UpdatedMessage)
      ensures (!MissingField(old(form)) && SubmitSucceeds(old(editingEntry), old(db.meditacoes), storeOk)
        && EditTarget(old(editingEntry)).None?) ==>
        db.meditacoes == Added(old(db.meditacoes), newId, old(form), now) && successMessage == Some(AddedMessage)
      ensures !MissingField(old(form)) && !SubmitSucceeds(old(editingEntry), old(db.meditacoes), storeOk) ==>
        db.meditacoes == old(db.meditacoes) && form == old(form) && editingEntry == old(editingEntry)
        && error == Some(SaveFailedMessage) && successMessage == None
      ensures meditacoes == old(meditacoes)
      ensures db.users == old(db.users) && db.manaDiario == old(db.manaDiario)
    {
      if MissingField(form) {
        error := Some(RequiredMessage);
        return;
      }
      Write(db, newId, now, storeOk);
    }

    /** The part of `handleSubmit` after the required-fields check. */
    method Write(db: Firestore, newId: string, now: int, storeOk: bool)
      requires newId !in db.meditacoes
      modifies this, db
      ensures !loading
      ensures SubmitSucceeds(old(editingEntry), old(db.meditacoes), storeOk) ==>
        form == EmptyForm && editingEntry == None && error == None
      ensures SubmitSucceeds(old(editingEntry), old(db.meditacoes), storeOk) && EditTarget(old(editingEntry)).Some? ==>
        db.meditacoes == Updated(old(db.meditacoes), EditTarget(old(editingEntry)).value, old(form))
        && successMessage == Some(UpdatedMessage)
      ensures SubmitSucceeds(old(editingEntry), old(db.meditacoes), storeOk) && EditTarget(old(editingEntry)).None? ==>
        db.meditacoes == Added(old(db.meditacoes), newId, old(form), now) && successMessage == Some(AddedMessage)
      ensures !SubmitSucceeds(old(editingEntry), old(db.meditacoes), storeOk) ==>
        db.meditacoes == old(db.meditacoes) && form == old(form) && editingEntry == old(editingEntry)
        && error == Some(SaveFailedMessage) && successMessage == None
      ensures meditacoes == old(meditacoes)
      ensures db.users == old(db.users) && db.manaDiario == old(db.manaDiario)
    {
      loading := true;
      error := None;
      successMessage := None;
      if SubmitSucceeds(editingEntry, db.meditacoes, storeOk) {
        var target := EditTarget(editingEntry);
        if target.Some? {
          db.meditacoes := Updated(db.meditacoes, target.value, form);
          successMessage := Some(UpdatedMessage);
        } else {
          db.meditacoes := Added(db.meditacoes, newId, form, now);
          successMessage := Some(AddedMessage);
        }
        form := EmptyForm;
        editingEntry := None;
      } else {
        error := Some(SaveFailedMessage);
      }
      loading := false;
    }

    /** `handleDelete`. `confirmed` is the answer to the confirmation dialog. */
    method HandleDelete(db: Firestore, id: string, confirmed: bool, storeOk: bool)
      modifies this, db
      ensures !confirmed ==>
        db.meditacoes == old(db.meditacoes) && loading == old(loading)
        && error == old(error) && successMessage == old(successMessage)
      ensures confirmed ==> !loading
      ensures confirmed && storeOk ==>
        db.meditacoes == Deleted(old(db.meditacoes), id)
        && successMessage == Some(DeletedMessage) && error == old(error)
      ensures confirmed && !storeOk ==>
        db.meditacoes == old(db.meditacoes)
        && error == Some(DeleteFailedMessage) && successMessage == old(successMessage)
      ensures meditacoes == old(meditacoes) && form == old(form) && editingEntry == old(editingEntry)
      ensures db.users == old(db.users) && db.manaDiario == old(db.manaDiario)
    {
      if !confirmed {
        return;
      }
      loading := true;
      if storeOk {
        db.meditacoes := Deleted(db.meditacoes, id);
        successMessage := Some(DeletedMessage);
      } else {
        error := Some(DeleteFailedMessage);
      }
      loading := false;
    }

    /** `handleEdit`: the form shows the entry and the page is in edit mode. */
    method HandleEdit(entry: (string, MeditationDoc))
      modifies this
      ensures editingEntry == Some(entry) && form == FormOf(entry.1)
      ensures error == None && successMessage == None
      ensures meditacoes == old(meditacoes) && loading == old(loading)
    {
      editingEntry := Some(entry);
      form := FormOf(entry.1);
      error := None;
      successMessage := None;
    }

    /** The cancel button of edit mode: back to the empty add form. */
    method Cancel()
      modifies this
      ensures editingEntry == None && form == EmptyForm
      ensures error == None && successMessage == None
      ensures meditacoes == old(meditacoes) && loading == old(loading)
    {
      editingEntry := None;
      form := EmptyForm;
      error := None;
      successMessage := None;
    }
  }

  /** Editing a listed meditation and saving it unchanged leaves the collection
      as it was, when the stored entry has a text. */
  method EditAndSaveUnchanged(db: Firestore, page: AdminMeditationsPage, id: string, newId: string, now: int)
    requires id in db.meditacoes && id != "" && newId !in db.meditacoes
    requires db.meditacoes[id].texto.Some? && !MissingField(FormOf(db.meditacoes[id]))
    modifies page, db
    ensures db.meditacoes == old(db.meditacoes)
    ensures page.editingEntry == None && page.form == EmptyForm
    ensures page.successMessage == Some(UpdatedMessage)
  {
    page.HandleEdit((id, db.meditacoes[id]));
    page.HandleSubmit(db, newId, now, true);
    EditUnchangedIsIdentity(old(db.meditacoes), id);
  }
}
