/** The admin page for daily manna entries: a form that adds an entry or, in
    edit mode, updates one, the list of entries newest date first, and
    deletion. */
module AdminMana {
  import opened Wrappers
  import opened Text
  import opened Records

  const RequiredMessage := "Todos os campos são obrigatórios."
  const UpdatedMessage := "Entrada do Maná Diário atualizada com sucesso!"
  const AddedMessage := "Nova entrada do Maná Diário adicionada com sucesso!"
  const SaveFailedMessage := "Falha ao salvar a entrada do Maná Diário."
  const DeletedMessage := "Entrada excluída com sucesso!"
  const DeleteFailedMessage := "Falha ao excluir a entrada."
  const LoadFailedMessage := "Falha ao carregar as entradas do Maná Diário."

  /** The three form fields; `data` is a YYYY-MM-DD day. */
  datatype ManaForm = ManaForm(data: string, textoBiblico: string, comentario: string)

  const EmptyForm := ManaForm("", "", "")

  predicate MissingField(f: ManaForm)
  {
    f.data == "" || f.textoBiblico == "" || f.comentario == ""
  }

  /** The form `handleEdit` fills from a stored entry; a missing text shows as empty. */
  function FormOf(d: ManaDoc): (f: ManaForm)
    ensures f.data == d.data
    ensures d.textoBiblico.Some? ==> f.textoBiblico == d.textoBiblico.value
    ensures d.comentario.Some? ==> f.comentario == d.comentario.value
    ensures d.textoBiblico.None? || d.comentario.None? ==> MissingField(f)
  {
    ManaForm(d.data, d.textoBiblico.GetOr(""), d.comentario.GetOr(""))
  }

  /** `updateDoc` with the three fields: `createdAt` and the stored reference
      stay as they were, no other entry changes. */
  function Updated(m: map<string, ManaDoc>, id: string, f: ManaForm): (r: map<string, ManaDoc>)
    requires id in m
    ensures r.Keys == m.Keys
    ensures forall k :: k in m && k != id ==> r[k] == m[k]
    ensures FormOf(r[id]) == f && r[id].textoBiblico.Some? && r[id].comentario.Some?
    ensures r[id].createdAt == m[id].createdAt && r[id].referenciaBiblica == m[id].referenciaBiblica
  {
    m[id := m[id].(data := f.data, textoBiblico := Some(f.textoBiblico), comentario := Some(f.comentario))]
  }

  /** `addDoc` under a fresh id, stamped with `createdAt`, without a reference field. */
  function Added(m: map<string, ManaDoc>, newId: string, f: ManaForm, now: int): (r: map<string, ManaDoc>)
    requires newId !in m
    ensures r.Keys == m.Keys + {newId} && |r| == |m| + 1
    ensures forall k :: k in m ==> r[k] == m[k]
    ensures FormOf(r[newId]) == f && r[newId].createdAt == Some(now) && r[newId].referenciaBiblica.None?
  {
    m[newId := ManaDoc(f.data, Some(f.textoBiblico), Some(f.comentario), None, Some(now))]
  }

  /** Saving an edit without changing any field writes the entry back as it was. */
  lemma EditUnchangedIsIdentity(m: map<string, ManaDoc>, id: string)
    requires id in m && m[id].textoBiblico.Some? && m[id].comentario.Some?
    ensures Updated(m, id, FormOf(m[id])) == m
  {
    var r := Updated(m, id, FormOf(m[id]));
    assert r[id] == m[id];
  }

  /** Nothing stops a second entry for a day that already has one. */
  lemma AddAllowsSecondEntryForDay(m: map<string, ManaDoc>, id: string, newId: string, f: ManaForm, now: int)
    requires id in m && newId !in m && f.data == m[id].data
    ensures var r := Added(m, newId, f, now);
      id in r && newId in r && id != newId && r[id].data == r[newId].data
  {
  }

  /** `orderBy("data", "desc")`: no entry's day string is above an earlier one's. */
  predicate DataDescending(listing: seq<(string, ManaDoc)>)
  {
    forall i, j :: 0 <= i < j < |listing| ==> LexLe(listing[j].1.data, listing[i].1.data)
  }

  /** For YYYY-MM-DD days, the listing is in reverse calendar order. */
  lemma ListingNewestDayFirst(listing: seq<(string, ManaDoc)>, i: int, j: int)
    requires DataDescending(listing) && 0 <= i < j < |listing|
    requires IsFullDate(listing[i].1.data) && IsFullDate(listing[j].1.data)
    ensures var a := listing[i].1.data;
      var b := listing[j].1.data;
      !DayBefore(FullDateYear(a), FullDateMonth(a), FullDateDay(a),
                 FullDateYear(b), FullDateMonth(b), FullDateDay(b))
  {
    var a := listing[i].1.data;
    var b := listing[j].1.data;
    assert LexLe(b, a);
    if LexLess(b, a) {
      LexLessAsymmetric(b, a);
    } else {
      LexLessIrreflexive(a);
    }
    FullDateOrderIsChronological(a, b);
  }

  /** A submit writes when the store accepts it and an edited entry still exists. */
  predicate SubmitSucceeds(e: Option<(string, ManaDoc)>, m: map<string, ManaDoc>, storeOk: bool)
  {
    storeOk && (EditTarget(e).Some? ==> EditTarget(e).value in m)
  }

  class AdminManaPage {
    var entradas: seq<(string, ManaDoc)>
    var form: ManaForm
    var loading: bool
    var error: Option<string>
    var successMessage: Option<string>
    var editingEntry: Option<(string, ManaDoc)>

    constructor()
      ensures entradas == [] && form == EmptyForm && !loading
      ensures error == None && successMessage == None && editingEntry == None
    {
      entradas := [];
      form := EmptyForm;
      loading := false;
      error := None;
      successMessage := None;
      editingEntry := None;
    }

    /** Typing into the inputs. */
    method SetForm(f: ManaForm)
      modifies this
      ensures form == f
      ensures entradas == old(entradas) && loading == old(loading) && error == old(error)
      ensures successMessage == old(successMessage) && editingEntry == old(editingEntry)
    {
      form := f;
    }

    /** `fetchManaEntries`: `snapshot` is the whole collection ordered by day,
        newest first. A failed read keeps the old list. */
    method FetchManaEntries(db: Firestore, snapshot: seq<(string, ManaDoc)>, storeOk: bool)
      requires storeOk ==> ListingOf(db.manaDiario, snapshot) && DataDescending(snapshot)
      modifies this
      ensures !loading
      ensures DataDescending(old(entradas)) ==> DataDescending(entradas)
      ensures storeOk ==> entradas == snapshot && error == old(error)
      ensures !storeOk ==> entradas == old(entradas) && error == Some(LoadFailedMessage)
      ensures form == old(form) && successMessage == old(successMessage) && editingEntry == old(editingEntry)
    {
      loading := true;
      if storeOk {
        entradas := snapshot;
      } else {
        error := Some(LoadFailedMessage);
      }
      loading := false;
    }

    /** `handleSubmit`. `newId` is the id `addDoc` would generate and `now`
        the client instant; `storeOk` whether the write succeeds. Updating an
        entry that no longer exists fails as a write error does. */
    method HandleSubmit(db: Firestore, newId: string, now: int, storeOk: bool)
      requires newId !in db.manaDiario
      modifies this, db
      ensures MissingField(old(form)) ==>
        error == Some(RequiredMessage) && form == old(form) && editingEntry == old(editingEntry)
        && loading == old(loading) && successMessage == old(successMessage)
        && db.manaDiario == old(db.manaDiario)
      ensures !MissingField(old(form)) ==> !loading
      ensures !MissingField(old(form)) && SubmitSucceeds(old(editingEntry), old(db.manaDiario), storeOk) ==>
        form == EmptyForm && editingEntry == None && error == None
      ensures (!MissingField(old(form)) && SubmitSucceeds(old(editingEntry), old(db.manaDiario), storeOk)
        && EditTarget(old(editingEntry)).Some?) ==>
        db.manaDiario == Updated(old(db.manaDiario), EditTarget(old(editingEntry)).value, old(form))
        && successMessage == Some(UpdatedMessage)
      ensures (!MissingField(old(form)) && SubmitSucceeds(old(editingEntry), old(db.manaDiario), storeOk)
        && EditTarget(old(editingEntry)).None?) ==>
        db.manaDiario == Added(old(db.manaDiario), newId, old(form), now) && successMessage == Some(AddedMessage)
      ensures !MissingField(old(form)) && !SubmitSucceeds(old(editingEntry), old(db.manaDiario), storeOk) ==>
        db.manaDiario == old(db.manaDiario) && form == old(form) && editingEntry == old(editingEntry)
        && error == Some(SaveFailedMessage) && successMessage == None
      ensures entradas == old(entradas)
      ensures db.users == old(db.users) && db.meditacoes == old(db.meditacoes)
    {
      if MissingField(form) {
        error := Some(RequiredMessage);
        return;
      }
      Write(db, newId, now, storeOk);
    }

    /** The part of `handleSubmit` after the required-fields check. */
    method Write(db: Firestore, newId: string, now: int, storeOk: bool)
      requires newId !in db.manaDiario
      modifies this, db
      ensures !loading
      ensures SubmitSucceeds(old(editingEntry), old(db.manaDiario), storeOk) ==>
        form == EmptyForm && editingEntry == None && error == None
      ensures SubmitSucceeds(old(editingEntry), old(db.manaDiario), storeOk) && EditTarget(old(editingEntry)).Some? ==>
        db.manaDiario == Updated(old(db.manaDiario), EditTarget(old(editingEntry)).value, old(form))
        && successMessage == Some(UpdatedMessage)
      ensures SubmitSucceeds(old(editingEntry), old(db.manaDiario), storeOk) && EditTarget(old(editingEntry)).None? ==>
        db.manaDiario == Added(old(db.manaDiario), newId, old(form), now) && successMessage == Some(AddedMessage)
      ensures !SubmitSucceeds(old(editingEntry), old(db.manaDiario), storeOk) ==>
        db.manaDiario == old(db.manaDiario) && form == old(form) && editingEntry == old(editingEntry)
        && error == Some(SaveFailedMessage) && successMessage == None
      ensures entradas == old(entradas)
      ensures db.users == old(db.users) && db.meditacoes == old(db.meditacoes)
    {
      loading := true;
      error := None;
      successMessage := None;
      if SubmitSucceeds(editingEntry, db.manaDiario, storeOk) {
        var target := EditTarget(editingEntry);
        if target.Some? {
          db.manaDiario := Updated(db.manaDiario, target.value, form);
          successMessage := Some(UpdatedMessage);
        } else {
          db.manaDiario := Added(db.manaDiario, newId, form, now);
          successMessage := Some(AddedMessage);
        }
        form := EmptyForm;
        editingEntry := None;
      } else {
        error := Some(SaveFailedMessage);
      }
      loading := false;
    }

    /** `handleDelete`. `confirmed` is the answer to the confirmation dialog. */
    method HandleDelete(db: Firestore, id: string, confirmed: bool, storeOk: bool)
      modifies this, db
      ensures !confirmed ==>
        db.manaDiario == old(db.manaDiario) && loading == old(loading)
        && error == old(error) && successMessage == old(successMessage)
      ensures confirmed ==> !loading
      ensures confirmed && storeOk ==>
        db.manaDiario == Deleted(old(db.manaDiario), id)
        && successMessage == Some(DeletedMessage) && error == old(error)
      ensures confirmed && !storeOk ==>
        db.manaDiario == old(db.manaDiario)
        && error == Some(DeleteFailedMessage) && successMessage == old(successMessage)
      ensures entradas == old(entradas) && form == old(form) && editingEntry == old(editingEntry)
      ensures db.users == old(db.users) && db.meditacoes == old(db.meditacoes)
    {
      if !confirmed {
        return;
      }
      loading := true;
      if storeOk {
        db.manaDiario := Deleted(db.manaDiario, id);
        successMessage := Some(DeletedMessage);
      } else {
        error := Some(DeleteFailedMessage);
      }
      loading := false;
    }

    /** `handleEdit`: the form shows the entry and the page is in edit mode. */
    method HandleEdit(entry: (string, ManaDoc))
      modifies this
      ensures editingEntry == Some(entry) && form == FormOf(entry.1)
      ensures error == None && successMessage == None
      ensures entradas == old(entradas) && loading == old(loading)
    {
      editingEntry := Some(entry);
      form := FormOf(entry.1);
      error := None;
      successMessage := None;
    }

    /** The cancel button of edit mode: back to the empty add form. */
    method Cancel()
      modifies this
      ensures editingEntry == None && form == EmptyForm
      ensures error == None && successMessage == None
      ensures entradas == old(entradas) && loading == old(loading)
    {
      editingEntry := None;
      form := EmptyForm;
      error := None;
      successMessage := None;
    }
  }
}
