/** The create/edit client form of `src/components/client/ClientModal.tsx`:
    validation, submission, field edits and the reset when the edited
    client changes. */
module ClientModal {
  import opened Basics
  import opened Text
  import opened ClientTypes
  import EmailPattern

  datatype Field = Nombre | Apellido | Email | Telefono | Direccion | Empresa | Notas | Activo

  /** `Record<string, string>` keyed by field name. */
  type Errors = map<Field, string>

  const RequiredFields: set<Field> := {Nombre, Apellido, Email, Telefono, Direccion}

  const NombreRequired: string := "El nombre es requerido"
  const ApellidoRequired: string := "El apellido es requerido"
  const EmailRequired: string := "El email es requerido"
  const EmailInvalid: string := "El email no es v\U{00E1}lido"
  const TelefonoRequired: string := "El tel\U{00E9}fono es requerido"
  const DireccionRequired: string := "La direcci\U{00F3}n es requerida"

  /** The text held by a text input or the textarea. */
  function TextField(f: ClientForm, field: Field): string
    requires field != Activo
  {
    match field
    case Nombre => f.nombre
    case Apellido => f.apellido
    case Email => f.email
    case Telefono => f.telefono
    case Direccion => f.direccion
    case Empresa => f.empresa
    case Notas => f.notas
  }

  /** `validateForm`'s error record. Each required field that is blank after
      trimming gets its "requerido" message; a non-blank e-mail that fails
      the pattern gets the "no es válido" message instead. The optional
      fields never get an error. */
  function ValidateForm(f: ClientForm): (errs: Errors)
    ensures errs.Keys <= RequiredFields
    ensures Nombre in errs <==> AllSpace(f.nombre)
    ensures Apellido in errs <==> AllSpace(f.apellido)
    ensures Email in errs <==> AllSpace(f.email) || !EmailPattern.RegexMatch(f.email)
    ensures Telefono in errs <==> AllSpace(f.telefono)
    ensures Direccion in errs <==> AllSpace(f.direccion)
    ensures Nombre in errs ==> errs[Nombre] == NombreRequired
    ensures Apellido in errs ==> errs[Apellido] == ApellidoRequired
    ensures Email in errs ==> errs[Email] == (if AllSpace(f.email) then EmailRequired else EmailInvalid)
    ensures Telefono in errs ==> errs[Telefono] == TelefonoRequired
    ensures Direccion in errs ==> errs[Direccion] == DireccionRequired
  {
    var errs := map k | k in RequiredFields && FieldError(f, k).Some? :: FieldError(f, k).value;
    assert forall k :: k in errs <==> k in RequiredFields && FieldError(f, k).Some?;
    errs
  }

  /** The message `validateForm` records for one field, if any: the checks
      are independent of each other, so the record is the collection of
      these. */
  function FieldError(f: ClientForm, field: Field): (r: Option<string>)
    ensures field == Nombre ==> r == if AllSpace(f.nombre) then Some(NombreRequired) else None
    ensures field == Apellido ==> r == if AllSpace(f.apellido) then Some(ApellidoRequired) else None
    ensures field == Email ==>
              r == if AllSpace(f.email) then Some(EmailRequired)
                   else if !EmailPattern.RegexMatch(f.email) then Some(EmailInvalid)
                   else None
    ensures field == Telefono ==> r == if AllSpace(f.telefono) then Some(TelefonoRequired) else None
    ensures field == Direccion ==> r == if AllSpace(f.direccion) then Some(DireccionRequired) else None
    ensures field !in RequiredFields ==> r == None
  {
    match field
    case Nombre => if IsBlank(f.nombre) then Some(NombreRequired) else None
    case Apellido => if IsBlank(f.apellido) then Some(ApellidoRequired) else None
    case Email =>
      if IsBlank(f.email) then Some(EmailRequired)
      else if !EmailPattern.Test(f.email) then Some(EmailInvalid)
      else None
    case Telefono => if IsBlank(f.telefono) then Some(TelefonoRequired) else None
    case Direccion => if IsBlank(f.direccion) then Some(DireccionRequired) else None
    case Empresa => None
    case Notas => None
    case Activo => None
  }

  /** An error record holding only required fields is empty exactly when
      none of the five is a key. */
  lemma EmptyIffNoRequiredKey(errs: Errors)
    requires errs.Keys <= RequiredFields
    ensures errs == map[] <==>
              && Nombre !in errs && Apellido !in errs && Email !in errs
              && Telefono !in errs && Direccion !in errs
  {
    if Nombre !in errs && Apellido !in errs && Email !in errs
       && Telefono !in errs && Direccion !in errs {
      assert errs.Keys == {};
    }
  }

  /** `validateForm()`'s answer: no key in the error record. */
  function IsValid(f: ClientForm): (ok: bool)
    ensures ok <==>
              && !AllSpace(f.nombre) && !AllSpace(f.apellido) && !AllSpace(f.email)
              && !AllSpace(f.telefono) && !AllSpace(f.direccion)
              && EmailPattern.RegexMatch(f.email)
  {
    var errs := ValidateForm(f);
    EmptyIffNoRequiredKey(errs);
    errs == map[]
  }

  /** What one submission does: the error record shown, the data handed to
      `onSave` (if it was called), and whether `onClose` was called. */
  datatype SubmitOutcome = SubmitOutcome(errors: Errors, saved: Option<ClientForm>, closed: bool)

  /** `handleSubmit`, where `saveSucceeds` says whether the promise `onSave`
      returns resolves. */
  function HandleSubmit(f: ClientForm, saveSucceeds: bool): (o: SubmitOutcome)
    ensures o.errors == ValidateForm(f)
    ensures o.saved.Some? <==> IsValid(f)
    ensures o.saved.Some? ==> o.saved.value == f && o.errors == map[]
    ensures o.closed <==> IsValid(f) && saveSucceeds
  {
    var errs := ValidateForm(f);
    if !IsValid(f) then SubmitOutcome(errs, None, false)
    else SubmitOutcome(errs, Some(f), saveSucceeds)
  }

  /** `handleChange` for the input named `field`: the checkbox stores
      `checked`, the other inputs store `value`; that field's error, if
      present, is blanked and the other errors are kept. */
  function HandleChange(f: ClientForm, errs: Errors, field: Field, value: string, checked: bool): (r: (ClientForm, Errors))
    ensures field == Activo ==> r.0 == f.(activo := checked)
    ensures field != Activo ==> TextField(r.0, field) == value && r.0.activo == f.activo
    ensures forall g :: g != Activo && g != field ==> TextField(r.0, g) == TextField(f, g)
    ensures r.1.Keys == errs.Keys
    ensures field in errs ==> r.1[field] == ""
    ensures forall g :: g in errs && g != field ==> r.1[g] == errs[g]
  {
    var f' := match field
      case Nombre => f.(nombre := value)
      case Apellido => f.(apellido := value)
      case Email => f.(email := value)
      case Telefono => f.(telefono := value)
      case Direccion => f.(direccion := value)
      case Empresa => f.(empresa := value)
      case Notas => f.(notas := value)
      case Activo => f.(activo := checked);
    var errs' := if field in errs && errs[field] != "" then errs[field := ""] else errs;
    (f', errs')
  }

  /** The blank form of a new client. */
  const EmptyForm: ClientForm := ClientForm("", "", "", "", "", "", "", true)

  /** The reset effect: the edited client's data with absent optional fields
      as empty strings, or the blank form, active, for a new client; the
      errors are emptied in both cases. */
  function Reset(client: Option<Client>): (r: (ClientForm, Errors))
    ensures r.1 == map[]
    ensures client.None? ==> r.0 == EmptyForm && r.0.activo
    ensures client.Some? ==>
              var c := client.value;
              && r.0.nombre == c.nombre && r.0.email == c.email && r.0.activo == c.activo
              && r.0.apellido == c.apellido.GetOr("") && r.0.telefono == c.telefono.GetOr("")
              && r.0.direccion == c.direccion.GetOr("") && r.0.empresa == c.empresa.GetOr("")
              && r.0.notas == c.notas.GetOr("")
  {
    match client
    case Some(c) =>
      (ClientForm(c.nombre, c.apellido.GetOr(""), c.email, c.telefono.GetOr(""),
                  c.direccion.GetOr(""), c.empresa.GetOr(""), c.notas.GetOr(""), c.activo), map[])
    case None => (EmptyForm, map[])
  }

  /** Two forms whose checks agree field by field get the same record. */
  lemma SameChecksSameRecord(f: ClientForm, g: ClientForm)
    requires forall k :: FieldError(g, k) == FieldError(f, k)
    ensures ValidateForm(g) == ValidateForm(f)
  {
  }

  /** `empresa`, `notas` and `activo` play no part in validation. */
  lemma OptionalFieldsIgnored(f: ClientForm, empresa: string, notas: string, activo: bool)
    ensures ValidateForm(f.(empresa := empresa, notas := notas, activo := activo)) == ValidateForm(f)
  {
    var g := f.(empresa := empresa, notas := notas, activo := activo);
    forall k
      ensures FieldError(g, k) == FieldError(f, k)
    {
      match k
      case Nombre =>
      case Apellido =>
      case Email =>
      case Telefono =>
      case Direccion =>
      case Empresa =>
      case Notas =>
      case Activo =>
    }
    SameChecksSameRecord(f, g);
  }

  /** A form whose required fields are all blank, such as the new client's
      form, fails on all five of them, with the "requerido" message for the
      e-mail; submitting it saves nothing and leaves the modal open. */
  lemma BlankFormFailsEverywhere(f: ClientForm, saveSucceeds: bool)
    requires AllSpace(f.nombre) && AllSpace(f.apellido) && AllSpace(f.email)
    requires AllSpace(f.telefono) && AllSpace(f.direccion)
    ensures ValidateForm(f).Keys == RequiredFields
    ensures ValidateForm(f)[Email] == EmailRequired
    ensures HandleSubmit(f, saveSucceeds).saved == None
    ensures !HandleSubmit(f, saveSucceeds).closed
  {
    BlankFormErrors(f);
    var o := HandleSubmit(f, saveSucceeds);
    assert !IsValid(f);
  }

  lemma BlankFormErrors(f: ClientForm)
    requires AllSpace(f.nombre) && AllSpace(f.apellido) && AllSpace(f.email)
    requires AllSpace(f.telefono) && AllSpace(f.direccion)
    ensures ValidateForm(f).Keys == RequiredFields
    ensures ValidateForm(f)[Email] == EmailRequired
  {
    var errs := ValidateForm(f);
    assert Nombre in errs && Apellido in errs && Email in errs && Telefono in errs && Direccion in errs;
  }

  /** The form `Reset` gives for a new client cannot be saved: submitting it
      shows all five "requerido" messages, calls neither `onSave` nor
      `onClose`, and the reset itself leaves no error shown. */
  lemma ResetNewClientRejected(saveSucceeds: bool)
    ensures Reset(None).1 == map[]
    ensures ValidateForm(Reset(None).0).Keys == RequiredFields
    ensures HandleSubmit(Reset(None).0, saveSucceeds).saved == None
    ensures !HandleSubmit(Reset(None).0, saveSucceeds).closed
  {
    var f := Reset(None).0;
    assert f == EmptyForm;
    BlankFormFailsEverywhere(f, saveSucceeds);
  }

  /** The e-mail pattern is unanchored and blankness is judged after
      trimming, so an accepted e-mail stays accepted with any text, spaces
      included, added before or after it. */
  lemma PaddedEmailAccepted(f: ClientForm, before: string, after: string)
    requires !AllSpace(f.email) && EmailPattern.RegexMatch(f.email)
    ensures Email !in ValidateForm(f)
    ensures Email !in ValidateForm(f.(email := before + f.email + after))
  {
    var padded := before + f.email + after;
    EmailPattern.PaddingKeepsMatch(f.email, before, after);
    EmailPattern.MatchIsNotBlank(padded);
  }
}
