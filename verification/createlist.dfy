/** The create-list screen (src/screens/lists/CreateListScreen.tsx): a
    template step that pre-fills the form, a form step with two validators,
    and the guarded create call. The API answer is an input. */
module CreateList {
  import opened Base

  datatype Template = Template(id: string, name: string, description: string)

  /** The templates offered, in order (the icons are left out). */
  const Templates: seq<Template> := [
    Template("basic", "Temel Kelimeler", "Günlük hayatta sık kullanılan temel kelimeler için boş bir liste."),
    Template("travel", "Seyahat", "Seyahat ederken kullanabileceğiniz kelimeler için hazır şablon."),
    Template("business", "İş İngilizcesi", "İş hayatında kullanılan terimler ve ifadeler için hazır şablon."),
    Template("academic", "Akademik", "Akademik çalışmalarda kullanılan terimler için hazır şablon."),
    Template("custom", "Özel Liste", "Tamamen boş bir liste oluşturun ve kendi kelimelerinizi ekleyin.")
  ]

  const NameRequired := "Liste adı gereklidir"
  const NameTooShort := "Liste adı en az 3 karakter olmalıdır"
  const DescriptionRequired := "Liste açıklaması gereklidir"
  const DescriptionTooShort := "Liste açıklaması en az 10 karakter olmalıdır"
  const CreateFailed := "Liste oluşturulurken bir hata oluştu."

  /** `validateName`: empty, then shorter than 3. */
  function ValidateName(name: string): (r: Option<string>)
    ensures r.None? <==> |name| >= 3
    ensures name == "" ==> r == Some(NameRequired)
    ensures 0 < |name| < 3 ==> r == Some(NameTooShort)
  {
    if name == "" then Some(NameRequired)
    else if |name| < 3 then Some(NameTooShort)
    else None
  }

  /** `validateDescription`: empty, then shorter than 10. */
  function ValidateDescription(description: string): (r: Option<string>)
    ensures r.None? <==> |description| >= 10
    ensures description == "" ==> r == Some(DescriptionRequired)
    ensures 0 < |description| < 10 ==> r == Some(DescriptionTooShort)
  {
    if description == "" then Some(DescriptionRequired)
    else if |description| < 10 then Some(DescriptionTooShort)
    else None
  }

  /** `templates.find(t => t.id === id)`. */
  function FindTemplate(ts: seq<Template>, id: string): (r: Option<Template>)
    ensures r.Some? ==> r.value in ts && r.value.id == id
    ensures r.None? ==> forall i :: 0 <= i < |ts| ==> ts[i].id != id
  {
    if |ts| == 0 then None
    else if ts[0].id == id then Some(ts[0])
    else FindTemplate(ts[1..], id)
  }

  datatype Step = TemplateStep | FormStep

  datatype Form = Form(
    step: Step,
    template: string,
    name: string,
    description: string,
    context: string,
    source: string,
    language: string,
    nameError: string,
    descriptionError: string,
    error: Option<string>,
    openedListId: Option<string>)

  const Initial := Form(TemplateStep, "custom", "", "", "", "", "en", "", "", None, None)

  /** `handleTemplateSelect`: a known template fills name and description,
      'custom' clears them, an unknown id only changes the selection. */
  function SelectTemplate(f: Form, id: string): (r: Form)
    ensures r.template == id && r.step == f.step && r.language == f.language
    ensures id == "custom" ==> r.name == "" && r.description == ""
    ensures id != "custom" && FindTemplate(Templates, id).Some? ==>
      r.name == FindTemplate(Templates, id).value.name && r.description == FindTemplate(Templates, id).value.description
    ensures id != "custom" && FindTemplate(Templates, id).None? ==> r == f.(template := id)
  {
    if id != "custom" then
      match FindTemplate(Templates, id)
      case Some(t) => f.(template := id, name := t.name, description := t.description)
      case None => f.(template := id)
    else f.(template := id, name := "", description := "")
  }

  /** `handleContinue` and `handleBack` only change the step. */
  function Continue(f: Form): (r: Form)
    ensures r.step == FormStep && r.(step := f.step) == f
  {
    f.(step := FormStep)
  }

  function Back(f: Form): (r: Form)
    ensures r.step == TemplateStep && r.(step := f.step) == f
  {
    f.(step := TemplateStep)
  }

  /** Going to the form and back keeps everything that was filled in. */
  lemma BackKeepsFields(f: Form)
    requires f.step == TemplateStep
    ensures Back(Continue(f)) == f
  {
  }

  /** The request `createList` gets; empty context and source are sent as absent. */
  datatype ListRequest = ListRequest(name: string, description: string, context: Option<string>, source: Option<string>, language: string)

  function ErrorText(e: Option<string>): string {
    if e.Some? then e.value else ""
  }

  function CreateRequest(f: Form): (r: Option<ListRequest>)
    ensures r.Some? <==> |f.name| >= 3 && |f.description| >= 10
    ensures r.Some? ==> r.value.name == f.name && r.value.description == f.description && r.value.language == f.language
    ensures r.Some? ==> (r.value.context.None? <==> f.context == "") && (r.value.source.None? <==> f.source == "")
  {
    if ValidateName(f.name).None? && ValidateDescription(f.description).None? then
      Some(ListRequest(f.name, f.description, if f.context == "" then None else Some(f.context),
                       if f.source == "" then None else Some(f.source), f.language))
    else None
  }

  /** `handleCreateList`: both validators run and show their messages; the
      call is made only when both pass, and its answer opens the new list. */
  function Create(f: Form, answer: Result<string>): (r: Form)
    ensures r.nameError == ErrorText(ValidateName(f.name)) && r.descriptionError == ErrorText(ValidateDescription(f.description))
    ensures CreateRequest(f).None? ==> r.openedListId == f.openedListId && r.error == f.error
    ensures CreateRequest(f).Some? && answer.Ok? ==> r.openedListId == Some(answer.value) && r.error.None?
    ensures CreateRequest(f).Some? && answer.Err? ==> r.error == Some(CreateFailed) && r.openedListId == f.openedListId
  {
    var checked := f.(nameError := ErrorText(ValidateName(f.name)), descriptionError := ErrorText(ValidateDescription(f.description)));
    if CreateRequest(f).None? then checked
    else
      match answer
      case Ok(id) => checked.(error := None, openedListId := Some(id))
      case Err(_) => checked.(error := Some(CreateFailed))
  }

  /** Both messages appear together when both fields are empty. */
  lemma BothErrorsAtOnce(f: Form, answer: Result<string>)
    requires f.name == "" && f.description == ""
    ensures Create(f, answer).nameError == NameRequired && Create(f, answer).descriptionError == DescriptionRequired
  {
  }

  /** Every template's own name and description pass validation. */
  lemma TemplatesAreValid()
    ensures forall i :: 0 <= i < |Templates| ==>
      ValidateName(Templates[i].name).None? && ValidateDescription(Templates[i].description).None?
  {
  }

  /** Picking the travel template and continuing gives a form ready to create. */
  lemma TravelTemplateReady()
    ensures CreateRequest(Continue(SelectTemplate(Initial, "travel"))).Some?
  {
    assert FindTemplate(Templates, "travel") == Some(Templates[1]) by {
      assert Templates[0].id != "travel";
      assert Templates[1..][0] == Templates[1];
    }
    TemplatesAreValid();
  }
}
