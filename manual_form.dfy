/** The manual withdrawal request wizard (src/components/ManualWithdrawalRequestForm.tsx): section navigation,
    field edits with validation, section validity, the submit procedure and the conversion into a new request.
    The section list and the country list live in a file that is not part of this model and are parameters. */
module ManualForm {
  import opened Wrappers
  import opened Text
  import opened Seqs
  import opened WorkflowTypes
  import opened FormValidation

  /** One entry of the section list: its id and the fields it requires. */
  datatype SectionConfig = SectionConfig(id: string, requiredFields: seq<string>)

  /** One entry of the country list. */
  datatype Country = Country(value: string, labelText: string)

  /** `ManualFormState` without `lastSaved` (a clock value). An absent key of `formData` or `validation` is `undefined`. */
  datatype FormState = FormState(
    currentSection: string,
    formData: map<string, string>,
    validation: map<string, ValidationResult>,
    isSubmitting: bool,
    hasUnsavedChanges: bool,
    completedSections: seq<string>,
    errors: seq<string>)

  /** The value the form shows for a field; an absent one reads as the empty string. */
  function Get(data: map<string, string>, field: string): string {
    if field in data then data[field] else ""
  }

  /** The initial state, over a given default form data. */
  function InitialState(defaults: map<string, string>): (st: FormState)
    ensures st.currentSection == "country" && st.completedSections == [] && st.errors == []
    ensures !st.isSubmitting && !st.hasUnsavedChanges && st.validation == map[]
  {
    FormState("country", defaults, map[], false, false, [], [])
  }

  // ---------------------------------------------------------------- country selection

  /** `ADFD_COUNTRIES.find(c => c.value === value)`. */
  function FindCountry(countries: seq<Country>, value: string): (found: Option<Country>)
    ensures found.None? <==> forall i :: 0 <= i < |countries| ==> countries[i].value != value
    ensures found.Some? ==> exists i :: 0 <= i < |countries| && countries[i] == found.value
                                      && forall j :: 0 <= j < i ==> countries[j].value != value
  {
    var i := FindIndex(countries, (c: Country) => c.value == value);
    if i == -1 then None else Some(countries[i])
  }

  /** `handleCountrySelect`. The generated project and reference numbers and today's date come from the clock and
      random numbers and are passed in. */
  function HandleCountrySelect(countries: seq<Country>, st: FormState, value: string,
                               projectNumber: string, referenceNumber: string, today: string): FormState
  {
    match FindCountry(countries, value)
    case None => st
    case Some(c) =>
      st.(formData := st.formData["country" := c.labelText]["projectNumber" := projectNumber]
                                 ["referenceNumber" := referenceNumber]["requestDate" := today],
          currentSection := "project",
          completedSections := ["country"],
          hasUnsavedChanges := true)
  }

  /** An unknown country changes nothing; a known one stores its label, the generated numbers and today's date,
      moves to `project` and marks only `country` as completed, keeping every other field of the form. */
  lemma CountrySelectEffect(countries: seq<Country>, st: FormState, value: string,
                            projectNumber: string, referenceNumber: string, today: string)
    ensures var st' := HandleCountrySelect(countries, st, value, projectNumber, referenceNumber, today);
            ((forall i :: 0 <= i < |countries| ==> countries[i].value != value) ==> st' == st)
            && (FindCountry(countries, value).Some? ==>
                  Get(st'.formData, "country") == FindCountry(countries, value).value.labelText
                  && Get(st'.formData, "projectNumber") == projectNumber
                  && Get(st'.formData, "referenceNumber") == referenceNumber
                  && Get(st'.formData, "requestDate") == today
                  && st'.currentSection == "project" && st'.completedSections == ["country"]
                  && st'.hasUnsavedChanges && st'.validation == st.validation && st'.errors == st.errors
                  && st'.isSubmitting == st.isSubmitting
                  && (forall f :: f != "country" && f != "projectNumber" && f != "referenceNumber" && f != "requestDate"
                                  ==> Get(st'.formData, f) == Get(st.formData, f)))
  {
  }

  // ---------------------------------------------------------------- field edits

  /** `handleInputChange`: store the value and its `validateField` result. Amount and date checks are passed in. */
  function HandleInputChange(st: FormState, field: string, value: string,
                             checkAmount: string -> ValidationResult,
                             checkDate: (string, string) -> ValidationResult): FormState
  {
    st.(formData := st.formData[field := value],
        validation := st.validation[field := ValidateField(field, value, checkAmount, checkDate)],
        hasUnsavedChanges := true)
  }

  /** An edit changes the named field's value and validation result and nothing else. */
  lemma InputChangeTouchesOneField(st: FormState, field: string, value: string,
                                   checkAmount: string -> ValidationResult,
                                   checkDate: (string, string) -> ValidationResult)
    ensures var st' := HandleInputChange(st, field, value, checkAmount, checkDate);
            Get(st'.formData, field) == value
            && st'.validation[field] == ValidateField(field, value, checkAmount, checkDate)
            && (forall f :: f != field ==> Get(st'.formData, f) == Get(st.formData, f))
            && (forall f :: f != field ==> (f in st'.validation <==> f in st.validation))
            && (forall f :: f != field && f in st.validation ==> st'.validation[f] == st.validation[f])
            && st'.hasUnsavedChanges
            && st'.(formData := st.formData, validation := st.validation, hasUnsavedChanges := st.hasUnsavedChanges) == st
  {
  }

  /** Edits of two different fields commute. */
  lemma InputChangesCommute(st: FormState, f: string, v: string, g: string, w: string,
                            checkAmount: string -> ValidationResult,
                            checkDate: (string, string) -> ValidationResult)
    requires f != g
    ensures HandleInputChange(HandleInputChange(st, f, v, checkAmount, checkDate), g, w, checkAmount, checkDate)
            == HandleInputChange(HandleInputChange(st, g, w, checkAmount, checkDate), f, v, checkAmount, checkDate)
  {
    var rf := ValidateField(f, v, checkAmount, checkDate);
    var rg := ValidateField(g, w, checkAmount, checkDate);
    assert st.formData[f := v][g := w] == st.formData[g := w][f := v];
    assert st.validation[f := rf][g := rg] == st.validation[g := rg][f := rf];
  }

  /** A second edit of the same field overrides the first. */
  lemma InputChangeLastWins(st: FormState, f: string, v: string, w: string,
                            checkAmount: string -> ValidationResult,
                            checkDate: (string, string) -> ValidationResult)
    ensures HandleInputChange(HandleInputChange(st, f, v, checkAmount, checkDate), f, w, checkAmount, checkDate)
            == HandleInputChange(st, f, w, checkAmount, checkDate)
  {
  }

  // ---------------------------------------------------------------- navigation

  /** `FORM_SECTIONS.findIndex(s => s.id === id)`. */
  function FindSection(sections: seq<SectionConfig>, id: string): (i: int)
    ensures -1 <= i < |sections|
    ensures i == -1 <==> forall j :: 0 <= j < |sections| ==> sections[j].id != id
    ensures i >= 0 ==> sections[i].id == id && forall j :: 0 <= j < i ==> sections[j].id != id
  {
    FindIndex(sections, (s: SectionConfig) => s.id == id)
  }

  predicate DistinctIds(sections: seq<SectionConfig>) {
    forall i, j :: 0 <= i < j < |sections| ==> sections[i].id != sections[j].id
  }

  /** With distinct ids, the index found for a section's id is that section's own index. */
  lemma FindSectionOfIndex(sections: seq<SectionConfig>, i: int)
    requires DistinctIds(sections) && 0 <= i < |sections|
    ensures FindSection(sections, sections[i].id) == i
  {
  }

  function IsNot(x: string): string -> bool { (s: string) => s != x }
  function Is(x: string): string -> bool { (s: string) => s == x }

  /** `goToNextSection`. An unknown current section has index -1, so the first section follows. */
  function GoToNextSection(sections: seq<SectionConfig>, st: FormState): FormState {
    var i := FindSection(sections, st.currentSection);
    if i < |sections| - 1 then
      st.(currentSection := sections[i + 1].id,
          completedSections := Filter(st.completedSections, IsNot(st.currentSection)) + [st.currentSection])
    else st
  }

  /** `goToPreviousSection`. */
  function GoToPreviousSection(sections: seq<SectionConfig>, st: FormState): FormState {
    var i := FindSection(sections, st.currentSection);
    if i > 0 then st.(currentSection := sections[i - 1].id) else st
  }

  /** Moving forward: one section ahead unless on the last one; the section left is then the last completed entry,
      listed once, and the earlier completed entries stay. */
  lemma NextSectionEffect(sections: seq<SectionConfig>, st: FormState)
    ensures var i := FindSection(sections, st.currentSection);
            var st' := GoToNextSection(sections, st);
            (i == |sections| - 1 ==> st' == st)
            && (i < |sections| - 1 ==>
                  st'.currentSection == sections[i + 1].id
                  && st'.completedSections[|st'.completedSections| - 1] == st.currentSection
                  && Count(st'.completedSections, Is(st.currentSection)) == 1
                  && (forall x :: x in st'.completedSections <==> x in st.completedSections || x == st.currentSection)
                  && st'.(currentSection := st.currentSection, completedSections := st.completedSections) == st)
  {
    var i := FindSection(sections, st.currentSection);
    if i < |sections| - 1 {
      var kept := Filter(st.completedSections, IsNot(st.currentSection));
      var now := kept + [st.currentSection];
      CountAppend(kept, [st.currentSection], Is(st.currentSection));
      CountExtremes(kept, Is(st.currentSection));
      assert Count(kept, Is(st.currentSection)) == 0;
      assert Count([st.currentSection], Is(st.currentSection)) == 1;
      FilterKeepsAll(st.completedSections, IsNot(st.currentSection));
    }
  }

  /** Moving back: one section behind unless on the first one; nothing else changes. */
  lemma PreviousSectionEffect(sections: seq<SectionConfig>, st: FormState)
    ensures var i := FindSection(sections, st.currentSection);
            var st' := GoToPreviousSection(sections, st);
            (i <= 0 ==> st' == st)
            && (i > 0 ==> st'.currentSection == sections[i - 1].id)
            && st'.(currentSection := st.currentSection) == st
  {
  }

  /** With distinct ids, stepping back after stepping forward returns to the section left. */
  lemma NextThenPrevious(sections: seq<SectionConfig>, st: FormState)
    requires DistinctIds(sections)
    requires 0 <= FindSection(sections, st.currentSection) < |sections| - 1
    ensures GoToPreviousSection(sections, GoToNextSection(sections, st)).currentSection == st.currentSection
  {
    var i := FindSection(sections, st.currentSection);
    var next := GoToNextSection(sections, st);
    assert next.currentSection == sections[i + 1].id;
    FindSectionOfIndex(sections, i + 1);
    assert GoToPreviousSection(sections, next).currentSection == sections[i].id;
  }

  /** With distinct ids, stepping forward after stepping back returns to the section left. */
  lemma PreviousThenNext(sections: seq<SectionConfig>, st: FormState)
    requires DistinctIds(sections)
    requires 0 < FindSection(sections, st.currentSection)
    ensures GoToNextSection(sections, GoToPreviousSection(sections, st)).currentSection == st.currentSection
  {
    var i := FindSection(sections, st.currentSection);
    var previous := GoToPreviousSection(sections, st);
    assert previous.currentSection == sections[i - 1].id;
    FindSectionOfIndex(sections, i - 1);
    assert GoToNextSection(sections, previous).currentSection == sections[i].id;
  }

  // ---------------------------------------------------------------- section validity

  /** `FORM_SECTIONS.find(s => s.id === id)`. */
  function FindConfig(sections: seq<SectionConfig>, id: string): (config: Option<SectionConfig>)
    ensures config.None? <==> FindSection(sections, id) == -1
    ensures config.Some? ==> config.value == sections[FindSection(sections, id)]
  {
    var i := FindSection(sections, id);
    if i == -1 then None else Some(sections[i])
  }

  /** A required field is filled and not marked invalid. */
  predicate FieldReady(st: FormState, field: string) {
    !IsBlank(Get(st.formData, field)) && !(field in st.validation && !st.validation[field].isValid)
  }

  /** `isCurrentSectionValid`. */
  predicate IsCurrentSectionValid(sections: seq<SectionConfig>, st: FormState) {
    match FindConfig(sections, st.currentSection)
    case None => false
    case Some(config) =>
      if st.currentSection == "country" then Get(st.formData, "country") != ""
      else forall i :: 0 <= i < |config.requiredFields| ==> FieldReady(st, config.requiredFields[i])
  }

  /** Editing a field that the current section neither requires nor is (the country) leaves its validity as it was. */
  lemma UnrelatedEditKeepsValidity(sections: seq<SectionConfig>, st: FormState, field: string, value: string,
                                   checkAmount: string -> ValidationResult,
                                   checkDate: (string, string) -> ValidationResult)
    requires field != "country"
    requires FindConfig(sections, st.currentSection).Some? ==>
               field !in FindConfig(sections, st.currentSection).value.requiredFields
    ensures IsCurrentSectionValid(sections, HandleInputChange(st, field, value, checkAmount, checkDate))
            == IsCurrentSectionValid(sections, st)
  {
    var st' := HandleInputChange(st, field, value, checkAmount, checkDate);
    match FindConfig(sections, st.currentSection)
    case None =>
    case Some(config) =>
      forall i | 0 <= i < |config.requiredFields|
        ensures FieldReady(st', config.requiredFields[i]) == FieldReady(st, config.requiredFields[i])
      {
        assert config.requiredFields[i] != field;
      }
  }

  /** Blanking a field the current section requires makes that section invalid. */
  lemma BlankingRequiredFieldInvalidates(sections: seq<SectionConfig>, st: FormState, field: string, value: string,
                                         checkAmount: string -> ValidationResult,
                                         checkDate: (string, string) -> ValidationResult)
    requires st.currentSection != "country"
    requires FindConfig(sections, st.currentSection).Some?
    requires field in FindConfig(sections, st.currentSection).value.requiredFields
    requires IsBlank(value)
    ensures !IsCurrentSectionValid(sections, HandleInputChange(st, field, value, checkAmount, checkDate))
  {
    var config := FindConfig(sections, st.currentSection).value;
    var i :| 0 <= i < |config.requiredFields| && config.requiredFields[i] == field;
    assert !FieldReady(HandleInputChange(st, field, value, checkAmount, checkDate), config.requiredFields[i]);
  }

  /** After choosing a country with a non-empty label, stepping back shows a valid country section, provided the
      list starts with `country` and then `project`. */
  lemma CountryThenBackIsValid(sections: seq<SectionConfig>, countries: seq<Country>, st: FormState, value: string,
                               projectNumber: string, referenceNumber: string, today: string)
    requires |sections| >= 2 && sections[0].id == "country" && sections[1].id == "project"
    requires FindCountry(countries, value).Some? && FindCountry(countries, value).value.labelText != ""
    ensures var st' := HandleCountrySelect(countries, st, value, projectNumber, referenceNumber, today);
            var back := GoToPreviousSection(sections, st');
            back.currentSection == "country" && IsCurrentSectionValid(sections, back)
  {
    var st' := HandleCountrySelect(countries, st, value, projectNumber, referenceNumber, today);
    assert FindSection(sections, "project") == 1;
    var back := GoToPreviousSection(sections, st');
    assert back.currentSection == "country";
    assert FindSection(sections, "country") == 0;
  }

  // ---------------------------------------------------------------- submission

  /** Some section of the list requires the field. */
  predicate RequiredBySome(sections: seq<SectionConfig>, f: string) {
    exists i :: 0 <= i < |sections| && f in sections[i].requiredFields
  }

  /** `FORM_SECTIONS.flatMap(section => section.requiredFields)`. */
  function AllRequiredFields(sections: seq<SectionConfig>): (fields: seq<string>)
    ensures forall f :: f in fields <==> RequiredBySome(sections, f)
  {
    if sections == [] then []
    else
      var rest := AllRequiredFields(sections[1..]);
      assert forall f :: RequiredBySome(sections, f) <==> f in sections[0].requiredFields || RequiredBySome(sections[1..], f) by {
        forall f
          ensures RequiredBySome(sections, f) <==> f in sections[0].requiredFields || RequiredBySome(sections[1..], f)
        {
          if RequiredBySome(sections[1..], f) {
            var k :| 0 <= k < |sections[1..]| && f in sections[1..][k].requiredFields;
            assert f in sections[k + 1].requiredFields;
          }
          if RequiredBySome(sections, f) && f !in sections[0].requiredFields {
            var k :| 0 <= k < |sections| && f in sections[k].requiredFields;
            assert f in sections[1..][k - 1].requiredFields;
          }
        }
      }
      sections[0].requiredFields + rest
  }

  function BlankIn(data: map<string, string>): string -> bool { (f: string) => IsBlank(Get(data, f)) }

  /** The required fields, in section order (duplicates kept), that are empty or whitespace only. */
  function MissingFields(sections: seq<SectionConfig>, data: map<string, string>): seq<string> {
    Filter(AllRequiredFields(sections), BlankIn(data))
  }

  /** A field is reported missing exactly when some section requires it and it is blank; the order is the
      sections' order. */
  lemma MissingFieldsExact(sections: seq<SectionConfig>, data: map<string, string>)
    ensures forall f :: f in MissingFields(sections, data) <==> RequiredBySome(sections, f) && IsBlank(Get(data, f))
    ensures IsSubsequence(MissingFields(sections, data), AllRequiredFields(sections))
    ensures MissingFields(sections, data) == [] <==>
              forall f :: RequiredBySome(sections, f) ==> !IsBlank(Get(data, f))
  {
    var all := AllRequiredFields(sections);
    var missing := MissingFields(sections, data);
    forall f
      ensures f in missing <==> RequiredBySome(sections, f) && IsBlank(Get(data, f))
    {
      MissingFieldMember(sections, data, f);
    }
    if missing != [] {
      MissingFieldMember(sections, data, missing[0]);
    } else {
      forall f | RequiredBySome(sections, f)
        ensures !IsBlank(Get(data, f))
      {
        MissingFieldMember(sections, data, f);
      }
    }
  }

  /** One field is reported missing exactly when some section requires it and it is blank. */
  lemma MissingFieldMember(sections: seq<SectionConfig>, data: map<string, string>, f: string)
    ensures f in MissingFields(sections, data) <==> RequiredBySome(sections, f) && IsBlank(Get(data, f))
  {
    var all := AllRequiredFields(sections);
    if f in MissingFields(sections, data) {
      FilterSound(all, BlankIn(data), f);
    }
    if RequiredBySome(sections, f) && IsBlank(Get(data, f)) {
      var i :| 0 <= i < |all| && all[i] == f;
      FilterComplete(all, BlankIn(data), i);
    }
  }

  /** A valid section other than the country one has none of its fields missing. */
  lemma ValidSectionHasNoMissing(sections: seq<SectionConfig>, st: FormState)
    requires st.currentSection != "country" && IsCurrentSectionValid(sections, st)
    ensures forall f :: f in FindConfig(sections, st.currentSection).value.requiredFields ==>
                         f !in MissingFields(sections, st.formData)
  {
    var config := FindConfig(sections, st.currentSection).value;
    assert forall i :: 0 <= i < |config.requiredFields| ==> FieldReady(st, config.requiredFields[i]);
    forall f | f in config.requiredFields
      ensures f !in MissingFields(sections, st.formData)
    {
      var i :| 0 <= i < |config.requiredFields| && config.requiredFields[i] == f;
      assert FieldReady(st, config.requiredFields[i]);
      if f in MissingFields(sections, st.formData) {
        FilterSound(AllRequiredFields(sections), BlankIn(st.formData), f);
        assert false;
      }
    }
  }

  /** The submit error text. */
  function MissingFieldsError(missing: seq<string>): string {
    MissingPrefix + Join(missing, ", ")
  }

  const MissingPrefix := "Missing required fields: "

  const CreateFailed := "Failed to create withdrawal request"

  /** The new request, without `id`, `createdAt` and `updatedAt`. `currency` is the form's string, cast unchecked. */
  datatype RequestDraft = RequestDraft(
    projectNumber: string,
    refNumber: string,
    beneficiaryName: string,
    country: string,
    amount: real,
    currency: string,
    valueDate: string,
    currentStage: RequestStage,
    status: string,
    priority: Priority,
    assignedTo: string,
    processingDays: int,
    notes: string,
    attachments: seq<string>)

  /** `requestedAmount.replace(/[,\s]/g, '')`. */
  function StripSeparators(s: string): (r: string)
    ensures forall i :: 0 <= i < |r| ==> r[i] != ',' && !IsSpace(r[i])
  {
    if s == [] then [] else (if s[0] == ',' || IsSpace(s[0]) then [] else [s[0]]) + StripSeparators(s[1..])
  }

  /** `convertToWithdrawalRequest`; `parseFloat` is passed in. */
  function ConvertToWithdrawalRequest(data: map<string, string>, parseAmount: string -> real): (d: RequestDraft)
    ensures d.currentStage == InitialReview && d.processingDays == 0 && d.priority == Medium
    ensures d.assignedTo == "archive001" && d.attachments == []
    ensures d.refNumber == Get(data, "referenceNumber") && d.projectNumber == Get(data, "projectNumber")
    ensures d.beneficiaryName == Get(data, "beneficiaryName") && d.country == Get(data, "country")
    ensures d.valueDate == Get(data, "valueDate") && d.currency == Get(data, "currency")
    ensures d.amount == parseAmount(StripSeparators(Get(data, "requestedAmount")))
  {
    RequestDraft(
      Get(data, "projectNumber"), Get(data, "referenceNumber"), Get(data, "beneficiaryName"), Get(data, "country"),
      parseAmount(StripSeparators(Get(data, "requestedAmount"))), Get(data, "currency"), Get(data, "valueDate"),
      InitialReview, StatusText(Get(data, "projectName")), Medium, "archive001", 0,
      NotesText(Get(data, "projectName"), Get(data, "paymentPurpose"), Get(data, "additionalNotes")),
      [])
  }

  /** The status line of a new manual request. */
  function StatusText(project: string): string {
    "New manual request - " + project + " - Pending initial review"
  }

  /** The notes of a new manual request; the additional notes are appended only when present. */
  function NotesText(project: string, purpose: string, extra: string): string {
    "Manual entry request for " + project + ". Payment purpose: " + purpose + ". "
    + (if extra != "" then "Additional notes: " + extra else "")
  }

  /** The new request enters the workflow at its first stage, from which the dashboard can move it on, and its
      status and notes name the project and the payment purpose. */
  lemma ConvertedRequestFacts(data: map<string, string>, parseAmount: string -> real)
    ensures var d := ConvertToWithdrawalRequest(data, parseAmount);
            !IsTerminal(d.currentStage) && CanTransition(d.currentStage, TechnicalReview)
            && Includes(d.status, Get(data, "projectName"))
            && Includes(d.notes, Get(data, "projectName"))
            && Includes(d.notes, Get(data, "paymentPurpose"))
  {
    var d := ConvertToWithdrawalRequest(data, parseAmount);
    var project := Get(data, "projectName");
    var purpose := Get(data, "paymentPurpose");
    var extra := Get(data, "additionalNotes");
    var tail := if extra != "" then "Additional notes: " + extra else "";
    assert d.status == "New manual request - " + project + " - Pending initial review";
    IncludesMiddle("New manual request - ", project, " - Pending initial review");
    assert d.notes == "Manual entry request for " + project + (". Payment purpose: " + purpose + ". " + tail);
    IncludesMiddle("Manual entry request for ", project, ". Payment purpose: " + purpose + ". " + tail);
    assert d.notes == ("Manual entry request for " + project + ". Payment purpose: ") + purpose + (". " + tail);
    IncludesMiddle("Manual entry request for " + project + ". Payment purpose: ", purpose, ". " + tail);
  }

  /** The form is shown only to a signed-in user allowed to create requests; everyone else sees the access notice.
      An absent `can_create_requests` reads as false. */
  predicate CanUseForm(user: Option<AuthUser>) {
    user.Some? && user.value.canCreateRequests
  }

  /** A signed-out visitor never sees the form; a signed-in user sees it exactly when allowed to create requests,
      whatever the role. */
  lemma FormGate(user: Option<AuthUser>)
    ensures user.None? ==> !CanUseForm(user)
    ensures user.Some? ==> (CanUseForm(user) <==> user.value.canCreateRequests)
    ensures forall role :: user.Some? ==> CanUseForm(Some(user.value.(role := role))) == CanUseForm(user)
  {
  }

  /** The form component: its state, whether a saved draft exists, and the requests handed to the request service. */
  class ManualFormComponent {
    const user: Option<AuthUser>
    var state: FormState
    var draftSaved: bool
    var submitted: seq<RequestDraft>

    constructor (user: Option<AuthUser>, defaults: map<string, string>, draftSaved: bool)
      ensures this.user == user && state == InitialState(defaults)
      ensures this.draftSaved == draftSaved && submitted == []
    {
      this.user := user;
      state := InitialState(defaults);
      this.draftSaved := draftSaved;
      submitted := [];
    }

    /** `handleSubmit`. `created` is the request service's reply (an id, or nothing); its internals are not part of
        this model. With a blank required field the request is not sent and the error lists exactly the blank
        fields. Otherwise the converted request is sent; on success the draft is cleared (the form stays in its
        submitting state until the success callback), on failure the error is shown. The submit button exists only
        in the form, which is rendered only when `CanUseForm(user)` holds. */
    method HandleSubmit(sections: seq<SectionConfig>, parseAmount: string -> real, created: Option<string>)
      returns (requestId: Option<string>)
      requires CanUseForm(user)
      modifies this`state, this`draftSaved, this`submitted
      ensures MissingFields(sections, old(state).formData) != [] ==>
                state == old(state).(errors := [MissingFieldsError(MissingFields(sections, old(state).formData))],
                                     isSubmitting := false)
                && submitted == old(submitted) && draftSaved == old(draftSaved) && requestId == None
      ensures MissingFields(sections, old(state).formData) == [] ==>
                submitted == old(submitted) + [ConvertToWithdrawalRequest(old(state).formData, parseAmount)]
      ensures MissingFields(sections, old(state).formData) == [] && created.Some? && created.value != "" ==>
                requestId == created && !draftSaved && state == old(state).(isSubmitting := true, errors := [])
      ensures MissingFields(sections, old(state).formData) == [] && !(created.Some? && created.value != "") ==>
                requestId == None && draftSaved == old(draftSaved)
                && state == old(state).(errors := [CreateFailed], isSubmitting := false)
    {
      var before := state;
      var missing := MissingFields(sections, before.formData);
      if missing != [] {
        state := before.(errors := [MissingFieldsError(missing)], isSubmitting := false);
        requestId := None;
      } else {
        requestId := Send(ConvertToWithdrawalRequest(before.formData, parseAmount), created);
      }
    }

    /** Hands the converted request to the request service, whose reply is `created`, and records the outcome. */
    method Send(draft: RequestDraft, created: Option<string>) returns (requestId: Option<string>)
      requires CanUseForm(user)
      modifies this`state, this`draftSaved, this`submitted
      ensures submitted == old(submitted) + [draft]
      ensures created.Some? && created.value != "" ==>
                requestId == created && !draftSaved && state == old(state).(isSubmitting := true, errors := [])
      ensures !(created.Some? && created.value != "") ==>
                requestId == None && draftSaved == old(draftSaved)
                && state == old(state).(errors := [CreateFailed], isSubmitting := false)
    {
      var before := state;
      submitted := submitted + [draft];
      if created.Some? && created.value != "" {
        state := before.(isSubmitting := true, errors := []);
        draftSaved := false;
        requestId := created;
      } else {
        state := before.(errors := [CreateFailed], isSubmitting := false);
        requestId := None;
      }
    }
  }
}
