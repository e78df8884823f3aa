/** The generation form (src/components/job-description-form.tsx): its four
    fields, their length rules and what reaches the page's `onSubmit`. */
module JobDescriptionForm {
  import opened Common

  datatype FormValues = FormValues(roleTitle: string, experience: string, location: string, keySkills: string)

  /** `GenerateJobDescriptionInput`. The form fills only its first four fields;
      the company fields and the gender preference stay absent (`None`). */
  datatype GenerationInput = GenerationInput(
    roleTitle: string, experience: string, location: string, keySkills: string,
    companyName: Option<string>, aboutCompany: Option<string>, gender: Option<string>)

  const RoleTitleMessage: string := "Role title must be at least 2 characters."
  const ExperienceMessage: string := "Experience is required."
  const LocationMessage: string := "Location is required."
  const KeySkillsMessage: string := "At least one skill is required."

  /** `defaultValues`: every field empty. */
  function Defaults(): (v: FormValues)
    ensures v.roleTitle == "" && v.experience == "" && v.location == "" && v.keySkills == ""
  {
    FormValues("", "", "", "")
  }

  function ErrorIf(failed: bool, field: string, message: string): seq<FieldError>
  {
    if failed then [FieldError(field, message)] else []
  }

  /** `formSchema`: one message per failing rule, in the schema's field order. */
  function Errors(v: FormValues): (errors: seq<FieldError>)
    ensures errors == [] <==>
      |v.roleTitle| >= 2 && |v.experience| >= 1 && |v.location| >= 2 && |v.keySkills| >= 2
    ensures FieldError("roleTitle", RoleTitleMessage) in errors <==> |v.roleTitle| < 2
    ensures FieldError("experience", ExperienceMessage) in errors <==> |v.experience| < 1
    ensures FieldError("location", LocationMessage) in errors <==> |v.location| < 2
    ensures FieldError("keySkills", KeySkillsMessage) in errors <==> |v.keySkills| < 2
    ensures |errors| <= 4
  {
    ErrorIf(|v.roleTitle| < 2, "roleTitle", RoleTitleMessage)
    + ErrorIf(|v.experience| < 1, "experience", ExperienceMessage)
    + ErrorIf(|v.location| < 2, "location", LocationMessage)
    + ErrorIf(|v.keySkills| < 2, "keySkills", KeySkillsMessage)
  }

  /** The form values a generation input was built from. */
  function FormPart(input: GenerationInput): FormValues
  {
    FormValues(input.roleTitle, input.experience, input.location, input.keySkills)
  }

  /** `form.handleSubmit(onSubmit)`: valid values reach `onSubmit` unchanged,
      with nothing else filled in; invalid values never do. */
  function Submit(v: FormValues): (r: Option<GenerationInput>)
    ensures r.Some? <==> Errors(v) == []
    ensures r.Some? ==> FormPart(r.value) == v
    ensures r.Some? ==> r.value.companyName.None? && r.value.aboutCompany.None? && r.value.gender.None?
  {
    if Errors(v) == [] then
      Some(GenerationInput(v.roleTitle, v.experience, v.location, v.keySkills, None, None, None))
    else None
  }

  /** The untouched form is refused, with all four messages. */
  lemma DefaultsRejected()
    ensures Submit(Defaults()) == None
    ensures Errors(Defaults()) == [
      FieldError("roleTitle", RoleTitleMessage), FieldError("experience", ExperienceMessage),
      FieldError("location", LocationMessage), FieldError("keySkills", KeySkillsMessage)]
  {
  }

  /** Only the lengths matter: two forms whose fields have the same lengths
      are both accepted or both refused. */
  lemma OnlyLengthsMatter(v: FormValues, w: FormValues)
    requires |v.roleTitle| == |w.roleTitle| && |v.experience| == |w.experience|
    requires |v.location| == |w.location| && |v.keySkills| == |w.keySkills|
    ensures Submit(v).Some? <==> Submit(w).Some?
  {
  }
}
