/**
 * The profile page: the editable form seeded from the stored profile, the update it saves, and
 * how a birth date and a credit card number are shown.
 */
module ProfileForm {
  import opened Wrappers
  import opened JsValues
  import opened Schema

  /** The editable fields. */
  datatype ProfileFormData = ProfileFormData(
    fullName: string,
    document: string,
    birthDate: string,
    creditCard: string)

  /** `formData`'s first value: each field of the profile, or "" when the profile, or the field, is missing or empty. */
  function InitialForm(profile: Option<Profile>): (r: ProfileFormData)
    ensures profile.None? ==> r == ProfileFormData("", "", "", "")
    ensures profile.Some? ==> r.fullName == Or(profile.value.fullName, "")
    ensures profile.Some? ==> r.document == Or(profile.value.document, "")
    ensures profile.Some? ==> r.birthDate == Or(profile.value.birthDate, "")
    ensures profile.Some? ==> r.creditCard == Or(profile.value.creditCard, "")
  {
    if profile.None? then ProfileFormData("", "", "", "")
    else
      var p := profile.value;
      ProfileFormData(Or(p.fullName, ""), Or(p.document, ""), Or(p.birthDate, ""), Or(p.creditCard, ""))
  }

  /** The columns the save writes. */
  datatype ProfileUpdate = ProfileUpdate(
    fullName: string,
    document: Option<string>,
    birthDate: Option<string>,
    creditCard: Option<string>,
    updatedAt: string)

  /** The update: the name as typed, an empty document, birth date or card as null, stamped with `now`. */
  function UpdateRow(form: ProfileFormData, now: string): (r: ProfileUpdate)
    ensures r.fullName == form.fullName && r.updatedAt == now
    ensures r.document.None? <==> form.document == ""
    ensures r.birthDate.None? <==> form.birthDate == ""
    ensures r.creditCard.None? <==> form.creditCard == ""
    ensures r.document.Some? ==> r.document.value == form.document
    ensures r.birthDate.Some? ==> r.birthDate.value == form.birthDate
    ensures r.creditCard.Some? ==> r.creditCard.value == form.creditCard
  {
    ProfileUpdate(form.fullName, OrNull(form.document), OrNull(form.birthDate), OrNull(form.creditCard), now)
  }

  /** The stored profile after the update. */
  function Apply(p: Profile, u: ProfileUpdate): Profile {
    p.(fullName := Some(u.fullName), document := u.document, birthDate := u.birthDate, creditCard := u.creditCard)
  }

  /**
   * Saving is stable: reopening the form on the saved profile and saving again, unchanged, writes
   * the same columns (only the time stamp moves).
   */
  lemma SaveIsStable(p: Profile, form: ProfileFormData, now: string, later: string)
    ensures UpdateRow(InitialForm(Some(Apply(p, UpdateRow(form, now)))), later) == UpdateRow(form, now).(updatedAt := later)
  {
  }

  /** Saving an untouched form writes back the profile's own values, with empty ones as null. */
  lemma UntouchedSave(p: Profile, now: string)
    ensures var u := UpdateRow(InitialForm(Some(p)), now);
      && u.fullName == Or(p.fullName, "")
      && u.document == (if Truthy(p.document) then p.document else None)
      && u.birthDate == (if Truthy(p.birthDate) then p.birthDate else None)
      && u.creditCard == (if Truthy(p.creditCard) then p.creditCard else None)
  {
  }

  /** The page's flags around a save. */
  datatype ProfilePage = ProfilePage(isEditing: bool, isLoading: bool, success: bool)

  /** After the update answered: success leaves editing and shows the confirmation; failure stays in editing. */
  function AfterSave(state: ProfilePage, updateFailed: bool): (r: ProfilePage)
    ensures !r.isLoading
    ensures r.success <==> !updateFailed
    ensures updateFailed ==> r.isEditing == state.isEditing
    ensures !updateFailed ==> !r.isEditing
  {
    if updateFailed then ProfilePage(state.isEditing, false, false)
    else ProfilePage(false, false, true)
  }

  const NotInformed := "Não informado"
  const CardMask := "•••• •••• •••• "

  /** What a date field shows: the placeholder, or the date in the Brazilian locale format. */
  datatype DateText = Placeholder(text: string) | LocaleDate(date: string)

  /** `formatDate`: a null or empty date shows "Não informado". */
  function FormatDate(date: Option<string>): (r: DateText)
    ensures r == Placeholder(NotInformed) <==> !Truthy(date)
    ensures r.LocaleDate? ==> Some(r.date) == date
  {
    if !Truthy(date) then Placeholder(NotInformed) else LocaleDate(date.value)
  }

  /**
   * `maskCreditCard`: "Não informado" for a null or empty card, otherwise the fixed mask followed
   * by the card's last four characters (all of them when it is shorter).
   */
  function MaskCreditCard(card: Option<string>): (r: string)
    ensures !Truthy(card) ==> r == NotInformed
    ensures Truthy(card) ==> exists shown ::
      && r == CardMask + shown
      && |shown| == (if |card.value| < 4 then |card.value| else 4)
      && card.value == card.value[..|card.value| - |shown|] + shown
  {
    if !Truthy(card) then NotInformed
    else
      var shown := SliceLast(card.value, 4);
      CardMask + shown
  }

  /** The mask depends on the last four characters only: two cards ending alike are shown alike. */
  lemma MaskShowsOnlyLastFour(a: string, b: string)
    requires |a| >= 4 && |b| >= 4 && a[|a| - 4..] == b[|b| - 4..]
    ensures MaskCreditCard(Some(a)) == MaskCreditCard(Some(b))
    ensures MaskCreditCard(Some(a)) == CardMask + a[|a| - 4..]
  {
  }
}
