/**
 * `client/src/components/CreateAlertDialog.js`: the form state of the
 * create-alert dialog, its validation, the submit button's enabled state, and
 * the field-change and close handlers. Each handler maps the old state to the
 * new one; `setFormData`, `setError` and `setLoading` are record updates.
 */
module CreateAlertDialog {
  import opened Common
  import opened JsText

  /** `formData`. */
  datatype FormData = FormData(stationId: string, alertType: string, severity: string, message: string)

  /** The dialog's state: the form, the error text ('' for none) and the loading flag. */
  datatype DialogState = DialogState(form: FormData, error: string, loading: bool)

  const EmptyForm: FormData := FormData("", "", "", "")

  const NoStation: string := "Vui lòng chọn trạm"
  const NoAlertType: string := "Vui lòng chọn loại cảnh báo"
  const NoSeverity: string := "Vui lòng chọn mức độ cảnh báo"
  const NoMessage: string := "Vui lòng nhập nội dung cảnh báo"
  const NoConnection: string := "Không có kết nối đến server"

  /** The guards of `handleSubmit`, in order: the first failing one names the error. */
  function Validate(f: FormData): (error: Option<string>)
    ensures error.None? <==> f.stationId != "" && f.alertType != "" && f.severity != "" && !IsBlank(f.message)
    ensures f.stationId == "" ==> error == Some(NoStation)
    ensures f.stationId != "" && f.alertType == "" ==> error == Some(NoAlertType)
    ensures f.stationId != "" && f.alertType != "" && f.severity == "" ==> error == Some(NoSeverity)
    ensures f.stationId != "" && f.alertType != "" && f.severity != "" && IsBlank(f.message) ==> error == Some(NoMessage)
  {
    if f.stationId == "" then Some(NoStation)
    else if f.alertType == "" then Some(NoAlertType)
    else if f.severity == "" then Some(NoSeverity)
    else if IsBlank(f.message) then Some(NoMessage)
    else None
  }

  /** A message of spaces, tabs or line breaks only is refused like an empty one. */
  lemma WhitespaceMessageRefused(f: FormData)
    requires f.stationId != "" && f.alertType != "" && f.severity != ""
    requires forall i :: 0 <= i < |f.message| ==> IsWhitespace(f.message[i])
    ensures Validate(f) == Some(NoMessage)
  {
    BlankIffAllWhitespace(f.message);
  }

  /** The submit button's `disabled` expression. */
  predicate SubmitDisabled(s: DialogState)
  {
    s.loading || s.form.stationId == "" || s.form.alertType == "" || s.form.severity == "" || IsBlank(s.form.message)
  }

  /** The button is enabled exactly when nothing is loading and the form would
   *  pass validation. */
  lemma SubmitEnabledIffValid(s: DialogState)
    ensures !SubmitDisabled(s) <==> !s.loading && Validate(s.form).None?
  {
  }

  /** What `handleSubmit` does: the state it leaves, and the `create_alert`
   *  payload it emits, if any. The listeners it then registers for the reply
   *  are not part of this model. */
  datatype SubmitOutcome = SubmitOutcome(state: DialogState, emitted: Option<FormData>)

  function HandleSubmit(s: DialogState, hasSocket: bool): (r: SubmitOutcome)
    ensures Validate(s.form).Some? ==>
      r == SubmitOutcome(s.(error := Validate(s.form).value), None)
    ensures Validate(s.form).None? && hasSocket ==>
      r == SubmitOutcome(s.(error := "", loading := true), Some(s.form))
    ensures Validate(s.form).None? && !hasSocket ==>
      r == SubmitOutcome(s.(error := NoConnection, loading := false), None)
    ensures r.state.form == s.form
  {
    match Validate(s.form)
    case Some(error) => SubmitOutcome(s.(error := error), None)
    case None =>
      if hasSocket then SubmitOutcome(s.(loading := true, error := ""), Some(s.form))
      else SubmitOutcome(s.(loading := false, error := NoConnection), None)
  }

  /** Only a complete form is ever sent, and it is sent as it stands. */
  lemma SubmitSendsOnlyValidForms(s: DialogState, hasSocket: bool)
    ensures HandleSubmit(s, hasSocket).emitted.Some? ==>
      HandleSubmit(s, hasSocket).emitted.value == s.form && Validate(s.form).None? && hasSocket
  {
  }

  datatype FormField = StationField | AlertTypeField | SeverityField | MessageField

  /** `handleInputChange(field, value)`: that field takes the value, the error
   *  is cleared, the rest is left as it was. */
  function HandleInputChange(s: DialogState, field: FormField, value: string): (t: DialogState)
    ensures t.error == "" && t.loading == s.loading
    ensures t.form.stationId == (if field == StationField then value else s.form.stationId)
    ensures t.form.alertType == (if field == AlertTypeField then value else s.form.alertType)
    ensures t.form.severity == (if field == SeverityField then value else s.form.severity)
    ensures t.form.message == (if field == MessageField then value else s.form.message)
  {
    var f := s.form;
    var g := match field
      case StationField => f.(stationId := value)
      case AlertTypeField => f.(alertType := value)
      case SeverityField => f.(severity := value)
      case MessageField => f.(message := value);
    DialogState(g, "", s.loading)
  }

  /** `handleClose`: the form is emptied, the error cleared, loading stopped. */
  function HandleClose(s: DialogState): (t: DialogState)
    ensures t.form == FormData("", "", "", "") && t.error == "" && !t.loading
  {
    DialogState(EmptyForm, "", false)
  }

  /** Filling in the four fields of a closed dialog with a non-blank message
   *  enables the submit button. */
  lemma FillingTheFormEnablesSubmit(s: DialogState, station: string, alertType: string, severity: string,
                                    message: string)
    requires station != "" && alertType != "" && severity != "" && !IsBlank(message)
    ensures var t := HandleInputChange(HandleInputChange(HandleInputChange(HandleInputChange(
                       HandleClose(s), StationField, station), AlertTypeField, alertType),
                       SeverityField, severity), MessageField, message);
      !SubmitDisabled(t) && HandleSubmit(t, true).emitted == Some(FormData(station, alertType, severity, message))
  {
  }

  /** A closed dialog cannot be submitted. */
  lemma ClosedDialogDisabled(s: DialogState)
    ensures SubmitDisabled(HandleClose(s))
    ensures Validate(HandleClose(s).form) == Some(NoStation)
  {
  }
}
