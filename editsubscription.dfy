/**
  The subscription edit screen: the form it opens with, the two date pickers
  and the handlers that write a picked date into the form, and the text each
  date button shows.
 */
module EditSubscription {
  import opened Wrappers
  import opened Text
  import opened Dates

  /** The form, every field as the screen keeps it: text. */
  datatype EditForm = EditForm(
    id: string, abonelikAdi: string, odemeMiktari: string, odemeBirimi: string,
    baslangicTarihi: string, bitisTarihi: string, frequency: string,
    last4Digits: string, cardName: string)

  /** The form and whether each date picker is open. */
  datatype EditScreen = EditScreen(form: EditForm, showStartDatePicker: bool, showEndDatePicker: bool)

  /** What a date button shows when no date is set. */
  const NoDateLabel := "Seçin"

  /**
    `handleStartDateChange`: the start picker closes; a picked date, written
    for the backend, replaces the start date and nothing else; a dismissed
    picker leaves the form as it was.
   */
  function HandleStartDateChange(s: EditScreen, selected: Option<PickedDate>): (r: EditScreen)
    ensures !r.showStartDatePicker && r.showEndDatePicker == s.showEndDatePicker
    ensures selected.None? ==> r.form == s.form
    ensures selected.Some? ==> r.form.baslangicTarihi == FormatDate(selected.value)
    ensures r.form.(baslangicTarihi := s.form.baslangicTarihi) == s.form
  {
    var form := if selected.Some? then s.form.(baslangicTarihi := FormatDate(selected.value)) else s.form;
    EditScreen(form, false, s.showEndDatePicker)
  }

  /** `handleEndDateChange`: the same for the end picker and the end date. */
  function HandleEndDateChange(s: EditScreen, selected: Option<PickedDate>): (r: EditScreen)
    ensures !r.showEndDatePicker && r.showStartDatePicker == s.showStartDatePicker
    ensures selected.None? ==> r.form == s.form
    ensures selected.Some? ==> r.form.bitisTarihi == FormatDate(selected.value)
    ensures r.form.(bitisTarihi := s.form.bitisTarihi) == s.form
  {
    var form := if selected.Some? then s.form.(bitisTarihi := FormatDate(selected.value)) else s.form;
    EditScreen(form, s.showStartDatePicker, false)
  }

  /** The text of a date button: the stored date shown day first, or the prompt when there is none. */
  function DateLabel(date: string): (shown: string)
    ensures date == "" ==> shown == NoDateLabel
  {
    if date != "" then FormatDateForDisplay(date) else NoDateLabel
  }

  /** Picking a start date makes its button show that date, day first, both parts padded. */
  lemma StartDateShown(s: EditScreen, d: PickedDate)
    ensures DateLabel(HandleStartDateChange(s, Some(d)).form.baslangicTarihi) ==
      Pad2(NatToString(d.day)) + "/" + Pad2(NatToString(d.month + 1)) + "/" + NatToString(d.year)
  {
    DisplayOfFormatDate(d);
  }

  /** Picking an end date makes its button show that date, day first, both parts padded. */
  lemma EndDateShown(s: EditScreen, d: PickedDate)
    ensures DateLabel(HandleEndDateChange(s, Some(d)).form.bitisTarihi) ==
      Pad2(NatToString(d.day)) + "/" + Pad2(NatToString(d.month + 1)) + "/" + NatToString(d.year)
  {
    DisplayOfFormatDate(d);
  }

  /**
    The two handlers touch different fields and different pickers, so the
    order in which the two dates are picked does not matter.
   */
  lemma DateHandlersCommute(s: EditScreen, start: Option<PickedDate>, end: Option<PickedDate>)
    ensures HandleEndDateChange(HandleStartDateChange(s, start), end) ==
            HandleStartDateChange(HandleEndDateChange(s, end), start)
  {
  }

  /** Picking a start date does not change the end date's button, and the other way round. */
  lemma OtherLabelKept(s: EditScreen, d: Option<PickedDate>)
    ensures DateLabel(HandleStartDateChange(s, d).form.bitisTarihi) == DateLabel(s.form.bitisTarihi)
    ensures DateLabel(HandleEndDateChange(s, d).form.baslangicTarihi) == DateLabel(s.form.baslangicTarihi)
  {
  }
}
