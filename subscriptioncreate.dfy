/**
  The subscription creation screen: the form it starts from, the edits its
  fields and buttons make, the two date pickers, and the payload the submit
  sends.
 */
module SubscriptionCreate {
  import opened Wrappers
  import opened Text
  import opened Dates

  datatype CreateForm = CreateForm(
    abonelikAdi: string, odemeMiktari: string, odemeBirimi: string,
    bitisTarihi: string, frequency: string, last4Digits: string,
    cardName: string, baslangicTarihi: string)

  /** The form and whether each date picker is open. */
  datatype CreateScreen = CreateScreen(form: CreateForm, showBitisPicker: bool, showBaslangicPicker: bool)

  /** The two currency buttons. */
  datatype Currency = TRY | USD
  /** The two frequency buttons. */
  datatype Frequency = Monthly | Yearly

  /** The value a currency button writes. */
  function CurrencyCode(c: Currency): (code: string)
    ensures code == "TRY" <==> c == TRY
    ensures code == "USD" <==> c == USD
  {
    match c
    case TRY => "TRY"
    case USD => "USD"
  }

  /** The value a frequency button writes. */
  function FrequencyCode(f: Frequency): (code: string)
    ensures code == "AYLIK" <==> f == Monthly
    ensures code == "YILLIK" <==> f == Yearly
  {
    match f
    case Monthly => "AYLIK"
    case Yearly => "YILLIK"
  }

  /**
    The form the screen mounts with, `today` being the picker's reading of the
    current date: Turkish lira, monthly, today as the start date, every text
    field empty; both pickers closed.
   */
  function InitialScreen(today: PickedDate): (s: CreateScreen)
    ensures s.form.odemeBirimi == "TRY" && s.form.frequency == "AYLIK"
    ensures s.form.abonelikAdi == "" && s.form.odemeMiktari == "" && s.form.bitisTarihi == ""
    ensures s.form.last4Digits == "" && s.form.cardName == ""
    ensures s.form.baslangicTarihi == FormatDate(today)
    ensures !s.showBitisPicker && !s.showBaslangicPicker
  {
    CreateScreen(CreateForm("", "", "TRY", "", "AYLIK", "", "", FormatDate(today)), false, false)
  }

  /** `handleBitisDateChange`: the end picker closes; a picked date replaces the end date and nothing else. */
  function HandleBitisDateChange(s: CreateScreen, selected: Option<PickedDate>): (r: CreateScreen)
    ensures !r.showBitisPicker && r.showBaslangicPicker == s.showBaslangicPicker
    ensures selected.None? ==> r.form == s.form
    ensures selected.Some? ==> r.form.bitisTarihi == FormatDate(selected.value)
    ensures r.form.(bitisTarihi := s.form.bitisTarihi) == s.form
  {
    var form := if selected.Some? then s.form.(bitisTarihi := FormatDate(selected.value)) else s.form;
    CreateScreen(form, false, s.showBaslangicPicker)
  }

  /** `handleBaslangicDateChange`: the start picker closes; a picked date replaces the start date and nothing else. */
  function HandleBaslangicDateChange(s: CreateScreen, selected: Option<PickedDate>): (r: CreateScreen)
    ensures !r.showBaslangicPicker && r.showBitisPicker == s.showBitisPicker
    ensures selected.None? ==> r.form == s.form
    ensures selected.Some? ==> r.form.baslangicTarihi == FormatDate(selected.value)
    ensures r.form.(baslangicTarihi := s.form.baslangicTarihi) == s.form
  {
    var form := if selected.Some? then s.form.(baslangicTarihi := FormatDate(selected.value)) else s.form;
    CreateScreen(form, s.showBitisPicker, false)
  }

  /** Everything the user can do on the screen before submitting. */
  datatype Action =
    | TypeName(text: string)
    | TypeAmount(text: string)
    | ChooseCurrency(currency: Currency)
    | ChooseFrequency(frequency: Frequency)
    | OpenBaslangicPicker
    | PickBaslangic(selected: Option<PickedDate>)
    | OpenBitisPicker
    | PickBitis(selected: Option<PickedDate>)
    | TypeLast4Digits(text: string)
    | TypeCardName(text: string)

  /** One action's effect: the field it names, or the picker it opens or answers. */
  function Step(s: CreateScreen, a: Action): CreateScreen
  {
    match a
    case TypeName(text) => s.(form := s.form.(abonelikAdi := text))
    case TypeAmount(text) => s.(form := s.form.(odemeMiktari := text))
    case ChooseCurrency(c) => s.(form := s.form.(odemeBirimi := CurrencyCode(c)))
    case ChooseFrequency(f) => s.(form := s.form.(frequency := FrequencyCode(f)))
    case OpenBaslangicPicker => s.(showBaslangicPicker := true)
    case PickBaslangic(selected) => HandleBaslangicDateChange(s, selected)
    case OpenBitisPicker => s.(showBitisPicker := true)
    case PickBitis(selected) => HandleBitisDateChange(s, selected)
    case TypeLast4Digits(text) => s.(form := s.form.(last4Digits := text))
    case TypeCardName(text) => s.(form := s.form.(cardName := text))
  }

  /** A sequence of actions, taken in order. */
  function Run(s: CreateScreen, actions: seq<Action>): CreateScreen
    decreases |actions|
  {
    if actions == [] then s else Run(Step(s, actions[0]), actions[1..])
  }

  /** The currency is one of the two button values, and so is the frequency. */
  predicate ChoicesValid(f: CreateForm)
  {
    (f.odemeBirimi == "TRY" || f.odemeBirimi == "USD") &&
    (f.frequency == "AYLIK" || f.frequency == "YILLIK")
  }

  /** Every action keeps the currency and the frequency among the button values. */
  lemma StepKeepsChoices(s: CreateScreen, a: Action)
    requires ChoicesValid(s.form)
    ensures ChoicesValid(Step(s, a).form)
  {
  }

  /**
    Whatever the user does, from the form the screen mounts with, the currency
    stays 'TRY' or 'USD' and the frequency 'AYLIK' or 'YILLIK'.
   */
  lemma {:induction false} ChoicesAlwaysValid(today: PickedDate, actions: seq<Action>)
    ensures ChoicesValid(Run(InitialScreen(today), actions).form)
  {
    RunKeepsChoices(InitialScreen(today), actions);
  }

  lemma {:induction false} RunKeepsChoices(s: CreateScreen, actions: seq<Action>)
    requires ChoicesValid(s.form)
    ensures ChoicesValid(Run(s, actions).form)
    decreases |actions|
  {
    if actions != [] {
      StepKeepsChoices(s, actions[0]);
      RunKeepsChoices(Step(s, actions[0]), actions[1..]);
    }
  }

  /** No action empties the start date: the start picker only ever writes a full date. */
  lemma StepKeepsStartDate(s: CreateScreen, a: Action)
    requires s.form.baslangicTarihi != ""
    ensures Step(s, a).form.baslangicTarihi != ""
  {
    if a.PickBaslangic? && a.selected.Some? {
      FormatDateLength(a.selected.value);
    }
  }

  lemma {:induction false} RunKeepsStartDate(s: CreateScreen, actions: seq<Action>)
    requires s.form.baslangicTarihi != ""
    ensures Run(s, actions).form.baslangicTarihi != ""
    decreases |actions|
  {
    if actions != [] {
      StepKeepsStartDate(s, actions[0]);
      RunKeepsStartDate(Step(s, actions[0]), actions[1..]);
    }
  }

  /** The text of a date field: the stored date, or the placeholder when there is none. */
  function DateFieldText(date: string): (shown: string)
    ensures date != "" ==> shown == date
    ensures date == "" ==> shown == DatePlaceholder
  {
    if date != "" then date else DatePlaceholder
  }

  const DatePlaceholder := "YYYY-AA-GG"

  /** The start date is always set, so its field always shows a date, never the placeholder. */
  lemma StartDateAlwaysSet(today: PickedDate, actions: seq<Action>)
    ensures var f := Run(InitialScreen(today), actions).form;
      f.baslangicTarihi != "" && DateFieldText(f.baslangicTarihi) == f.baslangicTarihi
  {
    FormatDateLength(today);
    RunKeepsStartDate(InitialScreen(today), actions);
  }

  /** The body of the creation request. */
  datatype Payload = Payload(
    abonelikAdi: string, odemeMiktari: real, odemeBirimi: string,
    bitisTarihi: string, frequency: string, last4Digits: string,
    cardName: string, baslangicTarihi: string, odemeTarihi: string)

  /**
    The payload shaping of `handleSubmit`, with the stored token's presence as
    `hasToken` and `parseFloat` of the amount text as `amount`: without a token
    nothing is sent; otherwise every form field goes along as it is, except the
    amount, which is sent as the number, and the payment date, which is the
    start date.
   */
  function SubmitPayload(f: CreateForm, hasToken: bool, amount: real): (p: Option<Payload>)
    ensures p.None? <==> !hasToken
    ensures p.Some? ==>
      && p.value.odemeTarihi == f.baslangicTarihi
      && p.value.baslangicTarihi == f.baslangicTarihi
      && p.value.odemeMiktari == amount
      && p.value.abonelikAdi == f.abonelikAdi && p.value.odemeBirimi == f.odemeBirimi
      && p.value.bitisTarihi == f.bitisTarihi && p.value.frequency == f.frequency
      && p.value.last4Digits == f.last4Digits && p.value.cardName == f.cardName
  {
    if !hasToken then None
    else Some(Payload(f.abonelikAdi, amount, f.odemeBirimi, f.bitisTarihi, f.frequency,
                      f.last4Digits, f.cardName, f.baslangicTarihi, f.baslangicTarihi))
  }

  /**
    After a start date is picked, the payment date sent splits at its dashes
    into the picked year, month (numbered from 1) and day.
   */
  lemma PaymentDateIsPickedDate(s: CreateScreen, d: PickedDate, amount: real)
    requires IsCalendarDate(d)
    ensures var p := SubmitPayload(HandleBaslangicDateChange(s, Some(d)).form, true, amount);
      && p.Some?
      && var parts := Split(p.value.odemeTarihi, '-');
      && |parts| == 3
      && AllDigits(parts[0]) && AllDigits(parts[1]) && AllDigits(parts[2])
      && DecimalValue(parts[0]) == d.year
      && DecimalValue(parts[1]) == d.month + 1
      && DecimalValue(parts[2]) == d.day
  {
    FormatDateReadsBack(d);
  }

  /** Sent on the mounted form, the payment date is today. */
  lemma FirstPaymentIsToday(today: PickedDate, amount: real)
    requires IsCalendarDate(today)
    ensures var p := SubmitPayload(InitialScreen(today).form, true, amount);
      && p.Some?
      && var parts := Split(p.value.odemeTarihi, '-');
      && |parts| == 3
      && AllDigits(parts[0]) && AllDigits(parts[1]) && AllDigits(parts[2])
      && DecimalValue(parts[0]) == today.year
      && DecimalValue(parts[1]) == today.month + 1
      && DecimalValue(parts[2]) == today.day
  {
    FormatDateReadsBack(today);
  }
}
