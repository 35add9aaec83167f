/** The inline keyboards the bot attaches to its prompts: each button has a
    label and the callback payload Telegram sends back when it is pressed. */
module BotKeyboards {

  datatype Button = Button(text: string, data: string)

  /** What a reply carries besides its text: nothing, an inline keyboard, or
      a keyboard the handler names but that is not defined anywhere. */
  datatype Markup =
    | NoMarkup
    | Inline(rows: seq<seq<Button>>)
    | Undefined(name: string)

  /** `InlineKeyboardButton.WithCallbackData(label, data)`. */
  function WithCallbackData(text: string, data: string): Button {
    Button(text, data)
  }

  /** The callback payloads of a keyboard, row by row, left to right. */
  function Payloads(m: Markup): (p: seq<string>)
    ensures m.Inline? ==> forall r, b :: r in m.rows && b in r ==> b.data in p
    ensures !m.Inline? ==> p == []
  {
    if m.Inline? then RowsPayloads(m.rows) else []
  }

  function RowsPayloads(rows: seq<seq<Button>>): (p: seq<string>)
    ensures forall r, b :: r in rows && b in r ==> b.data in p
  {
    if rows == [] then []
    else
      var head := RowPayloads(rows[0]);
      var rest := RowsPayloads(rows[1..]);
      assert forall r :: r in rows ==> r == rows[0] || r in rows[1..];
      head + rest
  }

  function RowPayloads(row: seq<Button>): (p: seq<string>)
    ensures |p| == |row| && forall i :: 0 <= i < |row| ==> p[i] == row[i].data
  {
    if row == [] then [] else [row[0].data] + RowPayloads(row[1..])
  }

  const PassportConfirmationKeyboard := Inline([
    [WithCallbackData("✅ Confirm", "confirmPassport"),
     WithCallbackData("🔄 Try again with photo", "retryPassport")],
    [WithCallbackData("✍️ Enter manual again", "manualPassport")]])

  const PassportExtractionFailedKeyboard := Inline([
    [WithCallbackData("🔄 Try again", "retryPassport")],
    [WithCallbackData("✍️ Enter manually", "manualPassport")]])

  const VehicleFrontConfirmationKeyboard := Inline([
    [WithCallbackData("✅ Confirm", "confirmVehicleFront"),
     WithCallbackData("🔄 Try again with photo", "retryVehicleFront")],
    [WithCallbackData("✍️ Enter manual again", "manualVehicle")]])

  const VehicleFrontExtractionFailedKeyboard := Inline([
    [WithCallbackData("🔄 Try again", "retryVehicleFront")],
    [WithCallbackData("✍️ Enter manually", "manualVehicle")]])

  const VehicleBackConfirmationKeyboard := Inline([
    [WithCallbackData("✅ Confirm", "confirmVehicleBack"),
     WithCallbackData("🔄 Try again with photo", "retryVehicleBack")],
    [WithCallbackData("✍️ Enter manual again", "manualVehicle")]])

  const VehicleBackExtractionFailedKeyboard := Inline([
    [WithCallbackData("🔄 Try again", "retryVehicleBack")],
    [WithCallbackData("✍️ Enter manually", "manualVehicle")]])

  const VehicleDocConfirmationKeyboard := Inline([
    [WithCallbackData("✅ Confirm", "confirmVehicleDoc"),
     WithCallbackData("🔄 Try again with photo", "retryVehicleFront")],
    [WithCallbackData("✍️ Enter manual again", "manualVehicle")]])

  const PriceConfirmationKeyboard := Inline([
    [WithCallbackData("✅ Accept", "agreePrice"),
     WithCallbackData("❌ Decline", "declinePrice")]])

  const DeclinedPriceOfferKeyboard := Inline([
    [WithCallbackData("✅ Accept", "agreePrice"),
     WithCallbackData("🔄 Start over", "restart")]])

  /** The callback vocabulary: confirm and retry for the passport, the two
      sides of the vehicle document and the whole vehicle document, the two
      manual-entry choices, and the price answers. */
  const Vocabulary: set<string> := {
    "confirmPassport", "retryPassport",
    "confirmVehicleFront", "retryVehicleFront",
    "confirmVehicleBack", "retryVehicleBack",
    "confirmVehicleDoc",
    "manualPassport", "manualVehicle",
    "agreePrice", "declinePrice", "restart"}

  lemma PassportConfirmationPayloads()
    ensures Payloads(PassportConfirmationKeyboard) == ["confirmPassport", "retryPassport", "manualPassport"]
  {
  }

  /** A confirming payload: one that accepts extracted or entered data. */
  predicate IsConfirmPayload(d: string) {
    |d| >= 7 && d[..7] == "confirm"
  }

  /** A keyboard shown after a failed extraction offers a retry and manual
      entry, and never a way to confirm. */
  lemma ExtractionFailedPayloads()
    ensures Payloads(PassportExtractionFailedKeyboard) == ["retryPassport", "manualPassport"]
    ensures Payloads(VehicleFrontExtractionFailedKeyboard) == ["retryVehicleFront", "manualVehicle"]
    ensures Payloads(VehicleBackExtractionFailedKeyboard) == ["retryVehicleBack", "manualVehicle"]
  {
  }

  lemma ExtractionFailedNeverConfirms()
    ensures forall d :: d in Payloads(PassportExtractionFailedKeyboard) ==> !IsConfirmPayload(d)
    ensures forall d :: d in Payloads(VehicleFrontExtractionFailedKeyboard) ==> !IsConfirmPayload(d)
    ensures forall d :: d in Payloads(VehicleBackExtractionFailedKeyboard) ==> !IsConfirmPayload(d)
  {
    ExtractionFailedPayloads();
    var retry, manual := "retryPassport", "manualPassport";
    assert retry[0] != 'c' && manual[0] != 'c';
    assert !IsConfirmPayload(retry) && !IsConfirmPayload(manual);
  }

  lemma VehicleConfirmationPayloads()
    ensures Payloads(VehicleFrontConfirmationKeyboard) == ["confirmVehicleFront", "retryVehicleFront", "manualVehicle"]
    ensures Payloads(VehicleBackConfirmationKeyboard) == ["confirmVehicleBack", "retryVehicleBack", "manualVehicle"]
    ensures Payloads(VehicleDocConfirmationKeyboard) == ["confirmVehicleDoc", "retryVehicleFront", "manualVehicle"]
  {
  }

  lemma PricePayloads()
    ensures Payloads(PriceConfirmationKeyboard) == ["agreePrice", "declinePrice"]
    ensures Payloads(DeclinedPriceOfferKeyboard) == ["agreePrice", "restart"]
  {
  }

  /** No keyboard offers a payload outside the callback vocabulary. */
  lemma PayloadsWithinVocabulary()
    ensures forall d :: d in Payloads(PassportConfirmationKeyboard) ==> d in Vocabulary
    ensures forall d :: d in Payloads(PassportExtractionFailedKeyboard) ==> d in Vocabulary
    ensures forall d :: d in Payloads(VehicleFrontConfirmationKeyboard) ==> d in Vocabulary
    ensures forall d :: d in Payloads(VehicleFrontExtractionFailedKeyboard) ==> d in Vocabulary
    ensures forall d :: d in Payloads(VehicleBackConfirmationKeyboard) ==> d in Vocabulary
    ensures forall d :: d in Payloads(VehicleBackExtractionFailedKeyboard) ==> d in Vocabulary
    ensures forall d :: d in Payloads(VehicleDocConfirmationKeyboard) ==> d in Vocabulary
    ensures forall d :: d in Payloads(PriceConfirmationKeyboard) ==> d in Vocabulary
    ensures forall d :: d in Payloads(DeclinedPriceOfferKeyboard) ==> d in Vocabulary
  {
    PassportConfirmationPayloads();
    ExtractionFailedPayloads();
    VehicleConfirmationPayloads();
    PricePayloads();
  }
}
