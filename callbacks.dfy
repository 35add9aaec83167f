/** Callback payloads as the handlers compare them: each payload a keyboard of
    any revision sends gets its own action, and every other payload (or a
    missing one) is `Other`. */
module Callbacks {
  import opened Wrappers
  import BotKeyboards

  datatype Action =
    | ConfirmPassport | RetryPassport | ManualPassport
    | ConfirmVehicleFront | RetryVehicleFront
    | ConfirmVehicleBack | RetryVehicleBack
    | ConfirmVehicleDoc | ManualVehicle
    | ConfirmVehicle | RetryVehicle
    | AgreePrice | DeclinePrice | Restart
    | Other

  /** The payload string of an action; `confirmVehicle` and `retryVehicle`
      are the original revision's single-document payloads. */
  function Payload(a: Action): string
    requires !a.Other?
  {
    match a
    case ConfirmPassport => "confirmPassport"
    case RetryPassport => "retryPassport"
    case ManualPassport => "manualPassport"
    case ConfirmVehicleFront => "confirmVehicleFront"
    case RetryVehicleFront => "retryVehicleFront"
    case ConfirmVehicleBack => "confirmVehicleBack"
    case RetryVehicleBack => "retryVehicleBack"
    case ConfirmVehicleDoc => "confirmVehicleDoc"
    case ManualVehicle => "manualVehicle"
    case ConfirmVehicle => "confirmVehicle"
    case RetryVehicle => "retryVehicle"
    case AgreePrice => "agreePrice"
    case DeclinePrice => "declinePrice"
    case Restart => "restart"
  }

  /** The action a `switch (callbackData)` selects; a null payload matches no
      case. */
  function Decode(data: Option<string>): (a: Action)
    ensures !a.Other? ==> data == Some(Payload(a))
  {
    if data.None? then Other
    else
      var d := data.value;
      if d == "confirmPassport" then ConfirmPassport
      else if d == "retryPassport" then RetryPassport
      else if d == "manualPassport" then ManualPassport
      else if d == "confirmVehicleFront" then ConfirmVehicleFront
      else if d == "retryVehicleFront" then RetryVehicleFront
      else if d == "confirmVehicleBack" then ConfirmVehicleBack
      else if d == "retryVehicleBack" then RetryVehicleBack
      else if d == "confirmVehicleDoc" then ConfirmVehicleDoc
      else if d == "manualVehicle" then ManualVehicle
      else if d == "confirmVehicle" then ConfirmVehicle
      else if d == "retryVehicle" then RetryVehicle
      else if d == "agreePrice" then AgreePrice
      else if d == "declinePrice" then DeclinePrice
      else if d == "restart" then Restart
      else Other
  }

  /** Every action is selected by its own payload and by no other: `Decode`
      undoes `Payload`. */
  lemma DecodePayload(a: Action)
    requires !a.Other?
    ensures Decode(Some(Payload(a))) == a
  {
  }

  /** Every payload of the keyboards selects a named action. */
  lemma VocabularyDecodes(d: string)
    requires d in BotKeyboards.Vocabulary
    ensures !Decode(Some(d)).Other?
  {
  }
}
