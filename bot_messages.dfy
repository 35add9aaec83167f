/** The texts the newest revision sends, and the state-dependent reminder it
    falls back to when it cannot make sense of a message. */
module BotMessages {
  import opened UserDataModels
  import Models

  /** The fixed texts, by their names in the message table. */
  datatype Message =
    | StartMessage | ErrorOccurred | UnrecognizedCommand | PolicyAlreadyIssued
    | InvalidActionContext | PhotoProcessingFailed | MissingPolicyDataError
    | DeclinedPriceOffer
    | AwaitingPassportPhoto | ManualPassportDataPrompt | PassportDataFormatError
    | PassportDateParseError | PassportExtractionFailed | PassportConfirmedPromptVehicleFront
    | AwaitingVehicleFrontPhoto | VehicleFrontPhotoExtractionFailed
    | VehicleFrontConfirmedPromptVehicleBack | AwaitingVehicleBackPhoto
    | ManualVehicleDataPrompt | ManualVehicleDataFormatError | VehicleYearParseError
    | UnrecognizedPrefix

  /** The wording of each fixed text; `UnrecognizedPrefix` opens every
      reminder. */
  function Wording(m: Message): string {
    match m
    case StartMessage => "👋 Hi there! I'm your car insurance bot. \nTo get started, please send me a clear photo of your *passport*. 🛂"
    case ErrorOccurred => "Oops! 😟 Something went wrong. Please try again, or use /start to begin a new session."
    case UnrecognizedCommand => "I don't recognize that command. 🚫 Use /start to begin a new session."
    case PolicyAlreadyIssued => "Your insurance policy has already been issued. 🎉 Use /start to purchase a new policy."
    case InvalidActionContext => "This action isn't valid right now. ❌ Please follow the options provided messages upper or use /start to begin a new session."
    case PhotoProcessingFailed => "I couldn't process that photo. 📸 Please try again with a clearer image."
    case MissingPolicyDataError => "Sorry, I'm missing some data to generate your policy. 😔 Please start over with /start."
    case DeclinedPriceOffer => "Unfortunately, we don't have different pricing options available at this time. 🤷‍♀️"
    case AwaitingPassportPhoto => "Let's try again. Please send a clear photo of your *passport*. 🛂"
    case ManualPassportDataPrompt => "Please enter your passport data in the following format: \n\n*Full Name;Passport Number;Date Of Birth;Issue Date;Expiry Date*\n\nExample date format: `31.12.2000`"
    case PassportDataFormatError => "❌ Wrong format! Please ensure you follow this example:\n\n*Full Name;Passport Number;Date Of Birth;Date Of Issue;Date Of Expire*\n\nDate format example: `31.12.2000`"
    case PassportDateParseError => "Can't read the date. 🗓️ Please ensure the date is  correct date, you follow `dd.MM.yyyy` date format and than try again."
    case PassportExtractionFailed => "I couldn't extract data from your passport photo. What would you like to do? 👇"
    case PassportConfirmedPromptVehicleFront => "Excellent! Passport confirmed. ✅ Now, choose the country for vehicle documents"
    case AwaitingVehicleFrontPhoto => "Please send a clear photo of the *front side* of your vehicle registration. 📸"
    case VehicleFrontPhotoExtractionFailed => "I couldn't extract data from the vehicle front photo. What's next? 👇"
    case VehicleFrontConfirmedPromptVehicleBack => "Great! Front side confirmed. ✅ Now, please send a clear photo of the *back side* of your vehicle registration document. 🔙"
    case AwaitingVehicleBackPhoto => "Next please send a clear photo of the *back side* of your vehicle registration. 📸"
    case ManualVehicleDataPrompt => "Please enter your vehicle data in the following format: \n\n*VIN;Make;Model;Year;Registration number*"
    case ManualVehicleDataFormatError => "❌ Wrong input! Please follow this example:\n\n*VIN;Make;Model;Year;Registration number*"
    case VehicleYearParseError => "Can't read the year. 🗓️ Please ensure the year is a valid number and try again following the example:\n\n*VIN;Make;Model;Year;Registration number*"
    case UnrecognizedPrefix => "I didn't quite understand that. 🤔 Please follow the current instruction:\n\n"
  }

  /** The body of an outgoing message: a fixed text (worded by `Wording`), a
      computed one, the reminder for a state (worded by
      `GetUnrecognizedMessage`), or one of the messages that render a record
      (their culture-dependent date and currency formatting is not
      modelled). */
  datatype Body =
    | Plain(message: Message)
    | Text(text: string)
    | Reminder(state: ConversationState)
    | PassportDataExtracted(passport: Models.PassportData)
    | VehicleDataConfirmationPrompt(vehicle: Models.VehicleData)
    | PriceConfirmationPrompt(price: int)
    | PolicyGenerationSuccess

  /** The confirmation prompt after manual entry shows the same summary as
      after extraction. */
  function PassportDataConfirmationPrompt(p: Models.PassportData): (b: Body)
    ensures b.PassportDataExtracted? && b.passport == p
  {
    PassportDataExtracted(p)
  }

  /** The instruction a reminder ends with. */
  datatype Hint =
    | SendPassportPhoto | EnterPassportData | ConfirmPassportData
    | ChooseVehicleCountry | SendVehicleFront | SendVehicleBack
    | EnterVehicleData | ConfirmVehicleData | AnswerPriceOffer | UseStart

  /** Which instruction the reminder gives in `state`. */
  function HintFor(state: ConversationState): Hint {
    match state
    case AwaitingPassport => SendPassportPhoto
    case EnteringPassportData => EnterPassportData
    case ConfirmingPassport => ConfirmPassportData
    case AwaAwaitingVehicleCountry => ChooseVehicleCountry
    case AwaitingVehicleFront => SendVehicleFront
    case AwaitingVehicleBack => SendVehicleBack
    case EnteringVehicleData => EnterVehicleData
    case ConformingVehicleDoc => ConfirmVehicleData
    case AwaitingPriceConfirmation => AnswerPriceOffer
    case _ => UseStart
  }

  /** The wording of each instruction; the input prompts are reused. */
  function HintText(h: Hint): string {
    match h
    case SendPassportPhoto => Wording(AwaitingPassportPhoto)
    case EnterPassportData => Wording(ManualPassportDataPrompt)
    case ConfirmPassportData => "Please confirm if the extracted passport data is correct using the buttons upper message."
    case ChooseVehicleCountry => "Please choose the country for your vehicle documents using the buttons upper message."
    case SendVehicleFront => Wording(AwaitingVehicleFrontPhoto)
    case SendVehicleBack => Wording(AwaitingVehicleBackPhoto)
    case EnterVehicleData => Wording(ManualVehicleDataPrompt)
    case ConfirmVehicleData => "Please confirm if the extracted vehicle data is correct using the buttons upper message."
    case AnswerPriceOffer => "Please agree or decline the insurance price using the buttons upper message. Available only provided prices"
    case UseStart => "Please use /start to begin a new session."
  }

  /** The reminder for `state`: the fixed prefix followed by exactly the
      instruction for that state. */
  function GetUnrecognizedMessage(state: ConversationState): (m: string)
    ensures |m| >= |Wording(UnrecognizedPrefix)|
    ensures m[..|Wording(UnrecognizedPrefix)|] == Wording(UnrecognizedPrefix)
    ensures m[|Wording(UnrecognizedPrefix)|..] == HintText(HintFor(state))
  {
    var p, t := Wording(UnrecognizedPrefix), HintText(HintFor(state));
    assert |p + t| == |p| + |t|;
    p + t
  }

  /** The states that prompt for input are reminded of that prompt. */
  lemma PromptStates(state: ConversationState)
    ensures var hint := GetUnrecognizedMessage(state)[|Wording(UnrecognizedPrefix)|..];
      && (state == AwaitingPassport ==> hint == Wording(AwaitingPassportPhoto))
      && (state == EnteringPassportData ==> hint == Wording(ManualPassportDataPrompt))
      && (state == AwaitingVehicleFront ==> hint == Wording(AwaitingVehicleFrontPhoto))
      && (state == AwaitingVehicleBack ==> hint == Wording(AwaitingVehicleBackPhoto))
      && (state == EnteringVehicleData ==> hint == Wording(ManualVehicleDataPrompt))
  {
  }

  /** Exactly the states without an instruction of their own are told to
      start over. */
  lemma UseStartStates(state: ConversationState)
    ensures HintFor(state) == UseStart <==>
      state in {ConversationState.None, ConfirmingVehicleDocFront, ConfirmingVehicleDocBack, GeneratingPolicy, Completed}
  {
  }

  /** Two states get the same reminder exactly when they get the same
      instruction text: the prefix never absorbs part of an instruction. */
  lemma {:induction false} SameReminderIffSameInstruction(a: ConversationState, b: ConversationState)
    ensures GetUnrecognizedMessage(a) == GetUnrecognizedMessage(b) <==> HintText(HintFor(a)) == HintText(HintFor(b))
  {
    var ma, mb := GetUnrecognizedMessage(a), GetUnrecognizedMessage(b);
    if ma == mb {
      assert HintText(HintFor(a)) == ma[|Wording(UnrecognizedPrefix)|..] == mb[|Wording(UnrecognizedPrefix)|..] == HintText(HintFor(b));
    }
  }
}
