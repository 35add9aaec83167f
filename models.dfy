/** The records the newer revisions keep per chat (`CarInsuranceTelegramBot.Models`),
    and the conversation states of the two intermediate handler revisions. */
module Models {
  import opened Wrappers
  import Dates

  /** The stages of the intermediate revisions' conversation. */
  datatype ConversationState =
    | None
    | AwaitingPassport
    | EnteringPassportData
    | AwaitingVehicleFront
    | ConfirmingVehicleDocFront
    | AwaitingVehicleBack
    | ConfirmingVehicleDocBack
    | EnteringVehicleData
    | ConformingVehicleDoc
    | ConfirmingPassport
    | AwaitingPriceConfirmation
    | GeneratingPolicy
    | Completed

  /** Passport fields; the names are nullable, the dates are `DateTime`s at
      midnight. */
  datatype PassportData = PassportData(
    fullName: Option<string>,
    passportNumber: Option<string>,
    dateOfBirth: Dates.Date,
    issueDate: Dates.Date,
    expiryDate: Dates.Date)

  /** Vehicle fields; every one may be missing, since the front and the back
      of the registration document fill in different ones. */
  datatype VehicleData = VehicleData(
    vin: Option<string>,
    make: Option<string>,
    model: Option<string>,
    year: Option<int>,
    registrationNumber: Option<string>)

  /** `new VehicleData()`: nothing known yet. */
  const EmptyVehicle := VehicleData(Option.None, Option.None, Option.None, Option.None, Option.None)

  /** One chat's session, generic in the state enumeration so that the same
      store serves revisions with different enumerations. */
  datatype UserSession<State> = UserSession(
    chatId: int,
    state: State,
    passportData: Option<PassportData>,
    vehicleData: Option<VehicleData>,
    countryCode: Option<string>)

  /** `new UserSession { ChatId = chatId, State = state }`. */
  function NewSession<State>(chatId: int, state: State): (s: UserSession<State>)
    ensures s.chatId == chatId && s.state == state
    ensures s.passportData.None? && s.vehicleData.None? && s.countryCode.None?
  {
    UserSession(chatId, state, Option.None, Option.None, Option.None)
  }
}

/** The conversation states of the newest revision, which adds the country
    choice (the member name `AwaAwaitingVehicleCountry` is the source's). */
module UserDataModels {
  datatype ConversationState =
    | None
    | AwaitingPassport
    | EnteringPassportData
    | AwaAwaitingVehicleCountry
    | AwaitingVehicleFront
    | ConfirmingVehicleDocFront
    | AwaitingVehicleBack
    | ConfirmingVehicleDocBack
    | EnteringVehicleData
    | ConformingVehicleDoc
    | ConfirmingPassport
    | AwaitingPriceConfirmation
    | GeneratingPolicy
    | Completed
}

/** The records of the original project (`CarInsuranseTelegramBot.Models`):
    eight states, a vehicle record whose fields are all required, and a
    session without a country. */
module InsuranseModels {
  import opened Wrappers
  import Models

  datatype ConversationState =
    | None
    | AwaitingPassport
    | AwaitingVehicleDoc
    | ConfirmingPassport
    | ConfirmingVehicleDoc
    | AwaitingPriceConfirmation
    | GeneratingPolicy
    | Completed

  type PassportData = Models.PassportData

  datatype VehicleData = VehicleData(
    vin: string,
    make: string,
    model: string,
    year: int,
    registrationNumber: string)

  datatype UserSession = UserSession(
    chatId: int,
    state: ConversationState,
    passportData: Option<PassportData>,
    vehicleData: Option<VehicleData>)

  function NewSession(chatId: int, state: ConversationState): (s: UserSession)
    ensures s.chatId == chatId && s.state == state
    ensures s.passportData.None? && s.vehicleData.None?
  {
    UserSession(chatId, state, Option.None, Option.None)
  }
}
