/** The errors that cross the repository and service boundaries. */
module Errors {

  /** `utils.AppError{ErrorCode, ...}` codes are `GetServiceModuleCode() + "M" + "01" + "01"`. */
  const INVALID_ID_CODE: string := "SALES" + "M" + "01" + "01"

  const INVALID_CUSTOMER_MSG: string := "Invalid CustomerId"

  datatype Error =
    | NoDocuments              // mongo.ErrNoDocuments from FindOne
    | Driver(reason: string)   // any other driver or connection failure, passed through unchanged
    | MissingMember(key: string) // utils.GetMemberDataStr / utils.IsMemberExist on an absent key
    | AppError(code: string, msg: string)
    | ProcessExit(reason: string) // log.Fatal: the process stops, nothing is returned

  /** The outcome of one call into the document store driver, which the model cannot see. */
  datatype Io = Succeeds | Fails(reason: string)
}
