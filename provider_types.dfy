/** The records the access-controlled provider returns to its callers, and the
 *  identities the host supplies with every call.
 */
module ProviderTypes {

  /** A signed 32-bit return code. */
  newtype i32 = x: int | -0x8000_0000 <= x < 0x8000_0000

  /** The return code of a call that did not fail. */
  const SUCCESS_CODE: i32 := 0

  datatype Status = Status(isRegistered: bool)

  /** Result of register and remove. */
  datatype ProviderServiceResult = ProviderServiceResult(retCode: i32, errMsg: string)

  /** Result of get_status. */
  datatype GetStatusServiceResult = GetStatusServiceResult(retCode: i32, errMsg: string, status: Status)

  /** The identities the host attaches to a call: who started it and who created the service. */
  datatype CallParameters = CallParameters(initPeerId: string, serviceCreatorPeerId: string)
}
