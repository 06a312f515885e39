/** The outcome type of the authentication repository (auth/data/AuthRepository.kt).
    The Firebase calls behind it are not modelled: their outcomes are passed in. */
module AuthRepository {

  /** `AuthResult`: the signed-in user, reduced to its uid, or the error's message. */
  datatype AuthResult = AuthSuccess(uid: string) | AuthError(message: string)
}
