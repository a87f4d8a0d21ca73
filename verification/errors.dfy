// Stable wire error codes (the ones the modelled operations raise).
module Errors {
  datatype ErrorCode =
    | MessageTooLarge | MalformedJson | MalformedEnvelope | ModuleVersionUnsupported
    | TargetModuleMismatch | UnsupportedOperation | InvalidField | SignatureMissing
    | PayloadTooLarge | PayloadHashMismatch | InvalidExpiry | ExpiryWindowTooLarge
    | MessageExpired | TimestampFutureSkewExceeded | PublicKeyInvalid | SignatureInvalid
    | Unauthorized | MessageIdConflict | ReplayResponseUnavailable | InternalError
    | PayloadInvalid | InvalidName | InvalidModuleName | NameAlreadyBound | NameNotFound
    | IdentityNotFound | ModuleNotFound | ModuleNameReserved | ModuleAlreadyRegistered
    | IdentityMismatch | InvalidRoute | DialNotFound | InvalidStatus
    | GenesisOperationsNotAllowed | GenesisChallengeRejected | GenesisCompletionRejected
    | GenesisResetRejected
}
