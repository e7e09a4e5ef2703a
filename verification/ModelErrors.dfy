/** The normalised model error codes and the families the callers branch on. */
module ModelErrors {
  datatype ErrorCode =
    | MissingModelConfig | MissingApiKey | UnsupportedProvider | UnsupportedProtocol
    | AuthenticationFailed | PermissionDenied | ModelNotFound | RateLimited | QuotaExceeded
    | ContextLengthExceeded | Timeout | NetworkError | ProviderServerError | TemporaryUnavailable
    | InvalidRequest | InvalidPrompt | InvalidJson | SchemaInvalid | JsonRepairFailed
    | BlockedByPolicy | UserCancelled | ModelCallFailed | EmbeddingFailed | CompressionFailed
    | UnknownError

  /** `RETRYABLE_MODEL_ERROR_CODES`. */
  predicate Retryable(code: ErrorCode) {
    code.Timeout? || code.RateLimited? || code.NetworkError? || code.ProviderServerError? || code.TemporaryUnavailable?
  }

  /** Codes that blame the credential rather than the candidate. */
  predicate BlamesCredential(code: ErrorCode) {
    code.AuthenticationFailed? || code.PermissionDenied? || code.MissingApiKey? || code.QuotaExceeded?
  }

  /** `is_fallback_allowed`. */
  predicate FallbackAllowed(code: ErrorCode) {
    !code.BlockedByPolicy? && !code.InvalidPrompt? && !code.UserCancelled?
  }
}
