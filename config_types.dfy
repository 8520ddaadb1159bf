/** The configuration records shared by the client and the two
    configuration loaders (src/config/types.ts). */
module ConfigTypes {
  import opened Wrappers

  /** The optional rate-limit settings of a configuration. */
  datatype RateLimit = RateLimit(maxRequests: int, timeWindow: int)

  /** `VikunjaConfig`: where the API is, the token to send, and optional
      rate-limit settings. */
  datatype VikunjaConfig = VikunjaConfig(apiUrl: string, token: string, rateLimit: Option<RateLimit>)

  /** `ConfigError`: a code, a message and the dotted path of the offending
      field. */
  datatype ConfigError = ConfigError(code: string, message: string, field: Option<string>)
}
