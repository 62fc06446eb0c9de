/**
 * The configuration record read by the error handler
 * (workspace/libs/shared/error-handler/src/lib/models/error-handling-config.model.ts).
 * It is plain data: nothing validates it, neither here nor in the service.
 */
module Config {
  import opened Wrappers

  /** Settings of the remote sink: where records go and the key they carry. */
  datatype ExternalLoggingConfig = ExternalLoggingConfig(apiKey: string, endpoint: string)

  /** The whole configuration; `externalLoggingConfig` is an optional property. */
  datatype ErrorHandlingConfig = ErrorHandlingConfig(
    applicationName: string,
    includeDefaultErrorHandling: bool,
    externalLoggingConfig: Option<ExternalLoggingConfig>
  )
}
