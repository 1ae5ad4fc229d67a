/** Process configuration read by the services, and the error kinds they raise
    (`utils/exceptions.py`). A key counts as configured when it is non-empty. */
module Configuration {

  datatype Settings = Settings(
    openAiKey: string,
    groqKey: string,
    googleMapsKey: string,
    tavilyKey: string,
    debugLanguage: bool)

  /** The exception a call raises to its caller; `code` is the `error_code`. */
  datatype ServiceError =
    | MissingApiKey(key: string)
    | Upstream(code: string)
    | Timeout(code: string)
    | Network(code: string)
      /** A client-library exception the service lets through unchanged. */
    | Unhandled(what: string)
      /** A model constructor rejected its arguments (pydantic validation). */
    | Invalid(what: string)
}
