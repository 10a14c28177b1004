/** `validateOptions` (integration.js:192-205): the single rule on the API key. */
module Validation {
  import opened Json

  /** One option as the host passes it: its current value, of any JSON type. */
  datatype OptionSetting = OptionSetting(value: Value)

  /** The user options of the integration. */
  datatype UserOptions = UserOptions(url: OptionSetting, apiKey: OptionSetting)

  /** One entry of the list handed back to the host. */
  datatype ValidationError = ValidationError(key: string, message: string)

  const ApiKeyMessage: string := "You must provide a valid API key"

  /**
   * No error when the API key is a non-empty string; otherwise exactly one,
   * naming the `apiKey` option.
   */
  function ValidateOptions(options: UserOptions): (errors: seq<ValidationError>)
    ensures |errors| <= 1
    ensures errors == [] <==> options.apiKey.value.Str? && options.apiKey.value.s != ""
    ensures errors != [] ==> errors[0] == ValidationError("apiKey", ApiKeyMessage)
  {
    var value := options.apiKey.value;
    if !value.Str? || (value.Str? && |value.s| == 0) then
      [ValidationError("apiKey", ApiKeyMessage)]
    else
      []
  }
}
