/** The exceptions the modelled Python code raises, by kind. */
module Errors {

  datatype Error =
    /** `ayon_core.pipeline.KnownPublishError` */
    | KnownPublishError(message: string)
    /** `ayon_core.pipeline.PublishValidationError` */
    | PublishValidationError(message: string)
    /** `KeyError` raised by `d[key]` on a missing key */
    | KeyError(key: string)
    /** `IndexError` raised by `xs[i]` outside the list */
    | IndexError
    /** `ValueError`, e.g. from `int()` on a non-number */
    | ValueError(message: string)
    /** `TypeError`, e.g. item assignment on a value that is not a dict */
    | TypeError
    /** `AttributeError`, e.g. `.get` on a value that is not a dict */
    | AttributeError
    /** `re.error`, raised while parsing a replacement template */
    | ReError(message: string)
    /** `NotImplementedError` */
    | NotImplementedError(message: string)
}
