/**
 * The code the renderer calls but that is not part of this model, as an
 * environment of function values: the image loader (network, decoding) and
 * the string and validation helpers. Each is deterministic in the model.
 */
module Collaborators {
  import opened Wrappers
  import opened Canvas

  /** What the username fitter returns: the (possibly shortened) text, the chosen size and its measured width. */
  datatype Fit = Fit(text: string, size: real, width: real)

  datatype Env = Env(
    /** `loadImage`: None when the promise rejects. */
    loadImage: string -> Option<Image>,
    /** `parseImg`, `parsePng`, `parseHex` from the validation helpers. */
    parseImg: string -> string,
    parsePng: string -> string,
    parseHex: string -> string,
    /** `abbreviateNumber` from the string helpers. */
    abbreviate: real -> string,
    /** `ctx.measureText(text).width` under the given font. */
    measureText: (Font, string) -> real,
    /** `parseUsername(text, ctx, family, startSize, maxWidth)`. */
    parseUsername: (string, string, real, real) -> Fit,
    /** `getDateOrString(customDate, createdTimestamp, localDateType)`. */
    dateOrString: (string, int, string) -> string
  )
}
