/** Optional values and the failures the panels can raise. */
module Results {

  /** A value that may be absent (`undefined` in the panels). */
  datatype Option<+T> = None | Some(value: T)

  /** The outcome of an operation that can throw. */
  datatype Result<+T> = Ok(value: T) | Err(error: Error)

  /** Every exception the modelled code can raise. */
  datatype Error =
    | ThemeIndexOutOfRange(index: int)   // `Styles[index]` is undefined, so reading `.style` throws
    | UnknownLanguage(language: string)  // highlight.js has no grammar of that name
    | TextNodeWithoutParent              // a text node reached the measuring pass without a parent element
    | UnknownImage(imageId: string)      // `images[imageId]` is undefined, so reading `.imageSrc` throws
}
