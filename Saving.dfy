/**
 * `saveBitmap`: the file extension and the compression format chosen from
 * the `outputFormat` option, and the `file://` URL handed back to the caller.
 */
module Saving {
  import Options

  datatype CompressFormat = JPEG | PNG

  /** The file extension `saveBitmap` chooses. */
  function Extension(format: string): (ext: string)
    ensures ext == "png" <==> format == "png"
    ensures ext == "png" || ext == "jpg"
  {
    if format == "png" then "png" else "jpg"
  }

  /** The `Bitmap.CompressFormat` `saveBitmap` chooses. */
  function CompressFormatFor(format: string): (f: CompressFormat)
    ensures f == PNG <==> format == "png"
  {
    if format == "png" then PNG else JPEG
  }

  /** Extension and codec always agree; only the exact string "png" selects PNG. */
  lemma ExtensionMatchesCodec(format: string)
    ensures Extension(format) == "png" <==> CompressFormatFor(format) == PNG
    ensures Extension(format) == "jpg" <==> CompressFormatFor(format) == JPEG
    ensures Extension("jpeg") == "jpg" && Extension("PNG") == "jpg" && Extension("webp") == "jpg"
  {
  }

  /** The URL `saveBitmap` returns for the file it wrote. */
  function Locator(absolutePath: string): (url: string)
    ensures "file://" <= url
  {
    "file://" + absolutePath
  }

  /** The URL of a processed image can be passed back as `imageUrl` and names the same file. */
  lemma FilePathOfLocator(absolutePath: string)
    ensures Options.FilePath(Locator(absolutePath)) == absolutePath
  {
  }
}
