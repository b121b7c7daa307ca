/** app/domain/documents/source_type.py. */
module SourceTypes {
  import opened Prelude

  datatype SourceType =
    | Pdf | Word | Excel | Powerpoint | Markdown | Text | Html | Image | Email
    | Notion | Confluence | Github | Database | Api | Web

  /** `_EXTENSION_MAP`. */
  const EXTENSION_MAP: map<string, SourceType> := map[
    "pdf" := Pdf, "doc" := Word, "docx" := Word, "rtf" := Word,
    "xls" := Excel, "xlsx" := Excel, "csv" := Excel, "ppt" := Powerpoint, "pptx" := Powerpoint,
    "md" := Markdown, "markdown" := Markdown, "txt" := Text, "html" := Html, "htm" := Html,
    "png" := Image, "jpg" := Image, "jpeg" := Image, "gif" := Image, "webp" := Image, "tiff" := Image,
    "eml" := Email, "msg" := Email]

  function FromExtension(extension: string): SourceType {
    var key := Lower(StripDots(extension));
    if key in EXTENSION_MAP then EXTENSION_MAP[key] else Text
  }
}
