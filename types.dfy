/** The two record shapes the server exchanges with its client. */
module Types {
  import opened Wrappers

  /** One uploaded file as the server receives it; `name` may be absent. */
  datatype UploadedFile = UploadedFile(path: string, content: string, name: Option<string>)

  /** One converted file as the server returns it. */
  datatype ConvertedFile = ConvertedFile(path: string, content: string)
}
