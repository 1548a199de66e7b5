/** The upload filter handed to multer: which uploaded files are kept. */
module MulterConfig {
  import opened Js

  /** The two arguments the filter passes to multer's callback. */
  datatype Verdict = Verdict(error: Value, accept: bool)

  const ImageTypes: seq<string> := ["image/png", "image/jpg", "image/jpeg"]

  /** `fileFilter(req, file, cb)`: the field `rulesFile` takes PDFs, every other field
      takes PNG and JPEG images. Only the field name and the media type are read. */
  function FileFilter(fieldname: string, mimetype: string): (v: Verdict)
    ensures v.error == Null
  {
    if fieldname == "rulesFile" then Verdict(Null, mimetype == "application/pdf")
    else Verdict(Null, mimetype in ImageTypes)
  }

  /** A PDF is refused under any field other than `rulesFile`, an image is refused
      under `rulesFile`, and only four media types are ever accepted. */
  lemma CrossedTypesRejected(fieldname: string, mimetype: string)
    ensures fieldname != "rulesFile" ==> !FileFilter(fieldname, "application/pdf").accept
    ensures !FileFilter("rulesFile", "image/png").accept
    ensures !FileFilter("rulesFile", "image/jpeg").accept
    ensures FileFilter(fieldname, mimetype).accept ==>
      mimetype in ["application/pdf", "image/png", "image/jpg", "image/jpeg"]
  {
  }
}
