/** The optional value used for "no candidate", "no PIN" and "no OCR reading". */
module Options {

  datatype Option<+T> = None | Some(value: T)
}
