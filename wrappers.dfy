/** Optional values, for the fields a record may leave out and for operations
    that can fail. */
module Wrappers {
  datatype Option<+T> = None | Some(value: T)
}

/** The JSON text that a form keeps for the popup that shows it. The text
    formatting of `JSON.stringify` is not modelled: a value is either the empty
    string the form starts with, or the serialisation of one record, which
    `JSON.parse` gives back unchanged. */
module Json {
  datatype Trama<+T> = Vacia | Serializada(valor: T)
}
