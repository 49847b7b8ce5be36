/** What the page hands to the handlers: the contents of the guess field, classified the
    way the handlers classify it (trim, then parseFloat / isNaN). */
module HostInput {

  datatype GuessField =
    | Blank            // the trimmed text is empty
    | NotANumber       // parsing gives NaN
    | Number(value: real)
}
