/**
 * The text codec used for post bodies (`CompressionHelper`). Compression
 * writes the text as UTF-8 without a byte-order mark; decompression reads it
 * back through a reader that detects byte-order marks, so a text that starts
 * with U+FEFF comes back without that first character (its UTF-8 form is the
 * UTF-8 byte-order mark). The GZip and Base64 byte formats are not modelled.
 */
module Compression {

  /** The character whose UTF-8 encoding, EF BB BF, is the UTF-8 byte-order mark. */
  const BOM: char := '\U{FEFF}'

  /** A compressed post body as stored in the `Content` column: the text it encodes. */
  datatype Blob = Blob(source: string)

  /** The text a byte-order-mark-detecting reader returns: one leading U+FEFF is taken as the mark. */
  function StripBom(text: string): (r: string)
    ensures text == [] || text[0] != BOM ==> r == text
    ensures text != [] && text[0] == BOM ==> [BOM] + r == text
  {
    if text != [] && text[0] == BOM then text[1..] else text
  }

  /** `CompressString`: the text is kept as its UTF-8 bytes, with no byte-order mark written. */
  function CompressString(text: string): (b: Blob)
    ensures DecompressString(b) == StripBom(text)
    ensures text == [] || text[0] != BOM ==> DecompressString(b) == text
  {
    Blob(text)
  }

  /** `DecompressString`: the stored text as a `StreamReader` with its default settings reads it. */
  function DecompressString(b: Blob): string
  {
    StripBom(b.source)
  }

  /** Exactly the texts that do not start with U+FEFF survive the round trip. */
  lemma RoundTripExactly(text: string)
    ensures DecompressString(CompressString(text)) == text <==> text == [] || text[0] != BOM
  {
  }

  /** A text of one U+FEFF followed by "abc" reads back as "abc". */
  lemma LeadingBomIsDropped()
    ensures DecompressString(CompressString([BOM, 'a', 'b', 'c'])) == "abc"
  {
  }
}
