/**
  The WordPress and PHP library functions the plugin calls without this
  model defining them: `sanitize_text_field`, `esc_attr`, `md5`,
  `base64_encode` and `json_decode`. They are supplied as one record of
  functions, so every statement about them holds whatever they compute.
 */
module Foreign {
  import opened Php

  datatype Host = Host(
    sanitizeTextField: string -> string,
    escAttr: string -> string,
    md5: string -> string,
    base64Encode: string -> string,
    jsonDecode: string -> Json)

  /**
    `esc_attr` replaces `&`, `<`, `>`, `"` and `'` by HTML entities; none of
    those entities holds a `*`, so on well-formed UTF-8 it neither adds nor
    removes one.
   */
  ghost predicate EscAttrKeepsStars(host: Host) {
    forall s :: '*' in host.escAttr(s) <==> '*' in s
  }
}
