/**
 * The eSIM setup Universal Link both iOS entry points build from an
 * activation code.
 */
module UniversalLink {
  import opened Wrappers

  /** A parsed `URL`, identified by its text. */
  datatype Url = Url(text: string)

  /**
   * The Foundation calls the link construction depends on:
   * `addingPercentEncoding(withAllowedCharacters: .urlQueryAllowed)` and
   * `URL(string:)`, both of which may fail.
   */
  datatype Foundation = Foundation(
    percentEncode: string -> Option<string>,
    parseUrl: string -> Option<Url>)

  const Template := "https://esimsetup.apple.com/esim_qrcode_provisioning?carddata="

  /** The link text: the template, then the encoded code, or the raw code when encoding fails. */
  function LinkText(f: Foundation, code: string): (s: string)
    ensures |s| >= |Template| && s[..|Template|] == Template
    ensures f.percentEncode(code).Some? ==> s[|Template|..] == f.percentEncode(code).value
    ensures f.percentEncode(code).None? ==> s[|Template|..] == code
  {
    Template + f.percentEncode(code).GetOr(code)
  }

  /** The link, when the text parses as a URL. */
  function BuildLink(f: Foundation, code: string): Option<Url> {
    f.parseUrl(LinkText(f, code))
  }
}
