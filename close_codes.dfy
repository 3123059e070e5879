/** The description of a WebSocket close code (webapp/src/api.js,
    `getErrorMessage`), covering the codes of section 7.4.1 of RFC 6455. */
module WebApi {
  import opened Common

  /** The codes in the table `getErrorMessage` builds: 1000 to 1011 and
      1015. */
  predicate Listed(code: int)
  {
    1000 <= code <= 1011 || code == 1015
  }

  /** The first word of the table's description of a listed code. */
  function Opening(code: int): (r: string)
    requires Listed(code)
    ensures |r| > 0
  {
    match code
    case 1000 => "Normal"
    case 1001 => "An"
    case 1002 => "An"
    case 1003 => "An"
    case 1004 => "Reserved."
    case 1005 => "No"
    case 1006 => "The"
    case 1007 => "An"
    case 1008 => "An"
    case 1009 => "An"
    case 1010 => "An"
    case 1011 => "A"
    case _ => "The"
  }

  /** The rest of the table's description of a listed code, from the space
      after its first word. */
  function Remainder(code: int): string
    requires Listed(code)
  {
    match code
    case 1000 =>
      " closure, meaning that the purpose for which the connection was"
      + " established has been fulfilled."
    case 1001 =>
      " endpoint is \"going away\", such as a server going down or a"
      + " browser having navigated away from a page."
    case 1002 =>
      " endpoint is terminating the connection due to a protocol error"
    case 1003 =>
      " endpoint is terminating the connection because it has received"
      + " a type of data it cannot accept (e.g., an endpoint that understands"
      + " only text data MAY send this if it receives a binary message)."
    case 1004 =>
      " The specific meaning might be defined in the future."
    case 1005 =>
      " status code was actually present."
    case 1006 =>
      " connection was closed abnormally, e.g., without sending or receiving"
      + " a Close control frame"
    case 1007 =>
      " endpoint is terminating the connection because it has received"
      + " data within a message that was not consistent with the type"
      + " of the message (e.g., non-UTF-8 [https://www.rfc-editor.org/rfc/rfc3629]"
      + " data within a text message)."
    case 1008 =>
      " endpoint is terminating the connection because it has received"
      + " a message that \"violates its policy\". This reason is given"
      + " either if there is no other sutible reason, or if there is a"
      + " need to hide specific details about the policy."
    case 1009 =>
      " endpoint is terminating the connection because it has received"
      + " a message that is too big for it to process."
    case 1010 =>
      " endpoint (client) is terminating the connection because it has"
      + " expected the server to negotiate one or more extension, but"
      + " the server didn't return them in the response message of the"
      + " WebSocket handshake."
    case 1011 =>
      " server is terminating the connection because it encountered"
      + " an unexpected condition that prevented it from fulfilling the"
      + " request."
    case _ =>
      " connection was closed due to a failure to perform a TLS handshake"
      + " (e.g., the server certificate can't be verified)."
  }

  /** The table's description of a listed code, which is never empty. */
  function Description(code: int): (r: string)
    requires Listed(code)
    ensures |r| > 0
  {
    Opening(code) + Remainder(code)
  }

  /** `errorMessages[code]`: undefined for a code not in the table. The
      table is rebuilt identically on every call, so this depends on `code`
      alone. */
  function TableEntry(code: int): Option<string>
  {
    if Listed(code) then Some(Description(code)) else None
  }

  /** `getErrorMessage(code)`: the table's entry, or "Unknown reason" when
      the code has none (an empty entry would fall back too). */
  function GetErrorMessage(code: int): (r: string)
    ensures |r| > 0
    ensures TableEntry(code).Some? && |TableEntry(code).value| > 0 ==> r == TableEntry(code).value
    ensures TableEntry(code).None? ==> r == "Unknown reason"
  {
    var entry := TableEntry(code);
    if entry.Some? && |entry.value| > 0 then entry.value else "Unknown reason"
  }

  /** Every description in the table is non-empty, so each listed code gets
      its own description and never the fallback. */
  lemma ListedCodesAreDescribed(code: int)
    requires Listed(code)
    ensures GetErrorMessage(code) == Description(code)
  {
  }

  /** Codes 1012 to 1014 and every code outside 1000 to 1015 are unknown. */
  lemma UnlistedCodesAreUnknown(code: int)
    requires code < 1000 || 1012 <= code <= 1014 || code > 1015
    ensures GetErrorMessage(code) == "Unknown reason"
  {
  }
}
