/** The parsed JSON response body that the GraphQL error normaliser inspects,
    and the `JSON.stringify` rendering of an error list that it falls back on. */
module Json {
  import opened Wrappers

  /** A status code as it can appear in a normalised error: the server's
      `extensions.code` string, or the numeric fallback. */
  datatype StatusCode = Str(text: string) | Num(number: int)

  /** JavaScript truthiness of a status code: `""` and `0` are falsy. */
  predicate TruthyCode(c: StatusCode) {
    match c
    case Str(s) => s != ""
    case Num(n) => n != 0
  }

  /** The `extensions` object of a GraphQL error; only its `code` is read. */
  datatype Extensions = Extensions(code: Option<StatusCode>)

  /** One entry of the `errors` list. A missing (or null) `message` is `None`. */
  datatype GraphQLError = GraphQLError(message: Option<string>, extensions: Option<Extensions>)
  {
    /** `error?.extensions?.code` */
    function Code(): (r: Option<StatusCode>)
      ensures r.Some? <==> extensions.Some? && extensions.value.code.Some?
    {
      match extensions
      case None => None
      case Some(x) => x.code
    }
  }

  /** What the body holds under the key `"errors"`: no such key, the JSON
      value `null`, or a list of errors. */
  datatype ErrorsField = Absent | Null | List(errors: seq<GraphQLError>)

  /** A parsed response body: any falsy JSON value (`null`, `false`, `0`,
      `""`), or an object (an array behaves as an object without an
      `"errors"` key). */
  datatype Body = Falsy | Object(errors: ErrorsField)

  // ---------------------------------------------------------------------
  // JSON.stringify of the modelled fields

  const Quote: char := '"'

  /** The two lower-case hexadecimal digits of a value below 256. */
  function HexByte(n: nat): (r: string)
    requires n < 256
  {
    var digits := "0123456789abcdef";
    [digits[n / 16], digits[n % 16]]
  }

  /** JSON.stringify escapes the quote, the backslash and control characters. */
  predicate NeedsEscape(c: char) {
    c == Quote || c == '\\' || c as int < 0x20
  }

  /** JSON string escaping of one character, as JSON.stringify does it. */
  function EscapeChar(c: char): (r: string)
    ensures r == [c] <==> !NeedsEscape(c)
    ensures NeedsEscape(c) ==> |r| >= 2 && r[0] == '\\'
  {
    if c == Quote then "\\\""
    else if c == '\\' then "\\\\"
    else if c as int == 0x08 then "\\b"
    else if c as int == 0x0C then "\\f"
    else if c == '\n' then "\\n"
    else if c == '\r' then "\\r"
    else if c == '\t' then "\\t"
    else if c as int < 0x20 then "\\u00" + HexByte(c as int)
    else [c]
  }

  /** Escaping leaves a string without special characters as it is. */
  function Escape(s: string): (r: string)
    ensures (forall i :: 0 <= i < |s| ==> !NeedsEscape(s[i])) ==> r == s
  {
    if s == [] then "" else EscapeChar(s[0]) + Escape(s[1..])
  }

  /** A JSON string literal: quoted, and verbatim inside when nothing needs escaping. */
  function QuoteString(s: string): (r: string)
    ensures |r| >= 2 && r[0] == Quote && r[|r| - 1] == Quote
    ensures (forall i :: 0 <= i < |s| ==> !NeedsEscape(s[i])) ==> r == [Quote] + s + [Quote]
  {
    [Quote] + Escape(s) + [Quote]
  }

  /** Decimal rendering of a natural number, most significant digit first. */
  function NatText(n: nat): string
    decreases n
  {
    var d := "0123456789"[n % 10];
    if n < 10 then [d] else NatText(n / 10) + [d]
  }

  function IntText(n: int): string
  {
    if n < 0 then "-" + NatText(-n) else NatText(n)
  }

  function CodeText(c: StatusCode): string {
    match c
    case Str(s) => QuoteString(s)
    case Num(n) => IntText(n)
  }

  function ExtensionsText(x: Extensions): string {
    match x.code
    case None => "{}"
    case Some(c) => "{" + QuoteString("code") + ":" + CodeText(c) + "}"
  }

  /** The members of one error object: `message` first, then `extensions`. */
  function ErrorMembers(e: GraphQLError): seq<string> {
    (match e.message
     case None => []
     case Some(m) => [QuoteString("message") + ":" + QuoteString(m)])
    + (match e.extensions
       case None => []
       case Some(x) => [QuoteString("extensions") + ":" + ExtensionsText(x)])
  }

  /** The items of `parts`, separated by commas. */
  function CommaJoin(parts: seq<string>): string {
    if |parts| == 0 then ""
    else if |parts| == 1 then parts[0]
    else parts[0] + "," + CommaJoin(parts[1..])
  }

  function ErrorText(e: GraphQLError): string {
    "{" + CommaJoin(ErrorMembers(e)) + "}"
  }

  function ErrorTexts(errs: seq<GraphQLError>): (r: seq<string>)
    ensures |r| == |errs|
  {
    if errs == [] then [] else [ErrorText(errs[0])] + ErrorTexts(errs[1..])
  }

  /** `JSON.stringify(errors)` for a list of errors. */
  function StringifyErrors(errs: seq<GraphQLError>): (r: string)
    ensures |r| >= 2 && r[0] == '[' && r[|r| - 1] == ']'
    ensures errs == [] <==> r == "[]"
  {
    if errs == [] then "[]"
    else
      CommaJoinStartsWithFirst(ErrorTexts(errs));
      "[" + CommaJoin(ErrorTexts(errs)) + "]"
  }

  /** A comma-joined list of non-empty parts begins with the first part's first character. */
  lemma CommaJoinStartsWithFirst(parts: seq<string>)
    requires |parts| > 0 && parts[0] != ""
    ensures CommaJoin(parts) != "" && CommaJoin(parts)[0] == parts[0][0]
  {
  }
}
