/** Values of decoded documents, and the text helpers that read them. */
module Documents {
  import opened Collections

  datatype Json =
    | JNull
    | JBool(flag: bool)
    | JInt(number: int)
    | JReal(decimal: real)
    | JText(text: string)
    | JList(items: seq<Json>)
    | JMap(fields: map<string, Json>)

  function Get(fields: map<string, Json>, name: string): Json {
    if name in fields then fields[name] else JNull
  }

  /** A number that is not a truth value. */
  function AsFloat(j: Json): Option<real> {
    match j
    case JInt(n) => Some(n as real)
    case JReal(x) => Some(x)
    case _ => None
  }

  predicate IsSpace(c: char) {
    c == ' ' || ('\t' <= c && c <= '\r') || ('\U{1c}' <= c && c <= '\U{1f}')
  }

  function StripLeft(s: string): string {
    if s != "" && IsSpace(s[0]) then StripLeft(s[1..]) else s
  }

  function StripRight(s: string): string {
    if s != "" && IsSpace(s[|s| - 1]) then StripRight(s[..|s| - 1]) else s
  }

  function Strip(s: string): string { StripRight(StripLeft(s)) }

  /** The pieces between separators; a text without separators is one piece. */
  function Split(s: string, separator: char): seq<string> {
    if s == "" then [""]
    else
      var rest := Split(s[1..], separator);
      if s[0] == separator then [""] + rest
      else if rest == [] then [[s[0]]]
      else [[s[0]] + rest[0]] + rest[1..]
  }

  /** Lower case, for the letters that digests and media types use. */
  function Lower(s: string): (r: string)
    ensures |r| == |s|
  {
    seq(|s|, k requires 0 <= k < |s| => if 'A' <= s[k] <= 'Z' then s[k] - 'A' + 'a' else s[k])
  }
}
