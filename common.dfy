/** Values shared by every part of the model: optional values, raised
    exceptions, the tool-call arguments, text content blocks and the small
    string helpers the handlers use to build their messages. */
module Common {

  datatype Option<+T> = None | Some(value: T) {
    /** `d.get(key, default)` once the lookup has been made. */
    function GetOr(default: T): T {
      match this
      case Some(v) => v
      case None => default
    }
  }

  /** A call that either returns a value or raises an exception whose
      `str(e)` is `message`. */
  datatype Result<+T> = Ok(value: T) | Err(message: string)

  /** A statement that either completes or raises. */
  datatype Outcome = Pass | Fail(message: string)

  /** Python truthiness of an optional string: `None` and `""` are false. */
  predicate Truthy(s: Option<string>) {
    s.Some? && s.value != ""
  }

  /** `str(KeyError(key))`: the key between single quotes. */
  function KeyErrorMessage(key: string): (m: string)
    ensures |m| == |key| + 2 && m[0] == '\'' && m[|m| - 1] == '\''
    ensures m[1..|m| - 1] == key
  {
    "'" + key + "'"
  }

  /** A JSON object with string values, keys in insertion order. */
  type Row = seq<(string, string)>

  /** The value stored under `key` (the first one, as keys are unique). */
  function Lookup(row: Row, key: string): (v: Option<string>)
    ensures v.Some? <==> exists i :: 0 <= i < |row| && row[i].0 == key
  {
    if |row| == 0 then None
    else if row[0].0 == key then Some(row[0].1)
    else Lookup(row[1..], key)
  }

  /** One `TextContent` block of the tool protocol. */
  datatype Content = Content(kind: string, text: string)

  function TextBlock(text: string): (c: Content)
    ensures c.kind == "text" && c.text == text
  {
    Content("text", text)
  }

  /** A tool reply made of one text block. */
  function Reply(text: string): (r: seq<Content>)
    ensures |r| == 1 && r[0].kind == "text" && r[0].text == text
  {
    [TextBlock(text)]
  }

  predicate StartsWith(s: string, prefix: string) {
    |prefix| <= |s| && s[..|prefix|] == prefix
  }

  /** `part` occurs in `s` starting at index `i`. */
  predicate OccursAt(s: string, part: string, i: int) {
    0 <= i <= |s| - |part| && s[i..i + |part|] == part
  }

  /** Python's `part in s`. */
  ghost predicate Contains(s: string, part: string) {
    exists i :: OccursAt(s, part, i)
  }

  lemma ContainsRight(a: string, b: string)
    ensures Contains(a + b, b)
  {
    assert OccursAt(a + b, b, |a|);
  }

  lemma ContainsLeft(a: string, b: string)
    ensures Contains(a + b, a)
  {
    assert OccursAt(a + b, a, 0);
  }

  lemma {:induction false} ContainsExtend(a: string, s: string, b: string, part: string)
    requires Contains(s, part)
    ensures Contains(a + s + b, part)
  {
    var i :| OccursAt(s, part, i);
    assert (a + s + b)[|a| + i..|a| + i + |part|] == s[i..i + |part|];
    assert OccursAt(a + s + b, part, |a| + i);
  }

  /** `sep.join(parts)`. */
  function Join(parts: seq<string>, sep: string): (s: string)
    ensures |parts| == 1 ==> s == parts[0]
  {
    if |parts| == 0 then ""
    else if |parts| == 1 then parts[0]
    else parts[0] + sep + Join(parts[1..], sep)
  }

  /** Every part of a joined list occurs in the joined text. */
  lemma {:induction false} JoinContains(parts: seq<string>, sep: string, i: int)
    requires 0 <= i < |parts|
    ensures Contains(Join(parts, sep), parts[i])
    decreases |parts|
  {
    if |parts| == 1 {
      assert OccursAt(parts[0], parts[0], 0);
    } else if i == 0 {
      assert Join(parts, sep) == parts[0] + (sep + Join(parts[1..], sep));
      ContainsLeft(parts[0], sep + Join(parts[1..], sep));
    } else {
      JoinContains(parts[1..], sep, i - 1);
      ContainsExtend(parts[0] + sep, Join(parts[1..], sep), "", parts[i]);
      assert parts[0] + sep + Join(parts[1..], sep) + "" == Join(parts, sep);
    }
  }

  /** The message of the `ValueError` a dispatcher raises for a name it
      does not know. */
  function UnknownTool(name: string): (m: string)
    ensures StartsWith(m, "Ferramenta desconhecida: ") && m[0] == 'F'
    ensures m[|"Ferramenta desconhecida: "|..] == name
  {
    "Ferramenta desconhecida: " + name
  }

  /** Decimal digits of a natural number, as `str(n)` prints it. */
  function NatToString(n: nat): (s: string)
    ensures |s| >= 1
    ensures forall i :: 0 <= i < |s| ==> '0' <= s[i] <= '9'
    decreases n
  {
    if n < 10 then [Digit(n)] else NatToString(n / 10) + [Digit(n % 10)]
  }

  function Digit(d: nat): (c: char)
    requires d < 10
    ensures '0' <= c <= '9'
  {
    "0123456789"[d]
  }

  /** A Python-like literal for a row, as an f-string interpolates a dict.
      (The escaping rules of Python's repr are not modelled.) */
  function ShowRow(row: Row): string {
    "{" + Join(ShowPairs(row), ", ") + "}"
  }

  function ShowPairs(row: Row): (r: seq<string>)
    ensures |r| == |row|
  {
    if |row| == 0 then [] else ["'" + row[0].0 + "': '" + row[0].1 + "'"] + ShowPairs(row[1..])
  }

  function ShowRows(rows: seq<Row>): string {
    "[" + Join(ShowEach(rows), ", ") + "]"
  }

  function ShowEach(rows: seq<Row>): (r: seq<string>)
    ensures |r| == |rows|
  {
    if |rows| == 0 then [] else [ShowRow(rows[0])] + ShowEach(rows[1..])
  }

  /** One filter entry of `database_select`; a `None` field is a missing key. */
  datatype FilterItem = FilterItem(column: Option<string>, operator: Option<string>, value: Option<string>)

  /** Request metadata: header name to value. */
  type Headers = map<string, string>

  /** The argument dictionary of a tool call; `None` is an absent key.
      Only the keys some handler reads are represented. */
  datatype Args = Args(
    sql: Option<string>,
    table: Option<string>,
    id: Option<string>,
    data: Option<Row>,
    columns: Option<seq<string>>,
    filters: Option<seq<FilterItem>>,
    limit: Option<int>,
    offset: Option<int>,
    projectCode: Option<string>,
    accessToken: Option<string>,
    headers: Option<Headers>,
    event: Option<string>,
    filter: Option<string>,
    channel: Option<string>,
    message: Option<Row>)

  /** The empty argument dictionary. */
  function NoArgs(): Args {
    Args(None, None, None, None, None, None, None, None, None, None, None, None, None, None, None)
  }
}
