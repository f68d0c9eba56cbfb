/**
 * The Python values a request body or a parsed model reply can hold, the
 * dictionary lookup `d.get(key, default)`, the `str()` rendering an f-string
 * applies to an interpolated value, and the messages of the exceptions the
 * handlers turn into error replies.
 */
module Json {
  import opened Wrappers

  /** A decoded JSON document: `None`, `bool`, `int`, `str`, `list` or `dict`. */
  datatype Json =
    | JNull
    | JBool(b: bool)
    | JNum(n: int)
    | JStr(s: string)
    | JArr(items: seq<Json>)
    | JObj(fields: map<string, Json>)

  /** The Python class name, as it appears in exception messages. */
  function TypeName(j: Json): string {
    match j
    case JNull => "NoneType"
    case JBool(_) => "bool"
    case JNum(_) => "int"
    case JStr(_) => "str"
    case JArr(_) => "list"
    case JObj(_) => "dict"
  }

  /** A type name in single quotes, as exception messages show it. */
  function Quoted(name: string): string {
    "'" + name + "'"
  }

  const NoGetTail: string := " object has no attribute 'get'"
  const ItemAssignmentTail: string := " object does not support item assignment"
  const ListIndexMessage: string := "list indices must be integers or slices, not str"

  /**
   * `str(AttributeError)` for `j.get`, when `j` is not a dictionary: the
   * type's name in quotes, then the missing attribute.
   */
  function NoGetMessage(j: Json): (m: string)
    ensures |m| == |Quoted(TypeName(j))| + |NoGetTail|
    ensures m[..|Quoted(TypeName(j))|] == Quoted(TypeName(j))
    ensures m[|Quoted(TypeName(j))|..] == NoGetTail
  {
    Quoted(TypeName(j)) + NoGetTail
  }

  /**
   * `str(TypeError)` for `j['key'] = v`, when `j` is not a dictionary: a list
   * complains about the index type, every other value about assignment, with
   * its type's name in quotes.
   */
  function ItemAssignmentMessage(j: Json): (m: string)
    ensures j.JArr? ==> m == ListIndexMessage
    ensures !j.JArr? ==> |m| == |Quoted(TypeName(j))| + |ItemAssignmentTail|
    ensures !j.JArr? ==> m[..|Quoted(TypeName(j))|] == Quoted(TypeName(j))
    ensures !j.JArr? ==> m[|Quoted(TypeName(j))|..] == ItemAssignmentTail
  {
    if j.JArr? then ListIndexMessage
    else Quoted(TypeName(j)) + ItemAssignmentTail
  }

  /** In a text opening with a quoted name, the name ends at the first quote after the opening one. */
  lemma QuoteCloses(m: string, a: string)
    requires |a| + 2 <= |m| && m[..|a| + 2] == Quoted(a)
    requires forall i :: 0 <= i < |a| ==> a[i] != '\''
    ensures m[|a| + 1] == '\''
    ensures forall i :: 1 <= i < |a| + 1 ==> m[i] != '\''
    ensures a == m[1..|a| + 1]
  {
    assert m[..|a| + 2][|a| + 1] == '\'';
    forall i | 1 <= i < |a| + 1
      ensures m[i] == a[i - 1]
    {
      assert m[..|a| + 2][i] == a[i - 1];
    }
  }

  /** The quoted name at the head of a message determines the name. */
  lemma QuotedNameDetermines(m: string, a: string, b: string)
    requires |a| + 2 <= |m| && m[..|a| + 2] == Quoted(a)
    requires |b| + 2 <= |m| && m[..|b| + 2] == Quoted(b)
    requires forall i :: 0 <= i < |a| ==> a[i] != '\''
    requires forall i :: 0 <= i < |b| ==> b[i] != '\''
    ensures a == b
  {
    QuoteCloses(m, a);
    QuoteCloses(m, b);
  }

  lemma TypeNameUnquoted(j: Json)
    ensures forall i :: 0 <= i < |TypeName(j)| ==> TypeName(j)[i] != '\''
  {
  }

  /**
   * The attribute error tells every type apart: two values give the same
   * message exactly when they have the same Python type.
   */
  lemma NoGetMessageNamesType(a: Json, b: Json)
    ensures NoGetMessage(a) == NoGetMessage(b) <==> TypeName(a) == TypeName(b)
  {
    if NoGetMessage(a) == NoGetMessage(b) {
      TypeNameUnquoted(a);
      TypeNameUnquoted(b);
      QuotedNameDetermines(NoGetMessage(a), TypeName(a), TypeName(b));
    }
  }

  /** The message for `None`: `'NoneType' object has no attribute 'get'`. */
  lemma NoneHasNoGet()
    ensures NoGetMessage(JNull) == Quoted("NoneType") + NoGetTail
  {
  }

  /** The same holds for the assignment error of anything but a list. */
  lemma ItemAssignmentMessageNamesType(a: Json, b: Json)
    requires !a.JArr? && !b.JArr?
    ensures ItemAssignmentMessage(a) == ItemAssignmentMessage(b) <==> TypeName(a) == TypeName(b)
  {
    if ItemAssignmentMessage(a) == ItemAssignmentMessage(b) {
      TypeNameUnquoted(a);
      TypeNameUnquoted(b);
      QuotedNameDetermines(ItemAssignmentMessage(a), TypeName(a), TypeName(b));
    }
  }

  /** `fields.get(key, default)` on a dictionary. */
  function Lookup(fields: map<string, Json>, key: string, default: Json): Json {
    if key in fields then fields[key] else default
  }

  /**
   * `j.get(key, default)`. Only a dictionary has `get`; on one, the default
   * stands in exactly when the key is missing, so a key present with `null`
   * yields `JNull`, not the default. The handlers read several keys of one
   * value: they match it against a dictionary once, where the first `.get`
   * would fail, and then read each key with `Lookup`, which is what `Get`
   * gives on a dictionary; the `...Gets` lemmas of `Handlers` state that
   * each read agrees with `Get`, its failure included.
   */
  function Get(j: Json, key: string, default: Json): (r: Result<Json, string>)
    ensures r.Ok? <==> j.JObj?
    ensures j.JObj? && key in j.fields ==> r == Ok(j.fields[key])
    ensures j.JObj? && key !in j.fields ==> r == Ok(default)
    ensures !j.JObj? ==> r == Err(NoGetMessage(j))
  {
    match j
    case JObj(fields) => Ok(Lookup(fields, key, default))
    case _ => Err(NoGetMessage(j))
  }

  /** The character of one decimal digit. */
  function DigitChar(d: nat): (c: char)
    requires d < 10
    ensures '0' <= c <= '9' && c as int - '0' as int == d
  {
    ('0' as int + d) as char
  }

  predicate AllDigits(s: string) {
    forall i :: 0 <= i < |s| ==> '0' <= s[i] <= '9'
  }

  /** The number a string of decimal digits denotes. */
  function DigitsValue(s: string): nat
    requires AllDigits(s)
  {
    if |s| == 0 then 0
    else DigitsValue(s[..|s| - 1]) * 10 + (s[|s| - 1] as int - '0' as int)
  }

  /** `str(n)` for `n >= 0`: decimal digits, no leading zero except for zero itself. */
  function NatToString(n: nat): (r: string)
    ensures |r| >= 1 && AllDigits(r)
    ensures r[0] == '0' <==> n == 0
    ensures r[0] == '0' ==> r == "0"
    decreases n
  {
    if n < 10 then [DigitChar(n)]
    else NatToString(n / 10) + [DigitChar(n % 10)]
  }

  /** Reading the digits back gives the number. */
  lemma {:induction false} NatToStringRoundTrip(n: nat)
    ensures DigitsValue(NatToString(n)) == n
    decreases n
  {
    var r := NatToString(n);
    if n >= 10 {
      NatToStringRoundTrip(n / 10);
      assert r[..|r| - 1] == NatToString(n / 10);
    }
  }

  /** `str(n)` for any integer: a minus sign before the digits of a negative one. */
  function IntToString(n: int): (r: string)
    ensures n < 0 ==> |r| >= 2 && r[0] == '-' && r[1] != '0' && AllDigits(r[1..]) && DigitsValue(r[1..]) == -n
    ensures n >= 0 ==> |r| >= 1 && AllDigits(r) && DigitsValue(r) == n && (r[0] == '0' ==> r == "0")
  {
    if n < 0 then
      NatToStringRoundTrip(-n);
      var d := NatToString(-n);
      assert ("-" + d)[1..] == d;
      "-" + d
    else
      NatToStringRoundTrip(n);
      NatToString(n)
  }

  /**
   * `str(j)`, as an f-string interpolates a value: strings verbatim, the
   * scalars as Python prints them, and containers through `repr`, Python's
   * container rendering, which this model takes as given.
   */
  function PyStr(repr: Json -> string, j: Json): (r: string)
    ensures j.JStr? ==> r == j.s
    ensures j.JNull? ==> r == "None"
    ensures j.JBool? ==> r == (if j.b then "True" else "False")
    ensures j.JNum? ==> r == IntToString(j.n)
    ensures j.JArr? || j.JObj? ==> r == repr(j)
  {
    match j
    case JNull => "None"
    case JBool(b) => if b then "True" else "False"
    case JNum(n) => IntToString(n)
    case JStr(s) => s
    case JArr(_) => repr(j)
    case JObj(_) => repr(j)
  }
}
