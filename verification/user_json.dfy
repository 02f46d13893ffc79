/** The serialisation behind the `user` storage slot: `JSON.stringify` on
    write and `JSON.parse` on read.

    JSON text itself is not modelled. In its place this module defines a
    concrete, self-delimiting text encoding of the values the session code
    stores, with the three facts the session code relies on proved about it:
    parsing what was stringified gives the value back, stringifying never
    yields the empty string, and parsing is partial (it rejects text it did
    not produce, as `JSON.parse` throws on malformed input). */
module UserJson {
  import opened Basics
  import opened AuthModel

  /** The JSON values the session code reads back from the `user` slot:
      the literal `null`, or an object holding a user. */
  datatype Value = Null | Object(user: User)

  /** A string: every character is preceded by '+', and '.' closes it. Only
      its length is stated here, which keeps printed users non-empty; that a
      quoted string reads back is `ReadQuote`. */
  function Quote(s: string): (t: string)
    ensures |t| == 2 * |s| + 1
  {
    if s == [] then "." else ['+', s[0]] + Quote(s[1..])
  }

  /** Reads one quoted string off the front of `t`, returning the string and
      the rest of the text. */
  function ReadString(t: string): Option<(string, string)>
    decreases |t|
  {
    if |t| == 0 then None
    else if t[0] == '.' then Some(([], t[1..]))
    else if t[0] == '+' && |t| >= 2 then
      match ReadString(t[2..])
      case Some(p) => Some(([t[1]] + p.0, p.1))
      case None => None
    else None
  }

  lemma {:induction false} ReadQuote(s: string, rest: string)
    ensures ReadString(Quote(s) + rest) == Some((s, rest))
    decreases |s|
  {
    var t := Quote(s) + rest;
    if s == [] {
      assert t[1..] == rest;
    } else {
      assert t[2..] == Quote(s[1..]) + rest;
      ReadQuote(s[1..], rest);
      assert [s[0]] + s[1..] == s;
    }
  }

  /** A magnitude as base-256 digits, least significant first. */
  function Digits(n: nat): string
    decreases n
  {
    if n == 0 then [] else [(n % 256) as char] + Digits(n / 256)
  }

  function DigitsValue(ds: string): nat
  {
    if ds == [] then 0 else ds[0] as nat + 256 * DigitsValue(ds[1..])
  }

  lemma {:induction false} DigitsRoundTrip(n: nat)
    ensures DigitsValue(Digits(n)) == n
    decreases n
  {
    if n != 0 {
      var ds := Digits(n);
      assert ds[1..] == Digits(n / 256);
      DigitsRoundTrip(n / 256);
    }
  }

  /** A number: its sign, then its magnitude as a quoted digit string. */
  function Number(i: int): string {
    (if i < 0 then "-" else "+") + Quote(Digits(if i < 0 then -i else i))
  }

  function ReadNumber(t: string): Option<(int, string)> {
    if |t| == 0 || (t[0] != '-' && t[0] != '+') then None
    else
      match ReadString(t[1..])
      case Some(p) =>
        var m: int := DigitsValue(p.0);
        Some((if t[0] == '-' then -m else m, p.1))
      case None => None
  }

  lemma ReadNumberOf(i: int, rest: string)
    ensures ReadNumber(Number(i) + rest) == Some((i, rest))
  {
    var m: nat := if i < 0 then -i else i;
    var t := Number(i) + rest;
    assert t[1..] == Quote(Digits(m)) + rest;
    ReadQuote(Digits(m), rest);
    DigitsRoundTrip(m);
  }

  /** An optional field: '~' when absent, '!' and the quoted string when present. */
  function Optional(o: Option<string>): string {
    match o
    case None => "~"
    case Some(s) => "!" + Quote(s)
  }

  function ReadOptional(t: string): Option<(Option<string>, string)> {
    if |t| == 0 then None
    else if t[0] == '~' then Some((None, t[1..]))
    else if t[0] == '!' then
      match ReadString(t[1..])
      case Some(p) => Some((Some(p.0), p.1))
      case None => None
    else None
  }

  lemma ReadOptionalOf(o: Option<string>, rest: string)
    ensures ReadOptional(Optional(o) + rest) == Some((o, rest))
  {
    var t := Optional(o) + rest;
    assert t[1..] == (if o.None? then rest else Quote(o.value) + rest);
    if o.Some? {
      ReadQuote(o.value, rest);
    }
  }

  /** `JSON.stringify(v)`. Never the empty string, which matters because
      the reader treats an empty slot as absent. */
  function Stringify(v: Value): (s: string)
    ensures s != ""
  {
    match v
    case Null => "null"
    case Object(u) =>
      "{" + (Number(u.id) + (Quote(u.nombre) + (Quote(u.email)
        + (Optional(u.telefono) + (Optional(u.direccion) + (Optional(u.empresa) + "}"))))))
  }

  /** `JSON.parse(s)`, with `None` where `JSON.parse` throws. */
  function Parse(s: string): (r: Option<Value>)
    ensures r == Some(Null) <==> s == "null"
    ensures s != "null" && (s == [] || s[0] != '{') ==> r == None
  {
    if s == "null" then Some(Null)
    else if |s| == 0 || s[0] != '{' then None
    else
      var id :- ReadNumber(s[1..]);
      var nombre :- ReadString(id.1);
      var email :- ReadString(nombre.1);
      var telefono :- ReadOptional(email.1);
      var direccion :- ReadOptional(telefono.1);
      var empresa :- ReadOptional(direccion.1);
      if empresa.1 == "}" then
        Some(Object(User(id.0, nombre.0, email.0, telefono.0, direccion.0, empresa.0)))
      else None
  }

  /** Parsing what was stringified gives back the same value. */
  lemma ParseStringify(v: Value)
    ensures Parse(Stringify(v)) == Some(v)
  {
    if v.Object? {
      var u := v.user;
      var s := Stringify(v);
      var r6 := "}";
      var r5 := Optional(u.empresa) + r6;
      var r4 := Optional(u.direccion) + r5;
      var r3 := Optional(u.telefono) + r4;
      var r2 := Quote(u.email) + r3;
      var r1 := Quote(u.nombre) + r2;
      assert s[1..] == Number(u.id) + r1;
      ReadNumberOf(u.id, r1);
      ReadQuote(u.nombre, r2);
      ReadQuote(u.email, r3);
      ReadOptionalOf(u.telefono, r4);
      ReadOptionalOf(u.direccion, r5);
      ReadOptionalOf(u.empresa, r6);
    }
  }

  /** Text that is not the output of `Stringify` can fail to parse. */
  lemma ParseIsPartial()
    ensures Parse("{}") == None
    ensures Parse("undefined") == None
  {
    assert "{}"[1..] == "}";
  }
}
