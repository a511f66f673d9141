/** The canonical JSON writer behind every request checksum, and the proof that its text is unambiguous. */
module CanonicalJson {
  import opened Text
  import Utf8

  /** The values the fixed request schemas are built from. */
  datatype Json = Null | Number(n: nat) | Str(s: string) | Object(fields: Fields)
  datatype Fields = End | Field(key: string, value: Json, rest: Fields)

  predicate IsByteString(s: string) {
    forall i | 0 <= i < |s| :: s[i] as int < 256
  }

  function BytesOf(s: string): seq<Utf8.Byte>
    requires IsByteString(s)
  {
    seq(|s|, i requires 0 <= i < |s| => s[i] as int)
  }

  ghost predicate IsText(s: string) {
    IsByteString(s) && Utf8.WellFormed(BytesOf(s))
  }

  // ---------- strings: section 7 of RFC 8259, section 3.2.2.2 of RFC 8785 ----------

  function HexDigit(d: nat): char
    requires d < 16
  {
    if d < 10 then '0' + d as char else 'a' + (d - 10) as char
  }

  function HexValue(c: char): Option<nat> {
    if '0' <= c <= '9' then Some((c - '0') as nat)
    else if 'a' <= c <= 'f' then Some((c - 'a') as nat + 10)
    else None
  }

  function EscapeChar(c: char): string {
    if c == '"' then "\\\""
    else if c == '\\' then "\\\\"
    else if c == 8 as char then "\\b"
    else if c == '\t' then "\\t"
    else if c == '\n' then "\\n"
    else if c == 12 as char then "\\f"
    else if c == '\r' then "\\r"
    else if c < 32 as char then "\\u00" + [HexDigit(c as int / 16), HexDigit(c as int % 16)]
    else [c]
  }

  function Escape(s: string): string {
    if s == "" then "" else EscapeChar(s[0]) + Escape(s[1..])
  }

  /** The quoted form of `s`, followed by `rest`. */
  function Quoted(s: string, rest: string): string {
    "\"" + (Escape(s) + "\"" + rest)
  }

  /** One character of a string body: the character it stands for and how many characters it takes. */
  function ReadChar(t: string): Option<(char, nat)> {
    if |t| == 0 || t[0] == '"' || t[0] < ' ' then None
    else if t[0] != '\\' then Some((t[0], 1))
    else if |t| < 2 then None
    else if t[1] == '"' || t[1] == '\\' then Some((t[1], 2))
    else if t[1] == 'b' then Some((8 as char, 2))
    else if t[1] == 't' then Some(('\t', 2))
    else if t[1] == 'n' then Some(('\n', 2))
    else if t[1] == 'f' then Some((12 as char, 2))
    else if t[1] == 'r' then Some(('\r', 2))
    else if |t| < 6 || t[1] != 'u' || t[2] != '0' || t[3] != '0' then None
    else
      match (HexValue(t[4]), HexValue(t[5]))
      case (Some(high), Some(low)) => Some(((high * 16 + low) as char, 6))
      case _ => None
  }

  /** Decodes a string body up to its closing quote; also returns the text behind the quote. */
  function ReadBody(t: string): Option<(string, string)>
    decreases |t|
  {
    if t != "" && t[0] == '"' then Some(("", t[1..]))
    else
      match ReadChar(t)
      case None => None
      case Some((c, n)) =>
        if n == 0 || n > |t| then None
        else
          match ReadBody(t[n..])
          case None => None
          case Some((s, rest)) => Some(([c] + s, rest))
  }

  lemma ReadEscapedChar(c: char, rest: string)
    ensures ReadChar(EscapeChar(c) + rest) == Some((c, |EscapeChar(c)|))
    ensures |EscapeChar(c)| > 0 && EscapeChar(c)[0] != '"'
  {
    var t := EscapeChar(c) + rest;
    assert forall i | 0 <= i < |EscapeChar(c)| :: t[i] == EscapeChar(c)[i];
    if c < 32 as char && |EscapeChar(c)| == 6 {
      HexRoundTrip(c as int);
      assert t[4] == HexDigit(c as int / 16) && t[5] == HexDigit(c as int % 16);
    }
  }

  lemma HexRoundTrip(b: nat)
    requires b < 32
    ensures HexValue(HexDigit(b / 16)) == Some(b / 16) && HexValue(HexDigit(b % 16)) == Some(b % 16)
    ensures b / 16 * 16 + b % 16 == b
  {
  }

  lemma EscapeOpens(s: string, rest: string)
    requires s != ""
    ensures Escape(s) + "\"" + rest == EscapeChar(s[0]) + (Escape(s[1..]) + "\"" + rest)
  {
    var e, x := EscapeChar(s[0]), Escape(s[1..]);
    assert (e + x) + "\"" + rest == e + (x + "\"" + rest);
  }

  /** A written string can be read back from the front of any text, and the reader stops where the writer did. */
  lemma {:induction false} ReadQuoted(s: string, rest: string)
    ensures ReadBody(Escape(s) + "\"" + rest) == Some((s, rest))
  {
    if s == "" {
      assert Escape(s) + "\"" + rest == "\"" + rest;
    } else {
      ReadQuoted(s[1..], rest);
      EscapeOpens(s, rest);
      ReadsOn(s[0], Escape(s[1..]) + "\"" + rest, s[1..], rest);
      assert s == [s[0]] + s[1..];
    }
  }

  lemma ReadsOn(c: char, tail: string, s: string, rest: string)
    requires ReadBody(tail) == Some((s, rest))
    ensures ReadBody(EscapeChar(c) + tail) == Some(([c] + s, rest))
  {
    var t := EscapeChar(c) + tail;
    ReadEscapedChar(c, tail);
    assert t[|EscapeChar(c)|..] == tail && t[0] == EscapeChar(c)[0];
  }

  /** The writer emits no control character, so its output is a legal JSON string body. */
  lemma {:induction false} EscapeHasNoControls(s: string)
    ensures forall i | 0 <= i < |Escape(s)| :: Escape(s)[i] >= ' '
  {
    if s != "" {
      EscapeHasNoControls(s[1..]);
      var e := EscapeChar(s[0]);
      forall i | 0 <= i < |e| ensures e[i] >= ' ' {
        if |e| == 6 { HexRoundTrip(s[0] as int); }
      }
    }
  }

  /** The characters of section 7 of RFC 8259: nothing bare that must be escaped, and no escape but those of the grammar. */
  predicate IsStringBody(t: string) {
    if t == "" then true
    else if t[0] != '\\' then t[0] >= ' ' && t[0] != '"' && IsStringBody(t[1..])
    else if |t| < 2 then false
    else if t[1] == 'u' then |t| >= 6 && (forall i | 2 <= i < 6 :: HexValue(t[i]).Some?) && IsStringBody(t[6..])
    else t[1] in "\"\\/bfnrt" && IsStringBody(t[2..])
  }

  /** What the writer emits is the body of a legal JSON string: no bare control character, quotation mark or backslash. */
  lemma {:induction false} EscapeIsStringBody(s: string)
    ensures IsStringBody(Escape(s))
  {
    if s != "" {
      EscapeIsStringBody(s[1..]);
      EscapedCharBody(s[0], Escape(s[1..]));
    }
  }

  lemma EscapedCharBody(c: char, rest: string)
    requires IsStringBody(rest)
    ensures IsStringBody(EscapeChar(c) + rest)
  {
    var e := EscapeChar(c);
    var t := e + rest;
    assert t[|e|..] == rest && forall i | 0 <= i < |e| :: t[i] == e[i];
    if |e| == 6 {
      HexRoundTrip(c as int);
      assert HexValue(t[2]).Some? && HexValue(t[3]).Some? && HexValue(t[4]).Some? && HexValue(t[5]).Some?;
    }
  }

  lemma {:induction false} EscapeConcat(a: string, b: string)
    ensures Escape(a + b) == Escape(a) + Escape(b)
  {
    if a == "" {
      assert a + b == b;
    } else {
      var t := a + b;
      assert t[0] == a[0] && t[1..] == a[1..] + b;
      EscapeConcat(a[1..], b);
      ConcatAssociative(EscapeChar(a[0]), Escape(a[1..]), Escape(b));
    }
  }

  lemma ConcatAssociative(x: string, y: string, z: string)
    ensures x + (y + z) == (x + y) + z
  {
  }

  lemma EscapeNext(value: string, i: nat)
    requires i < |value|
    ensures Escape(value[..i + 1]) == Escape(value[..i]) + EscapeChar(value[i])
  {
    EscapeConcat(value[..i], value[i..i + 1]);
    assert value[..i] + value[i..i + 1] == value[..i + 1];
    assert Escape(value[i..i + 1]) == EscapeChar(value[i]) + Escape("");
  }

  /** `appendV2CanonicalJsonString`. */
  method AppendString(value: string, output: string) returns (ok: bool, result: string)
    requires IsByteString(value)
    ensures ok <==> IsText(value)
    ensures result == if ok then output + Quoted(value, "") else output
  {
    ok := Utf8.IsValidUtf8V2(BytesOf(value));
    result := output;
    if !ok { return; }
    result := result + "\"";
    var i := 0;
    while i < |value|
      invariant i <= |value|
      invariant result == output + "\"" + Escape(value[..i])
    {
      EscapeNext(value, i);
      ConcatAssociative(output + "\"", Escape(value[..i]), EscapeChar(value[i]));
      result := result + EscapeChar(value[i]);
      i := i + 1;
    }
    assert value[..i] == value;
    QuoteCloses(output, Escape(value));
    result := result + "\"";
  }

  lemma QuoteCloses(output: string, body: string)
    ensures output + "\"" + body + "\"" == output + ("\"" + (body + "\"" + ""))
  {
    ConcatAssociative(output, "\"", body);
    ConcatAssociative(output, "\"" + body, "\"");
    assert "\"" + body + "\"" == "\"" + (body + "\"" + "");
  }

  // ---------- numbers, objects and whole values ----------

  /** `std::to_string` of an unsigned integer. */
  function Decimal(n: nat): (d: string)
    ensures d != "" && forall i | 0 <= i < |d| :: '0' <= d[i] <= '9'
  {
    if n < 10 then ['0' + n as char] else Decimal(n / 10) + ['0' + (n % 10) as char]
  }

  function DecimalValue(d: string): nat
    requires forall i | 0 <= i < |d| :: '0' <= d[i] <= '9'
  {
    if d == "" then 0 else DecimalValue(d[..|d| - 1]) * 10 + (d[|d| - 1] - '0') as nat
  }

  lemma {:induction false} DecimalRoundTrip(n: nat)
    ensures DecimalValue(Decimal(n)) == n
  {
    var d := Decimal(n);
    if n >= 10 {
      DecimalRoundTrip(n / 10);
      assert d[..|d| - 1] == Decimal(n / 10);
    }
  }

  /** The text of a value followed by `rest`; the fields of an object stand in the order given. */
  function Emit(v: Json, rest: string): string {
    match v
    case Null => "null" + rest
    case Number(n) => Decimal(n) + rest
    case Str(s) => Quoted(s, rest)
    case Object(fields) => "{" + EmitMembers(fields, "", rest)
  }

  function EmitMembers(f: Fields, separator: string, rest: string): string {
    match f
    case End => "}" + rest
    case Field(key, value, others) =>
      separator + Quoted(key, ":" + Emit(value, EmitMembers(others, ",", rest)))
  }

  function Serialize(v: Json): string {
    Emit(v, "")
  }

  /** Text that may follow a complete value: nothing, the next member or the closing brace. */
  predicate Delimited(rest: string) {
    rest == "" || rest[0] == ',' || rest[0] == '}'
  }

  lemma QuotedIsPrefixFree(a: string, ra: string, b: string, rb: string)
    requires Quoted(a, ra) == Quoted(b, rb)
    ensures a == b && ra == rb
  {
    ReadQuoted(a, ra);
    ReadQuoted(b, rb);
    assert Quoted(a, ra)[1..] == Escape(a) + "\"" + ra;
    assert Quoted(b, rb)[1..] == Escape(b) + "\"" + rb;
  }

  lemma DecimalIsPrefixFree(a: nat, ra: string, b: nat, rb: string)
    requires Delimited(ra) && Delimited(rb) && Decimal(a) + ra == Decimal(b) + rb
    ensures a == b && ra == rb
  {
    DigitsArePrefixFree(Decimal(a), ra, Decimal(b), rb);
    DecimalRoundTrip(a);
    DecimalRoundTrip(b);
  }

  lemma DigitsArePrefixFree(da: string, ra: string, db: string, rb: string)
    requires forall i | 0 <= i < |da| :: '0' <= da[i] <= '9'
    requires forall i | 0 <= i < |db| :: '0' <= db[i] <= '9'
    requires Delimited(ra) && Delimited(rb) && da + ra == db + rb
    ensures da == db && ra == rb
  {
    var t := da + ra;
    assert |da| < |t| ==> t[|da|] == ra[0];
    assert |db| < |t| ==> t[|db|] == rb[0];
    assert da == t[..|da|] && db == t[..|db|];
    assert ra == t[|da|..] && rb == t[|db|..];
  }

  lemma EmitStart(v: Json, rest: string)
    ensures
      var t := Emit(v, rest);
      && t != ""
      && (t[0] == 'n' <==> v.Null?) && (t[0] == '"' <==> v.Str?) && (t[0] == '{' <==> v.Object?)
      && ('0' <= t[0] <= '9' <==> v.Number?)
  {
  }

  /** No value's text is a proper start of another value's text, whatever delimiter follows them: the text of
      a whole schema determines every value in it. */
  lemma {:induction false} EmitIsPrefixFree(a: Json, ra: string, b: Json, rb: string)
    requires Delimited(ra) && Delimited(rb) && Emit(a, ra) == Emit(b, rb)
    ensures a == b && ra == rb
    decreases a, 1
  {
    EmitStart(a, ra);
    EmitStart(b, rb);
    match a {
      case Null =>
        assert ra == Emit(a, ra)[4..] == Emit(b, rb)[4..] == rb;
      case Number(n) =>
        DecimalIsPrefixFree(n, ra, b.n, rb);
      case Str(s) =>
        QuotedIsPrefixFree(s, ra, b.s, rb);
      case Object(fields) =>
        assert EmitMembers(fields, "", ra) == Emit(a, ra)[1..] == Emit(b, rb)[1..] == EmitMembers(b.fields, "", rb);
        MembersArePrefixFree(fields, ra, b.fields, rb, "");
    }
  }

  lemma {:induction false} MembersArePrefixFree(a: Fields, ra: string, b: Fields, rb: string, separator: string)
    requires separator == "" || separator == ","
    requires EmitMembers(a, separator, ra) == EmitMembers(b, separator, rb)
    ensures a == b && ra == rb
    decreases a, 0
  {
    MembersStart(a, ra, separator);
    MembersStart(b, rb, separator);
    if a.End? {
      assert ra == EmitMembers(a, separator, ra)[1..] == EmitMembers(b, separator, rb)[1..] == rb;
    } else {
      var ma, mb := EmitMembers(a.rest, ",", ra), EmitMembers(b.rest, ",", rb);
      var va, vb := Emit(a.value, ma), Emit(b.value, mb);
      DropSeparator(a, ra, separator);
      DropSeparator(b, rb, separator);
      QuotedIsPrefixFree(a.key, ":" + va, b.key, ":" + vb);
      assert va == (":" + va)[1..] == (":" + vb)[1..] == vb;
      MembersStart(a.rest, ra, ",");
      MembersStart(b.rest, rb, ",");
      EmitIsPrefixFree(a.value, ma, b.value, mb);
      MembersArePrefixFree(a.rest, ra, b.rest, rb, ",");
    }
  }

  lemma MembersStart(f: Fields, rest: string, separator: string)
    requires separator == "" || separator == ","
    ensures
      var t := EmitMembers(f, separator, rest);
      t != "" && (f.End? <==> t[0] == '}') && (separator == "," ==> Delimited(t))
  {
  }

  lemma DropSeparator(f: Fields, rest: string, separator: string)
    requires f.Field?
    ensures EmitMembers(f, separator, rest)[|separator|..]
         == Quoted(f.key, ":" + Emit(f.value, EmitMembers(f.rest, ",", rest)))
  {
  }

  lemma SerializeIsInjective(a: Json, b: Json)
    requires Serialize(a) == Serialize(b)
    ensures a == b
  {
    EmitIsPrefixFree(a, "", b, "");
  }
}
